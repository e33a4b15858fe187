/**
 * The password literal of internal/sql/user.go, read back by a lexer for string constants as sections
 * 4.1.2.1 and 4.1.2.2 of the PostgreSQL manual describe them. `scs` is standard_conforming_strings.
 */
module Literals {
  import opened Base

  // ---------- the encoder ----------

  function EscapeByte(b: byte): Bytes {
    if b == QUOTE then [QUOTE, QUOTE] else if b == BACKSLASH then [BACKSLASH, BACKSLASH] else [b]
  }

  function Escape(s: Bytes): Bytes {
    if s == [] then [] else EscapeByte(s[0]) + Escape(s[1..])
  }

  lemma EscapeNext(done: Bytes, s: Bytes)
    requires s != []
    ensures done + EscapeByte(s[0]) + Escape(s[1..]) == done + Escape(s)
  {
  }

  method EscapeString(s: Bytes) returns (result: Bytes)
    ensures result == Escape(s)
  {
    result := [];
    for i := 0 to |s|
      invariant result + Escape(s[i..]) == Escape(s)
    {
      EscapeNext(result, s[i..]);
      assert s[i..][1..] == s[i + 1..];
      if s[i] == QUOTE {
        result := result + [QUOTE, QUOTE];
      } else if s[i] == BACKSLASH {
        result := result + [BACKSLASH, BACKSLASH];
      } else {
        result := result + [s[i]];
      }
    }
  }

  function QuoteLiteral(s: Bytes): Bytes {
    [QUOTE] + Escape(s) + [QUOTE]
  }

  // ---------- the lexer ----------

  predicate IsSpace(b: byte) { b == 32 || 9 <= b <= 13 }

  predicate IsNewline(b: byte) { b == 10 || b == 13 }

  predicate IsOctal(b: byte) { 48 <= b <= 55 }

  function HexValue(b: byte): Option<int> {
    if 48 <= b <= 57 then Some(b as int - 48)
    else if 65 <= b <= 70 then Some(b as int - 55)
    else if 97 <= b <= 102 then Some(b as int - 87)
    else None
  }

  /** The length of the leading white space. */
  function SpaceLength(t: Bytes): (n: nat)
    ensures n <= |t|
    ensures n < |t| ==> !IsSpace(t[n])
    ensures forall i :: 0 <= i < n ==> IsSpace(t[i])
  {
    if t != [] && IsSpace(t[0]) then 1 + SpaceLength(t[1..]) else 0
  }

  /** After a closing quote: white space with a newline and another quote continue the constant. */
  predicate Continues(t: Bytes) {
    var n := SpaceLength(t);
    n < |t| && t[n] == QUOTE && exists i :: 0 <= i < n && IsNewline(t[i])
  }

  /** The text after a closing quote does not end the constant. */
  predicate Extends(t: Bytes) {
    (t != [] && t[0] == QUOTE) || Continues(t)
  }

  function OctalLength(t: Bytes): (n: nat)
    ensures n <= 3 && n <= |t|
  {
    if t == [] || !IsOctal(t[0]) then 0
    else if |t| == 1 || !IsOctal(t[1]) then 1
    else if |t| == 2 || !IsOctal(t[2]) then 2
    else 3
  }

  function OctalValue(t: Bytes): int {
    if t == [] then 0 else OctalValue(t[..|t| - 1]) * 8 + t[|t| - 1] as int - 48
  }

  /** A backslash escape, read after its backslash: the byte it stands for and its length. */
  function DecodeEscape(t: Bytes): (r: Option<(byte, nat)>)
    ensures r.Some? ==> 1 <= r.value.1 <= |t|
  {
    if t == [] then None
    else if t[0] == 98 then Some((8, 1))
    else if t[0] == 102 then Some((12, 1))
    else if t[0] == 110 then Some((10, 1))
    else if t[0] == 114 then Some((13, 1))
    else if t[0] == 116 then Some((9, 1))
    else if t[0] == 117 || t[0] == 85 then None  // \u and \U need a server encoding
    else if IsOctal(t[0]) then
      var n := OctalLength(t);
      Some(((OctalValue(t[..n]) % 256) as byte, n))
    else if t[0] == 120 && |t| > 1 && HexValue(t[1]).Some? then
      var high := HexValue(t[1]).value;
      if |t| > 2 && HexValue(t[2]).Some? then Some(((high * 16 + HexValue(t[2]).value) as byte, 3))
      else Some((high as byte, 2))
    else Some((t[0], 1))
  }

  function Prepend(b: byte, r: Option<(Bytes, Bytes)>): Option<(Bytes, Bytes)> {
    match r
    case None => None
    case Some((v, rest)) => Some(([b] + v, rest))
  }

  /** The text after an opening quote: the constant's value and the text that follows the constant. */
  function LexBody(scs: bool, t: Bytes): (r: Option<(Bytes, Bytes)>)
    ensures r.Some? ==> |r.value.1| < |t|
    decreases |t|
  {
    if t == [] then None
    else if t[0] == QUOTE then
      if |t| > 1 && t[1] == QUOTE then Prepend(QUOTE, LexBody(scs, t[2..]))
      else if Continues(t[1..]) then LexBody(scs, t[1..][SpaceLength(t[1..]) + 1..])
      else Some(([], t[1..]))
    else if t[0] == BACKSLASH && !scs then
      match DecodeEscape(t[1..])
      case None => None
      case Some((b, n)) => Prepend(b, LexBody(scs, t[1..][n..]))
    else Prepend(t[0], LexBody(scs, t[1..]))
  }

  function Lex(scs: bool, t: Bytes): Option<(Bytes, Bytes)> {
    if t == [] || t[0] != QUOTE then None else LexBody(scs, t[1..])
  }

  // ---------- what the server reads ----------

  function StoredByte(scs: bool, b: byte): Bytes {
    if scs && b == BACKSLASH then [BACKSLASH, BACKSLASH] else [b]
  }

  function DoubleBackslashes(s: Bytes): Bytes {
    if s == [] then [] else StoredByte(true, s[0]) + DoubleBackslashes(s[1..])
  }

  /** The value the server decodes from the literal of s. */
  function Stored(scs: bool, s: Bytes): Bytes {
    if scs then DoubleBackslashes(s) else s
  }

  /** One escaped byte lexes to what the server stores for it, whatever follows. */
  lemma LexStep(scs: bool, b: byte, u: Bytes)
    ensures LexBody(scs, EscapeByte(b) + u) ==
            match LexBody(scs, u)
            case None => None
            case Some((v, rest)) => Some((StoredByte(scs, b) + v, rest))
  {
    var t := EscapeByte(b) + u;
    if b == QUOTE {
      assert t[2..] == u;
    } else if b == BACKSLASH {
      assert t[1..] == [BACKSLASH] + u;
      assert t[1..][1..] == u;
      if scs {
        assert LexBody(scs, t[1..]) == Prepend(BACKSLASH, LexBody(scs, u));
        if LexBody(scs, u).Some? {
          var v := LexBody(scs, u).value.0;
          assert [BACKSLASH] + ([BACKSLASH] + v) == [BACKSLASH, BACKSLASH] + v;
        }
      } else {
        assert DecodeEscape(t[1..]) == Some((BACKSLASH, 1));
      }
    } else {
      assert t[1..] == u;
    }
  }

  lemma EscapedTail(s: Bytes, rest: Bytes)
    requires s != []
    ensures Escape(s) + [QUOTE] + rest == EscapeByte(s[0]) + (Escape(s[1..]) + [QUOTE] + rest)
  {
  }

  lemma {:induction false} LexEscaped(scs: bool, s: Bytes, rest: Bytes)
    requires !Extends(rest)
    ensures LexBody(scs, Escape(s) + [QUOTE] + rest) == Some((Stored(scs, s), rest))
  {
    if s == [] {
      var t := Escape(s) + [QUOTE] + rest;
      assert t == [QUOTE] + rest;
      assert t[1..] == rest;
    } else {
      EscapedTail(s, rest);
      LexStep(scs, s[0], Escape(s[1..]) + [QUOTE] + rest);
      LexEscaped(scs, s[1..], rest);
      assert StoredByte(scs, s[0]) + Stored(scs, s[1..]) == Stored(scs, s);
    }
  }

  lemma {:induction false} LexExtended(scs: bool, s: Bytes, rest: Bytes)
    requires Extends(rest)
    ensures var r := LexBody(scs, Escape(s) + [QUOTE] + rest); r.Some? ==> |r.value.1| < |rest|
  {
    if s == [] {
      var t := Escape(s) + [QUOTE] + rest;
      assert t == [QUOTE] + rest;
      assert t[1..] == rest;
      if rest[0] == QUOTE {
        assert t[2..] == rest[1..];
      }
    } else {
      EscapedTail(s, rest);
      LexStep(scs, s[0], Escape(s[1..]) + [QUOTE] + rest);
      LexExtended(scs, s[1..], rest);
    }
  }

  /** The literal is contained: in both modes it ends exactly where the encoder ended it, whatever s holds,
      unless the text that follows it is one the server joins to a preceding constant. */
  lemma LiteralIsContained(scs: bool, s: Bytes, rest: Bytes)
    ensures Lex(scs, QuoteLiteral(s) + rest) == Some((Stored(scs, s), rest)) <==> !Extends(rest)
  {
    assert (QuoteLiteral(s) + rest)[1..] == Escape(s) + [QUOTE] + rest;
    if Extends(rest) {
      LexExtended(scs, s, rest);
    } else {
      LexEscaped(scs, s, rest);
    }
  }

  lemma {:induction false} DoublingGrows(s: Bytes)
    ensures |DoubleBackslashes(s)| >= |s|
    ensures DoubleBackslashes(s) == s <==> BACKSLASH !in s
    ensures BACKSLASH in s ==> |DoubleBackslashes(s)| > |s|
  {
    if s != [] {
      DoublingGrows(s[1..]);
      assert s == [s[0]] + s[1..];
    }
  }

  /** The statement that ends with the literal stores s in that mode exactly when the mode decodes backslash
      escapes or s holds no backslash. */
  lemma StoredExactly(scs: bool, s: Bytes)
    ensures Lex(scs, QuoteLiteral(s)) == Some((Stored(scs, s), []))
    ensures Stored(scs, s) == s <==> !scs || BACKSLASH !in s
  {
    LiteralIsContained(scs, s, []);
    assert QuoteLiteral(s) + [] == QuoteLiteral(s);
    DoublingGrows(s);
  }

  /** No two values share a literal, and no two share the value the server stores. */
  lemma LiteralIsInjective(scs: bool, a: Bytes, b: Bytes)
    ensures QuoteLiteral(a) == QuoteLiteral(b) <==> a == b
    ensures Stored(scs, a) == Stored(scs, b) <==> a == b
  {
    StoredExactly(false, a);
    StoredExactly(false, b);
    DoublingIsInjective(a, b);
  }

  lemma {:induction false} DoublingIsInjective(a: Bytes, b: Bytes)
    ensures DoubleBackslashes(a) == DoubleBackslashes(b) ==> a == b
  {
    if a != [] && b != [] {
      DoublingIsInjective(a[1..], b[1..]);
      if DoubleBackslashes(a) == DoubleBackslashes(b) {
        assert a[0] == DoubleBackslashes(a)[0] == DoubleBackslashes(b)[0] == b[0];
        var n := if a[0] == BACKSLASH then 2 else 1;
        assert DoubleBackslashes(a)[n..] == DoubleBackslashes(a[1..]);
        assert DoubleBackslashes(b)[n..] == DoubleBackslashes(b[1..]);
        assert a == [a[0]] + a[1..] && b == [b[0]] + b[1..];
      }
    }
  }
}
