/**
 * The connection string of internal/sql/client.go, read back by a parser for the keyword/value form of
 * section 34.1.1.1 of the PostgreSQL manual: settings separated by white space, optional white space around
 * the equals sign, values optionally in single quotes, a backslash in a value taking the next character as is.
 */
module ConnStrings {
  import opened Base

  type Setting = (string, string)

  datatype ConnectConfig = ConnectConfig(host: string, port: int, database: string, username: string, password: string)

  // ---------- the printer ----------

  function PrintNat(n: nat): (s: string)
    ensures s != []
    ensures forall c :: c in s ==> '0' <= c <= '9'
  {
    if n < 10 then [('0' as int + n) as char] else PrintNat(n / 10) + PrintNat(n % 10)
  }

  function PrintInt(n: int): string {
    if n < 0 then "-" + PrintNat(-n) else PrintNat(n)
  }

  function ConnStr(cfg: ConnectConfig): string {
    "host=" + cfg.host + " port=" + PrintInt(cfg.port) + " dbname=" + cfg.database
    + " user=" + cfg.username + " password=" + cfg.password + " sslmode=disable"
  }

  function SixSettings(cfg: ConnectConfig): seq<Setting> {
    [("host", cfg.host), ("port", PrintInt(cfg.port)), ("dbname", cfg.database),
     ("user", cfg.username), ("password", cfg.password), ("sslmode", "disable")]
  }

  function Print(ps: seq<Setting>): string {
    if ps == [] then ""
    else ps[0].0 + "=" + ps[0].1 + (if |ps| == 1 then "" else " " + Print(ps[1..]))
  }

  // ---------- the parser ----------

  predicate IsSpace(c: char) { c == ' ' || 9 <= c as int <= 13 }

  function TrimLeft(s: string): (t: string)
    ensures |t| <= |s|
    ensures t != [] ==> !IsSpace(t[0])
    ensures s != [] && IsSpace(s[0]) ==> |t| < |s|
    ensures s != [] && !IsSpace(s[0]) ==> t == s
  {
    if s != [] && IsSpace(s[0]) then TrimLeft(s[1..]) else s
  }

  function TrimRight(s: string): (t: string)
    ensures |t| <= |s|
    ensures s != [] && !IsSpace(s[|s| - 1]) ==> t == s
  {
    if s != [] && IsSpace(s[|s| - 1]) then TrimRight(s[..|s| - 1]) else s
  }

  function EqualsAt(s: string): (n: nat)
    ensures n <= |s|
    ensures n < |s| ==> s[n] == '='
    ensures '=' !in s[..n]
  {
    if s == [] || s[0] == '=' then 0 else 1 + EqualsAt(s[1..])
  }

  /** A value without quotes and the text after the space that ends it. */
  function Plain(t: string): (r: Option<Setting>)
    ensures r.Some? ==> |r.value.0| + |r.value.1| <= |t|
    decreases |t|
  {
    if t == [] then Some(("", ""))
    else if IsSpace(t[0]) then Some(("", t[1..]))
    else if t[0] == '\\' then
      if |t| == 1 then None else Consed(t[1], Plain(t[2..]))
    else Consed(t[0], Plain(t[1..]))
  }

  /** A value read after its opening quote and the text after its closing quote. */
  function Quoted(t: string): (r: Option<Setting>)
    ensures r.Some? ==> |r.value.0| + |r.value.1| < |t|
    decreases |t|
  {
    if t == [] then None
    else if t[0] == '\'' then Some(("", t[1..]))
    else if t[0] == '\\' then
      if |t| == 1 then None else Consed(t[1], Quoted(t[2..]))
    else Consed(t[0], Quoted(t[1..]))
  }

  function Consed(c: char, r: Option<Setting>): Option<Setting> {
    match r
    case None => None
    case Some((v, rest)) => Some(([c] + v, rest))
  }

  function Value(t: string): (r: Option<Setting>)
    ensures r.Some? ==> |r.value.0| + |r.value.1| <= |t|
  {
    if t != [] && t[0] == '\'' then Quoted(t[1..]) else Plain(t)
  }

  /** The first setting and the text after it. */
  function First(s: string): (r: Option<(Setting, string)>)
    ensures r.Some? ==> |r.value.0.1| + |r.value.1| < |s| && |r.value.0.0| + 1 + |r.value.0.1| + |r.value.1| <= |s|
  {
    var e := EqualsAt(s);
    if e == |s| then None
    else
      var key := TrimRight(TrimLeft(s[..e]));
      match Value(TrimLeft(s[e + 1..]))
      case None => None
      case Some((v, rest)) => if key == "" then None else Some(((key, v), rest))
  }

  /** The settings in the order in which they are read. */
  function Settings(s: string): Option<seq<Setting>>
    decreases |s|
  {
    if s == [] then Some([])
    else
      match First(s)
      case None => None
      case Some((p, rest)) =>
        match Settings(rest)
        case None => None
        case Some(more) => Some([p] + more)
  }

  // ---------- the round trip ----------

  predicate IsPlain(v: string) {
    forall i :: 0 <= i < |v| ==> !IsSpace(v[i]) && v[i] != '\\'
  }

  predicate Clean(v: string) {
    v != "" && v[0] != '\'' && IsPlain(v)
  }

  predicate IsKeyword(k: string) {
    k != "" && forall i :: 0 <= i < |k| ==> !IsSpace(k[i]) && k[i] != '='
  }

  lemma {:induction false} PlainClean(v: string, rest: string)
    requires IsPlain(v)
    ensures Plain(v + " " + rest) == Some((v, rest))
    ensures Plain(v) == Some((v, ""))
  {
    if v == "" {
      assert v + " " + rest == " " + rest;
      assert (" " + rest)[1..] == rest;
    } else {
      PlainClean(v[1..], rest);
      assert (v + " " + rest)[1..] == v[1..] + " " + rest;
      assert [v[0]] + v[1..] == v;
    }
  }

  lemma {:induction false} EqualsAfter(k: string, t: string)
    requires '=' !in k
    ensures EqualsAt(k + "=" + t) == |k|
  {
    if k == "" {
      assert k + "=" + t == "=" + t;
    } else {
      EqualsAfter(k[1..], t);
      assert (k + "=" + t)[1..] == k[1..] + "=" + t;
    }
  }

  /** How a clean setting is read, at the end of the text and before another one. */
  lemma CleanFirst(k: string, v: string, rest: string)
    requires IsKeyword(k) && Clean(v)
    ensures First(k + "=" + v) == Some(((k, v), ""))
    ensures First(k + "=" + (v + " " + rest)) == Some(((k, v), rest))
  {
    PlainClean(v, rest);
    KeyAndValue(k, v);
    KeyAndValue(k, v + " " + rest);
  }

  lemma KeyAndValue(k: string, t: string)
    requires IsKeyword(k) && t != "" && !IsSpace(t[0])
    ensures First(k + "=" + t) == if Value(t).None? then None else Some(((k, Value(t).value.0), Value(t).value.1))
  {
    EqualsAfter(k, t);
    var s := k + "=" + t;
    assert s[..|k|] == k && s[|k| + 1..] == t;
  }

  lemma {:induction false} PrintedParses(ps: seq<Setting>)
    requires forall p :: p in ps ==> IsKeyword(p.0) && Clean(p.1)
    ensures Settings(Print(ps)) == Some(ps)
  {
    if ps != [] {
      var p := ps[0];
      assert p in ps;
      PrintedFirst(p, ps[1..]);
      assert ps == [p] + ps[1..];
      PrintedParses(ps[1..]);
    }
  }

  lemma PrintedFirst(p: Setting, ps: seq<Setting>)
    requires IsKeyword(p.0) && Clean(p.1)
    ensures First(Print([p] + ps)) == Some((p, Print(ps)))
  {
    CleanFirst(p.0, p.1, Print(ps));
    assert ([p] + ps)[1..] == ps;
    if ps == [] {
      assert Print([p]) == p.0 + "=" + p.1 + "";
      assert p.0 + "=" + p.1 + "" == p.0 + "=" + p.1;
    } else {
      assert p.0 + "=" + p.1 + (" " + Print(ps)) == p.0 + "=" + (p.1 + " " + Print(ps));
    }
  }

  /** The length of the shortest text that can hold these settings. */
  function Length(ps: seq<Setting>): nat {
    if ps == [] then 0
    else |ps[0].0| + 1 + |ps[0].1| + (if |ps| == 1 then 0 else 1) + Length(ps[1..])
  }

  lemma {:induction false} PrintedLength(ps: seq<Setting>)
    ensures |Print(ps)| == Length(ps)
  {
    if ps != [] {
      PrintedLength(ps[1..]);
    }
  }

  /** A plain value that is not the last one costs a separator, and more unless it holds nothing special. */
  lemma {:induction false} PlainCost(t: string)
    requires Plain(t).Some? && Plain(t).value.1 != ""
    ensures var r := Plain(t).value;
            && |r.0| + 1 + |r.1| <= |t|
            && (|r.0| + 1 + |r.1| == |t| ==> IsPlain(r.0) && (r.0 != "" ==> r.0[0] == t[0]))
    decreases |t|
  {
    if !IsSpace(t[0]) {
      PlainCost(if t[0] == '\\' then t[2..] else t[1..]);
    }
  }

  /** Every text holds at least the characters of its settings, and a text with no more than those
      gave no value but the last anything to trim, unquote or unescape. */
  lemma {:induction false} ParseCost(s: string)
    requires Settings(s).Some?
    ensures var ps := Settings(s).value;
            && Length(ps) <= |s|
            && (Length(ps) == |s| ==> forall i :: 0 <= i < |ps| - 1 ==> Clean(ps[i].1))
    decreases |s|
  {
    if s != [] {
      var ps := Settings(s).value;
      var e := EqualsAt(s);
      var t := TrimLeft(s[e + 1..]);
      var (v, rest) := Value(t).value;
      ParseCost(rest);
      assert ps[1..] == Settings(rest).value;
      if rest != "" && t[0] != '\'' {
        PlainCost(t);
      }
      if Length(ps) == |s| {
        forall i | 0 <= i < |ps| - 1
          ensures Clean(ps[i].1)
        {
          if i > 0 {
            assert ps[i] == ps[1..][i - 1];
          }
        }
      }
    }
  }

  lemma PrintIsClean(n: int)
    ensures Clean(PrintInt(n))
  {
    var s := PrintInt(n);
    forall i | 0 <= i < |s|
      ensures s[i] == '-' || '0' <= s[i] <= '9'
    {
      assert s[i] in s;
    }
  }

  function ParseNat(s: string): Option<int> {
    if s == "" then Some(0)
    else match ParseNat(s[..|s| - 1])
      case None => None
      case Some(n) =>
        var c := s[|s| - 1];
        if '0' <= c <= '9' then Some(n * 10 + c as int - '0' as int) else None
  }

  function ParseInt(s: string): Option<int> {
    if s != "" && s[0] == '-' then
      match ParseNat(s[1..])
      case None => None
      case Some(n) => Some(-n)
    else ParseNat(s)
  }

  lemma {:induction false} NatRoundTrip(n: nat)
    ensures ParseNat(PrintNat(n)) == Some(n)
  {
    var s := PrintNat(n);
    if n < 10 {
      assert s[..|s| - 1] == "";
      assert ParseNat("") == Some(0);
    } else {
      NatRoundTrip(n / 10);
      assert |PrintNat(n % 10)| == 1;
      assert s[..|s| - 1] == PrintNat(n / 10);
    }
  }

  lemma IntRoundTrip(n: int)
    ensures ParseInt(PrintInt(n)) == Some(n)
  {
    if n < 0 {
      NatRoundTrip(-n);
      assert PrintInt(n)[1..] == PrintNat(-n);
    } else {
      NatRoundTrip(n);
      assert PrintInt(n)[0] in PrintInt(n);
    }
  }

  /** What the six settings hold; only four of them come from strings of the user's. */
  lemma SixAre(cfg: ConnectConfig)
    ensures var ps := SixSettings(cfg);
            && |ps| == 6 && (forall p :: p in ps ==> IsKeyword(p.0))
            && ps[0].1 == cfg.host && ps[1].1 == PrintInt(cfg.port) && ps[2].1 == cfg.database
            && ps[3].1 == cfg.username && ps[4].1 == cfg.password && Clean(ps[1].1) && Clean(ps[5].1)
  {
    hide PrintInt;
    PrintIsClean(cfg.port);
  }

  lemma AllClean(cfg: ConnectConfig)
    requires Clean(cfg.host) && Clean(cfg.database) && Clean(cfg.username) && Clean(cfg.password)
    ensures forall p :: p in SixSettings(cfg) ==> IsKeyword(p.0) && Clean(p.1)
  {
    hide Clean, IsKeyword, PrintInt, SixSettings;
    var ps := SixSettings(cfg);
    SixAre(cfg);
    assert forall p :: p in ps ==> p == ps[0] || p == ps[1] || p == ps[2] || p == ps[3] || p == ps[4] || p == ps[5];
  }

  /** The printed connection string gives back exactly its six settings, in order, if and only if host,
      database, user name and password are nonempty, hold no white space or backslash and do not start with
      a single quote. The port survives whatever its value. */
  lemma RoundTrip(cfg: ConnectConfig)
    ensures Settings(ConnStr(cfg)) == Some(SixSettings(cfg)) <==>
            Clean(cfg.host) && Clean(cfg.database) && Clean(cfg.username) && Clean(cfg.password)
    ensures ParseInt(SixSettings(cfg)[1].1) == Some(cfg.port)
  {
    hide Print, PrintInt, ParseInt, Settings, ConnStr, SixSettings, Clean, IsKeyword, Length;
    var ps := SixSettings(cfg);
    PrintsSix(cfg);
    SixAre(cfg);
    IntRoundTrip(cfg.port);
    if Clean(cfg.host) && Clean(cfg.database) && Clean(cfg.username) && Clean(cfg.password) {
      AllClean(cfg);
      PrintedParses(ps);
    }
    if Settings(ConnStr(cfg)) == Some(ps) {
      PrintedLength(ps);
      ParseCost(ConnStr(cfg));
      assert Clean(ps[0].1) && Clean(ps[2].1) && Clean(ps[3].1) && Clean(ps[4].1);
    }
  }

  lemma PrintNext(done: string, p: Setting, ps: seq<Setting>)
    requires ps != []
    ensures done + Print([p] + ps) == done + p.0 + "=" + p.1 + " " + Print(ps)
  {
    assert ([p] + ps)[1..] == ps;
  }

  lemma Joins(done: string, key: string, value: string)
    ensures done + " " + key + "=" + value == done + (" " + key + "=") + value
  {
  }

  lemma Keywords()
    ensures " " + "port" + "=" == " port="
    ensures " " + "dbname" + "=" == " dbname="
    ensures " " + "user" + "=" == " user="
    ensures " " + "password" + "=" == " password="
  {
  }

  lemma PrintedHost(host: string, ps: seq<Setting>)
    requires ps != []
    ensures Print([("host", host)] + ps) == "host=" + host + " " + Print(ps)
  {
    PrintNext("", ("host", host), ps);
    assert "" + "host" + "=" == "host=";
    assert "" + Print([("host", host)] + ps) == Print([("host", host)] + ps);
  }

  lemma PrintedMode(done: string)
    ensures done + " " + Print([("sslmode", "disable")]) == done + " sslmode=disable"
  {
    assert Print([("sslmode", "disable")]) == "sslmode" + "=" + "disable" + "";
    assert " " + ("sslmode" + "=" + "disable" + "") == " sslmode=disable";
    assert done + " " + ("sslmode" + "=" + "disable" + "") == done + (" " + ("sslmode" + "=" + "disable" + ""));
  }

  lemma PrintsSix(cfg: ConnectConfig)
    ensures ConnStr(cfg) == Print(SixSettings(cfg))
  {
    var ps := SixSettings(cfg);
    var port := PrintInt(cfg.port);
    Keywords();
    PrintedHost(cfg.host, ps[1..]);
    assert ps == [("host", cfg.host)] + ps[1..];
    var s0 := "host=" + cfg.host;
    PrintsAnother(s0, ps, 1, " port=");
    var s1 := s0 + " port=" + port;
    PrintsAnother(s1, ps, 2, " dbname=");
    var s2 := s1 + " dbname=" + cfg.database;
    PrintsAnother(s2, ps, 3, " user=");
    var s3 := s2 + " user=" + cfg.username;
    PrintsAnother(s3, ps, 4, " password=");
    PrintedMode(s3 + " password=" + cfg.password);
    assert ps[5..] == [("sslmode", "disable")];
  }

  lemma PrintsAnother(done: string, ps: seq<Setting>, i: nat, keyword: string)
    requires i + 1 < |ps|
    requires " " + ps[i].0 + "=" == keyword
    ensures done + " " + Print(ps[i..]) == done + keyword + ps[i].1 + " " + Print(ps[i + 1..])
  {
    PrintNext(done + " ", ps[i], ps[i + 1..]);
    assert ps[i..] == [ps[i]] + ps[i + 1..];
    Joins(done, ps[i].0, ps[i].1);
  }
}
