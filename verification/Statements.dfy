/** What single statements and sequences of them leave on the server. */
module Statements {
  import opened Base
  import opened Postgres

  predicate IsGrant(stmt: Stmt) {
    stmt.GrantOnDatabase? || stmt.GrantOnTables? || stmt.GrantDefaults? || stmt.GrantOnSchema?
  }

  predicate IsRevoke(stmt: Stmt) {
    stmt.RevokeOnDatabase? || stmt.RevokeOnTables? || stmt.RevokeDefaults? || stmt.RevokeOnSchema?
  }

  predicate SameDirection(a: Stmt, b: Stmt) {
    (IsGrant(a) && IsGrant(b)) || (IsRevoke(a) && IsRevoke(b))
  }

  /** The statement would succeed and change nothing. */
  predicate Absorbed(s: Server, c: Conn, stmt: Stmt) {
    Exec(s, c, stmt) == Some(s)
  }

  /** What a grant or revoke has established, in terms of single entries. */
  predicate Established(s: Server, c: Conn, stmt: Stmt) {
    && c.database in s.databases
    && match stmt
       case GrantOnDatabase(ws, d, r) =>
         && d in s.databases && r in s.roles && Meaning(ws, OnDatabase).Some?
         && Entries(r, Meaning(ws, OnDatabase).value) <= s.databases[d].acl
       case RevokeOnDatabase(ws, d, r) =>
         && d in s.databases && r in s.roles && Meaning(ws, OnDatabase).Some?
         && Entries(r, Meaning(ws, OnDatabase).value) !! s.databases[d].acl
       case GrantOnTables(ws, n, r) =>
         && HasSchema(s, c.database, n) && r in s.roles && Meaning(ws, OnTables).Some?
         && forall t :: t in SchemaAt(s, c.database, n).tables ==>
              Entries(r, Meaning(ws, OnTables).value) <= SchemaAt(s, c.database, n).tables[t].acl
       case RevokeOnTables(ws, n, r) =>
         && HasSchema(s, c.database, n) && r in s.roles && Meaning(ws, OnTables).Some?
         && forall t :: t in SchemaAt(s, c.database, n).tables ==>
              Entries(r, Meaning(ws, OnTables).value) !! SchemaAt(s, c.database, n).tables[t].acl
       case GrantDefaults(ws, n, r) =>
         && HasSchema(s, c.database, n) && r in s.roles && Meaning(ws, OnTables).Some?
         && Entries(r, Meaning(ws, OnTables).value) <= SchemaAt(s, c.database, n).defaults
       case RevokeDefaults(ws, n, r) =>
         && HasSchema(s, c.database, n) && r in s.roles && Meaning(ws, OnTables).Some?
         && Entries(r, Meaning(ws, OnTables).value) !! SchemaAt(s, c.database, n).defaults
       case GrantOnSchema(p, n, r) =>
         && HasSchema(s, c.database, n) && r in s.roles && p in Valid(OnSchema)
         && (r, p) in SchemaAt(s, c.database, n).acl
       case RevokeOnSchema(p, n, r) =>
         && HasSchema(s, c.database, n) && r in s.roles && p in Valid(OnSchema)
         && (r, p) !in SchemaAt(s, c.database, n).acl
       case _ => false
  }

  lemma SameSchema(s: Server, d: Name, n: Name)
    requires HasSchema(s, d, n)
    ensures WithSchema(s, d, n, SchemaAt(s, d, n)) == s
  {
    var db := s.databases[d];
    assert db.schemas[n := db.schemas[n]] == db.schemas;
    assert s.databases[d := db] == s.databases;
  }

  lemma EstablishedIsAbsorbed(s: Server, c: Conn, stmt: Stmt)
    requires Established(s, c, stmt)
    ensures Absorbed(s, c, stmt)
  {
    if stmt.GrantOnDatabase? || stmt.RevokeOnDatabase? {
      var db := s.databases[stmt.database];
      var e := Entries(stmt.role, Meaning(stmt.privs, OnDatabase).value);
      assert stmt.GrantOnDatabase? ==> db.acl + e == db.acl;
      assert stmt.RevokeOnDatabase? ==> db.acl - e == db.acl;
      assert s.databases[stmt.database := db] == s.databases;
    } else {
      var n := stmt.schema;
      SameSchema(s, c.database, n);
      var x := SchemaAt(s, c.database, n);
      if stmt.GrantOnTables? {
        var e := Entries(stmt.role, Meaning(stmt.privs, OnTables).value);
        assert forall t :: t in x.tables ==> x.tables[t].(acl := x.tables[t].acl + e) == x.tables[t];
        assert GrantTables(x, e).tables == x.tables;
      } else if stmt.RevokeOnTables? {
        var e := Entries(stmt.role, Meaning(stmt.privs, OnTables).value);
        assert forall t :: t in x.tables ==> x.tables[t].(acl := x.tables[t].acl - e) == x.tables[t];
        assert RevokeTables(x, e).tables == x.tables;
      } else if stmt.GrantDefaults? || stmt.RevokeDefaults? {
        var e := Entries(stmt.role, Meaning(stmt.privs, OnTables).value);
        assert stmt.GrantDefaults? ==> x.defaults + e == x.defaults;
        assert stmt.RevokeDefaults? ==> x.defaults - e == x.defaults;
      } else {
        assert stmt.GrantOnSchema? ==> x.acl + {(stmt.role, stmt.priv)} == x.acl;
        assert stmt.RevokeOnSchema? ==> x.acl - {(stmt.role, stmt.priv)} == x.acl;
      }
    }
  }

  lemma ExecEstablishes(s: Server, c: Conn, stmt: Stmt)
    requires (IsGrant(stmt) || IsRevoke(stmt)) && Exec(s, c, stmt).Some?
    ensures Established(Exec(s, c, stmt).value, c, stmt)
  {
  }

  predicate SchemaWithin(x: Schema, y: Schema) {
    && x.acl <= y.acl && x.defaults <= y.defaults && x.tables.Keys == y.tables.Keys
    && forall t :: t in x.tables ==> x.tables[t].acl <= y.tables[t].acl
  }

  predicate DatabaseWithin(x: Database, y: Database) {
    && x.acl <= y.acl && x.schemas.Keys == y.schemas.Keys
    && forall n :: n in x.schemas ==> SchemaWithin(x.schemas[n], y.schemas[n])
  }

  /** The same roles and objects, and every list of s within that of u. */
  predicate Within(s: Server, u: Server) {
    && s.roles == u.roles && s.databases.Keys == u.databases.Keys
    && forall d :: d in s.databases ==> DatabaseWithin(s.databases[d], u.databases[d])
  }

  lemma GrantRaises(s: Server, c: Conn, stmt: Stmt)
    requires IsGrant(stmt) && Exec(s, c, stmt).Some?
    ensures Within(s, Exec(s, c, stmt).value)
  {
  }

  lemma RevokeLowers(s: Server, c: Conn, stmt: Stmt)
    requires IsRevoke(stmt) && Exec(s, c, stmt).Some?
    ensures Within(Exec(s, c, stmt).value, s)
  {
  }

  lemma GrantStays(s: Server, u: Server, c: Conn, stmt: Stmt)
    requires IsGrant(stmt) && Established(s, c, stmt) && Within(s, u)
    ensures Established(u, c, stmt)
  {
    if stmt.GrantOnTables? {
      var (x, y) := (SchemaAt(s, c.database, stmt.schema), SchemaAt(u, c.database, stmt.schema));
      assert SchemaWithin(x, y);
    }
  }

  lemma RevokeStays(s: Server, u: Server, c: Conn, stmt: Stmt)
    requires IsRevoke(stmt) && Established(s, c, stmt) && Within(u, s)
    ensures Established(u, c, stmt)
  {
    if stmt.RevokeOnTables? {
      var (x, y) := (SchemaAt(s, c.database, stmt.schema), SchemaAt(u, c.database, stmt.schema));
      assert SchemaWithin(y, x);
    }
  }

  lemma DirectionKeeps(s: Server, c: Conn, a: Stmt, b: Stmt)
    requires Established(s, c, a) && SameDirection(a, b) && Exec(s, c, b).Some?
    ensures Established(Exec(s, c, b).value, c, a)
  {
    var u := Exec(s, c, b).value;
    if IsGrant(a) {
      GrantRaises(s, c, b);
      GrantStays(s, u, c, a);
    } else {
      RevokeLowers(s, c, b);
      RevokeStays(s, u, c, a);
    }
  }

  /** Running a sequence of grants, or of revokes, again ends in the same state with the same outcome, whether it
      went through or stopped at an error. */
  lemma {:induction false} RunTwice(s: Server, c: Conn, stmts: seq<Stmt>, done: seq<Stmt>)
    requires forall a, b :: a in stmts + done && b in stmts + done ==> SameDirection(a, b)
    requires forall a :: a in done ==> Established(s, c, a)
    ensures var (u, ok) := RunAll(s, c, stmts);
            && (forall a :: a in done ==> Established(u, c, a))
            && RunAll(u, c, stmts) == (u, ok)
    decreases |stmts|
  {
    if stmts != [] {
      var r := Exec(s, c, stmts[0]);
      assert stmts[0] in stmts + done;
      if r.Some? {
        var s' := r.value;
        ExecEstablishes(s, c, stmts[0]);
        forall a | a in [stmts[0]] + done
          ensures Established(s', c, a)
        {
          if a in done {
            assert a in stmts + done;
            DirectionKeeps(s, c, a, stmts[0]);
          }
        }
        assert forall a :: a in stmts[1..] + ([stmts[0]] + done) ==> a in stmts + done;
        RunTwice(s', c, stmts[1..], [stmts[0]] + done);
        var u := RunAll(s', c, stmts[1..]).0;
        assert stmts[0] in [stmts[0]] + done;
        EstablishedIsAbsorbed(u, c, stmts[0]);
      }
    }
  }

  lemma RunOne(s: Server, c: Conn, stmt: Stmt)
    ensures RunAll(s, c, [stmt]) ==
            if Exec(s, c, stmt).Some? then (Exec(s, c, stmt).value, true) else (s, false)
    ensures RunAll(s, c, []) == (s, true)
  {
    var r := Exec(s, c, stmt);
    if r.Some? {
      assert RunAll(r.value, c, [stmt][1..]) == (r.value, true);
    }
  }

  lemma {:induction false} RunKeepsSession(s: Server, c: Conn, stmts: seq<Stmt>)
    requires c.database in s.databases
    ensures c.database in RunAll(s, c, stmts).0.databases
    decreases |stmts|
  {
    if stmts != [] && Exec(s, c, stmts[0]).Some? {
      RunKeepsSession(Exec(s, c, stmts[0]).value, c, stmts[1..]);
    }
  }

  // ---------- what holds a role ----------

  /** The role has USAGE on schema n of database d. */
  predicate HoldsUsage(s: Server, r: Name, d: Name, n: Name) {
    r in s.roles && HasSchema(s, d, n) && (r, Usage) in SchemaAt(s, d, n).acl
  }

  lemma UsageBlocksDrop(s: Server, r: Name, d: Name, n: Name, c: Conn)
    requires HoldsUsage(s, r, d, n)
    ensures HasDependents(s, r) && Exec(s, c, DropRole(r)).None?
  {
    assert (r, Usage) in SchemaAt(s, d, n).acl;
    assert InSchema(r, s.databases[d].schemas[n]);
    assert InDatabase(r, s.databases[d]);
  }

  lemma UsageStaysOtherwise(s: Server, r: Name, d: Name, n: Name, c: Conn, stmt: Stmt)
    requires HoldsUsage(s, r, d, n) && Exec(s, c, stmt).Some? && !IsGrant(stmt) && !IsRevoke(stmt)
    requires stmt != DropDatabase(d) && stmt != DropRole(r)
    ensures HoldsUsage(Exec(s, c, stmt).value, r, d, n)
  {
  }

  lemma UsageStaysWithin(s: Server, u: Server, r: Name, d: Name, n: Name)
    requires HoldsUsage(s, r, d, n) && Within(s, u)
    ensures HoldsUsage(u, r, d, n)
  {
    assert SchemaWithin(SchemaAt(s, d, n), SchemaAt(u, d, n));
  }

  lemma UsageStaysRevoke(s: Server, r: Name, d: Name, n: Name, c: Conn, stmt: Stmt)
    requires HoldsUsage(s, r, d, n) && Exec(s, c, stmt).Some?
    requires IsRevoke(stmt) && !(stmt.RevokeOnSchema? && stmt.priv == Usage)
    ensures HoldsUsage(Exec(s, c, stmt).value, r, d, n)
  {
  }

  /** Only dropping the database or revoking USAGE takes it away, and the role with it. */
  lemma UsageStays(s: Server, r: Name, d: Name, n: Name, c: Conn, stmt: Stmt)
    requires HoldsUsage(s, r, d, n) && Exec(s, c, stmt).Some?
    requires stmt != DropDatabase(d) && !(stmt.RevokeOnSchema? && stmt.priv == Usage)
    ensures HoldsUsage(Exec(s, c, stmt).value, r, d, n)
  {
    UsageBlocksDrop(s, r, d, n, c);
    if IsGrant(stmt) {
      GrantRaises(s, c, stmt);
      UsageStaysWithin(s, Exec(s, c, stmt).value, r, d, n);
    } else if IsRevoke(stmt) {
      UsageStaysRevoke(s, r, d, n, c, stmt);
    } else {
      UsageStaysOtherwise(s, r, d, n, c, stmt);
    }
  }
}
