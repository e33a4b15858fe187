/** The statement sequences of internal/sql/grant.go and what they leave behind. */
module Grants {
  import opened Base
  import opened Postgres
  import Statements

  datatype GrantOpts = GrantOpts(privileges: seq<Word>, database: Name, schema: Name, role: Name)

  function GrantStmts(g: GrantOpts): seq<Stmt> {
    [GrantOnDatabase(g.privileges, g.database, g.role),
     GrantOnTables(g.privileges, g.schema, g.role),
     GrantDefaults(g.privileges, g.schema, g.role),
     GrantOnSchema(Usage, g.schema, g.role),
     GrantOnSchema(Create, g.schema, g.role)]
  }

  function RevokeStmts(g: GrantOpts): seq<Stmt> {
    [RevokeDefaults(g.privileges, g.schema, g.role),
     RevokeOnTables(g.privileges, g.schema, g.role),
     RevokeOnSchema(Create, g.schema, g.role),
     RevokeOnDatabase(g.privileges, g.database, g.role)]
  }

  /** Everything the five or the four statements need from a session on the target database. */
  predicate Applicable(s: Server, g: GrantOpts) {
    IsAll(g.privileges) && g.role in s.roles && HasSchema(s, g.database, g.schema)
  }

  // ---------- only ALL ----------

  /** A list is valid both for databases and for tables only if it is a single ALL or ALL PRIVILEGES. */
  lemma OnlyAllFitsBoth(ws: seq<Word>)
    ensures Meaning(ws, OnDatabase).Some? && Meaning(ws, OnTables).Some? <==> IsAll(ws)
  {
    assert ws != [] ==> ws[0] in ws;
  }

  // ---------- the part of the server a grant touches ----------

  datatype View = View(acl: Acl, x: Schema)

  function Look(s: Server, g: GrantOpts): View
    requires HasSchema(s, g.database, g.schema)
  {
    View(s.databases[g.database].acl, SchemaAt(s, g.database, g.schema))
  }

  function Put(s: Server, g: GrantOpts, v: View): Server
    requires HasSchema(s, g.database, g.schema)
  {
    var db := s.databases[g.database];
    WithDatabase(s, g.database, db.(acl := v.acl, schemas := db.schemas[g.schema := v.x]))
  }

  predicate Ours(g: GrantOpts, stmt: Stmt) {
    stmt in GrantStmts(g) || stmt in RevokeStmts(g)
  }

  /** A statement's effect when its list is ALL. */
  function Effect(g: GrantOpts, stmt: Stmt, v: View): View {
    var onTables := Entries(g.role, Valid(OnTables));
    match stmt
    case GrantOnDatabase(_, _, _) => v.(acl := v.acl + Entries(g.role, Valid(OnDatabase)))
    case RevokeOnDatabase(_, _, _) => v.(acl := v.acl - Entries(g.role, Valid(OnDatabase)))
    case GrantOnTables(_, _, _) => v.(x := GrantTables(v.x, onTables))
    case RevokeOnTables(_, _, _) => v.(x := RevokeTables(v.x, onTables))
    case GrantDefaults(_, _, _) => v.(x := v.x.(defaults := v.x.defaults + onTables))
    case RevokeDefaults(_, _, _) => v.(x := v.x.(defaults := v.x.defaults - onTables))
    case GrantOnSchema(p, _, _) => v.(x := v.x.(acl := v.x.acl + {(g.role, p)}))
    case RevokeOnSchema(p, _, _) => v.(x := v.x.(acl := v.x.acl - {(g.role, p)}))
    case _ => v
  }

  function Effects(g: GrantOpts, stmts: seq<Stmt>, v: View): View
    decreases |stmts|
  {
    if stmts == [] then v else Effects(g, stmts[1..], Effect(g, stmts[0], v))
  }

  lemma LookPut(s: Server, g: GrantOpts)
    requires HasSchema(s, g.database, g.schema)
    ensures Put(s, g, Look(s, g)) == s
  {
    var db := s.databases[g.database];
    assert db.schemas[g.schema := db.schemas[g.schema]] == db.schemas;
    assert s.databases[g.database := db] == s.databases;
  }

  lemma ExecOurs(s: Server, g: GrantOpts, stmt: Stmt, v: View)
    requires Applicable(s, g) && Ours(g, stmt)
    ensures Exec(Put(s, g, v), Conn(g.database), stmt) == Some(Put(s, g, Effect(g, stmt, v)))
  {
    var t := Put(s, g, v);
    var db := t.databases[g.database];
    var v' := Effect(g, stmt, v);
    assert s.databases[g.database].schemas[g.schema := v.x][g.schema := v'.x] == s.databases[g.database].schemas[g.schema := v'.x];
    assert s.databases[g.database := db][g.database := Put(s, g, v').databases[g.database]]
        == s.databases[g.database := Put(s, g, v').databases[g.database]];
  }

  lemma {:induction false} RunAllOurs(s: Server, g: GrantOpts, stmts: seq<Stmt>, v: View)
    requires Applicable(s, g) && forall stmt :: stmt in stmts ==> Ours(g, stmt)
    ensures RunAll(Put(s, g, v), Conn(g.database), stmts) == (Put(s, g, Effects(g, stmts, v)), true)
    decreases |stmts|
  {
    if stmts != [] {
      assert stmts[0] in stmts;
      ExecOurs(s, g, stmts[0], v);
      RunAllOurs(s, g, stmts[1..], Effect(g, stmts[0], v));
    }
  }

  /** What a statement that succeeds has found, and what it leaves for the next one. */
  lemma Succeeded(s: Server, g: GrantOpts, stmt: Stmt, s': Server)
    requires Ours(g, stmt) && Exec(s, Conn(g.database), stmt) == Some(s')
    ensures g.role in s.roles && s'.roles == s.roles
    ensures HasSchema(s', g.database, g.schema) == HasSchema(s, g.database, g.schema)
    ensures stmt.GrantOnDatabase? || stmt.RevokeOnDatabase? ==> Meaning(g.privileges, OnDatabase).Some?
    ensures stmt.GrantOnTables? || stmt.RevokeOnTables? ==>
              Meaning(g.privileges, OnTables).Some? && HasSchema(s, g.database, g.schema)
  {
  }

  /** A list that gets through a database statement and a table statement is ALL; no statement brings in the
      role or the schema. */
  lemma {:induction false} NeedsApplicable(s: Server, g: GrantOpts, stmts: seq<Stmt>)
    requires RunAll(s, Conn(g.database), stmts).1
    requires forall stmt :: stmt in stmts ==> Ours(g, stmt)
    ensures forall stmt :: stmt in stmts ==> g.role in s.roles
    ensures forall stmt :: stmt in stmts && (stmt.GrantOnDatabase? || stmt.RevokeOnDatabase?) ==> Meaning(g.privileges, OnDatabase).Some?
    ensures forall stmt :: stmt in stmts && (stmt.GrantOnTables? || stmt.RevokeOnTables?) ==>
              Meaning(g.privileges, OnTables).Some? && HasSchema(s, g.database, g.schema)
    decreases |stmts|
  {
    if stmts != [] {
      assert stmts[0] in stmts;
      var s1 := Exec(s, Conn(g.database), stmts[0]).value;
      Succeeded(s, g, stmts[0], s1);
      NeedsApplicable(s1, g, stmts[1..]);
      assert forall stmt :: stmt in stmts ==> stmt == stmts[0] || stmt in stmts[1..];
    }
  }

  lemma NeedsAll(s: Server, g: GrantOpts, stmts: seq<Stmt>)
    requires stmts == GrantStmts(g) || stmts == RevokeStmts(g)
    requires forall stmt :: stmt in stmts ==> g.role in s.roles
    requires forall stmt :: stmt in stmts && (stmt.GrantOnDatabase? || stmt.RevokeOnDatabase?) ==> Meaning(g.privileges, OnDatabase).Some?
    requires forall stmt :: stmt in stmts && (stmt.GrantOnTables? || stmt.RevokeOnTables?) ==>
               Meaning(g.privileges, OnTables).Some? && HasSchema(s, g.database, g.schema)
    ensures Applicable(s, g)
  {
    assert stmts[0] in stmts && stmts[1] in stmts && stmts[|stmts| - 1] in stmts;
    OnlyAllFitsBoth(g.privileges);
  }

  lemma Completed(s: Server, g: GrantOpts, stmts: seq<Stmt>)
    requires stmts == GrantStmts(g) || stmts == RevokeStmts(g)
    requires RunAll(s, Conn(g.database), stmts).1
    ensures Applicable(s, g)
  {
    NeedsApplicable(s, g, stmts);
    NeedsAll(s, g, stmts);
  }

  /** GrantPrivileges returns nil exactly for a single ALL on an existing role, database and schema. */
  lemma GrantSucceedsExactly(s: Server, g: GrantOpts)
    ensures RunAll(s, Conn(g.database), GrantStmts(g)).1 <==> Applicable(s, g)
    ensures Applicable(s, g) ==> RunAll(s, Conn(g.database), GrantStmts(g)) == (Granted(s, g), true)
  {
    if Applicable(s, g) {
      LookPut(s, g);
      RunAllOurs(s, g, GrantStmts(g), Look(s, g));
    } else if RunAll(s, Conn(g.database), GrantStmts(g)).1 {
      Completed(s, g, GrantStmts(g));
    }
  }

  /** The state a completed grant leaves. */
  function Granted(s: Server, g: GrantOpts): Server
    requires Applicable(s, g)
  {
    Put(s, g, Effects(g, GrantStmts(g), Look(s, g)))
  }

  lemma GrantEffects(g: GrantOpts, v: View)
    ensures Effects(g, GrantStmts(g), v) ==
            var all := Entries(g.role, Valid(OnTables));
            View(v.acl + Entries(g.role, Valid(OnDatabase)),
                 GrantTables(v.x, all).(defaults := v.x.defaults + all,
                                        acl := v.x.acl + {(g.role, Usage)} + {(g.role, Create)}))
  {
    var stmts := GrantStmts(g);
    var v1 := Effect(g, stmts[0], v);
    var v2 := Effect(g, stmts[1], v1);
    var v3 := Effect(g, stmts[2], v2);
    var v4 := Effect(g, stmts[3], v3);
    assert Effects(g, stmts, v) == Effects(g, stmts[1..], v1);
    assert Effects(g, stmts[1..], v1) == Effects(g, stmts[2..], v2);
    assert Effects(g, stmts[2..], v2) == Effects(g, stmts[3..], v3);
    assert Effects(g, stmts[3..], v3) == Effects(g, stmts[4..], v4);
    assert stmts[4..][1..] == [] && stmts[4..][0] == stmts[4];
    var v5 := Effect(g, stmts[4], v4);
    assert Effects(g, [], v5) == v5;
    assert Effects(g, stmts[4..], v4) == v5;
    assert v4.x.acl == v.x.acl + {(g.role, Usage)};
    assert v2.x == GrantTables(v.x, Entries(g.role, Valid(OnTables)));
    assert v5.x.tables == v2.x.tables;
  }

  lemma RevokeSucceedsExactly(s: Server, g: GrantOpts)
    ensures RunAll(s, Conn(g.database), RevokeStmts(g)).1 <==> Applicable(s, g)
    ensures Applicable(s, g) ==> RunAll(s, Conn(g.database), RevokeStmts(g)) == (Revoked(s, g), true)
  {
    if Applicable(s, g) {
      LookPut(s, g);
      RunAllOurs(s, g, RevokeStmts(g), Look(s, g));
    } else if RunAll(s, Conn(g.database), RevokeStmts(g)).1 {
      Completed(s, g, RevokeStmts(g));
    }
  }

  function Revoked(s: Server, g: GrantOpts): Server
    requires Applicable(s, g)
  {
    Put(s, g, Effects(g, RevokeStmts(g), Look(s, g)))
  }

  lemma RevokeEffects(g: GrantOpts, v: View)
    ensures Effects(g, RevokeStmts(g), v) ==
            var all := Entries(g.role, Valid(OnTables));
            View(v.acl - Entries(g.role, Valid(OnDatabase)),
                 RevokeTables(v.x, all).(defaults := v.x.defaults - all, acl := v.x.acl - {(g.role, Create)}))
  {
    var stmts := RevokeStmts(g);
    var v1 := Effect(g, stmts[0], v);
    var v2 := Effect(g, stmts[1], v1);
    var v3 := Effect(g, stmts[2], v2);
    assert Effects(g, stmts, v) == Effects(g, stmts[1..], v1);
    assert Effects(g, stmts[1..], v1) == Effects(g, stmts[2..], v2);
    assert Effects(g, stmts[2..], v2) == Effects(g, stmts[3..], v3);
    assert stmts[3..][1..] == [] && stmts[3..][0] == stmts[3];
    var v4 := Effect(g, stmts[3], v3);
    assert Effects(g, [], v4) == v4;
    assert Effects(g, stmts[3..], v3) == v4;
    assert v2.x.tables == RevokeTables(v.x, Entries(g.role, Valid(OnTables))).tables;
  }

  // ---------- grant, then revoke ----------

  function Of(acl: Acl, r: Name): set<Priv> {
    set e | e in acl && e.0 == r :: e.1
  }

  function NotOf(acl: Acl, r: Name): Acl {
    set e | e in acl && e.0 != r
  }

  /** Grant, then revoke, from any state of the lists: nothing of the role is left on the database, the tables,
      the defaults and schema CREATE; schema USAGE is; no other role, schema or database is touched. */
  lemma GrantThenRevoke(s: Server, g: GrantOpts)
    requires WellTyped(s) && Applicable(s, g)
    ensures Applicable(Granted(s, g), g)
    ensures var u := Revoked(Granted(s, g), g);
            var (db, db') := (s.databases[g.database], u.databases[g.database]);
            var (x, y) := (db.schemas[g.schema], db'.schemas[g.schema]);
            && Of(db'.acl, g.role) == {} && Of(y.defaults, g.role) == {} && Of(y.acl, g.role) == {Usage}
            && NotOf(db'.acl, g.role) == NotOf(db.acl, g.role)
            && NotOf(y.defaults, g.role) == NotOf(x.defaults, g.role)
            && NotOf(y.acl, g.role) == NotOf(x.acl, g.role)
            && y.tables.Keys == x.tables.Keys
            && (forall t :: t in y.tables ==>
                 && Of(y.tables[t].acl, g.role) == {}
                 && NotOf(y.tables[t].acl, g.role) == NotOf(x.tables[t].acl, g.role)
                 && y.tables[t].owner == x.tables[t].owner)
            && db'.owner == db.owner && db'.schemas == db.schemas[g.schema := y]
            && u == s.(databases := s.databases[g.database := db'])
  {
    var v := Look(s, g);
    var u := Revoked(Granted(s, g), g);
    var (db, db') := (s.databases[g.database], u.databases[g.database]);
    var (x, y) := (db.schemas[g.schema], db'.schemas[g.schema]);
    GrantEffects(g, v);
    RevokeEffects(g, Effects(g, GrantStmts(g), v));
    GrantRevokeList(db.acl, g.role, OnDatabase);
    GrantRevokeList(x.defaults, g.role, OnTables);
    SchemaList(x.acl, g.role);
    assert TypedSchema(x);
    forall t | t in y.tables
      ensures Of(y.tables[t].acl, g.role) == {} && NotOf(y.tables[t].acl, g.role) == NotOf(x.tables[t].acl, g.role)
      ensures y.tables[t].owner == x.tables[t].owner
    {
      GrantRevokeList(x.tables[t].acl, g.role, OnTables);
    }
    assert db'.schemas == db.schemas[g.schema := y];
    assert u.databases == s.databases[g.database := db'];
  }

  lemma GrantRevokeList(acl: Acl, r: Name, t: Target)
    requires Typed(acl, t)
    ensures Of(acl + Entries(r, Valid(t)) - Entries(r, Valid(t)), r) == {}
    ensures NotOf(acl + Entries(r, Valid(t)) - Entries(r, Valid(t)), r) == NotOf(acl, r)
  {
  }

  lemma SchemaList(acl: Acl, r: Name)
    requires Typed(acl, OnSchema)
    ensures Of(acl + {(r, Usage)} + {(r, Create)} - {(r, Create)}, r) == {Usage}
    ensures NotOf(acl + {(r, Usage)} + {(r, Create)} - {(r, Create)}, r) == NotOf(acl, r)
  {
    var after := acl + {(r, Usage)} + {(r, Create)} - {(r, Create)};
    assert (r, Usage) in after;
    forall p | p in Of(after, r)
      ensures p == Usage
    {
      assert (r, p) in after;
    }
  }

  /** A grant gives schema USAGE, and a revoke leaves it: with it, the role cannot be dropped. */
  lemma RevokedRoleIsStuck(s: Server, g: GrantOpts, c: Conn)
    requires WellTyped(s) && Applicable(s, g)
    ensures Statements.HoldsUsage(Granted(s, g), g.role, g.database, g.schema)
    ensures Statements.HoldsUsage(Revoked(Granted(s, g), g), g.role, g.database, g.schema)
    ensures Exec(Revoked(Granted(s, g), g), c, DropRole(g.role)).None?
  {
    var u := Revoked(Granted(s, g), g);
    var y := u.databases[g.database].schemas[g.schema];
    GrantEffects(g, Look(s, g));
    GrantThenRevoke(s, g);
    assert Usage in Of(y.acl, g.role);
    assert (g.role, Usage) in y.acl;
    Statements.UsageBlocksDrop(u, g.role, g.database, g.schema, c);
  }

  // ---------- tables created between the statements ----------

  /** The superuser creates tables; a new table takes the schema's defaults. */
  function Make(x: Schema, owner: Name, ts: seq<Name>): Schema
    decreases |ts|
  {
    if ts == [] then x
    else if ts[0] in x.tables then Make(x, owner, ts[1..])
    else Make(x.(tables := x.tables[ts[0] := Table(owner, x.defaults)]), owner, ts[1..])
  }

  lemma {:induction false} Made(x: Schema, owner: Name, ts: seq<Name>)
    ensures var y := Make(x, owner, ts);
            && y.acl == x.acl && y.defaults == x.defaults
            && y.tables.Keys == x.tables.Keys + (set t | t in ts)
            && forall t :: t in y.tables ==>
                 y.tables[t] == if t in x.tables then x.tables[t] else Table(owner, x.defaults)
    decreases |ts|
  {
    if ts != [] {
      Made(if ts[0] in x.tables then x else x.(tables := x.tables[ts[0] := Table(owner, x.defaults)]), owner, ts[1..]);
    }
  }

  /** Between two statements, tables appear in schema n of the session's database. */
  function Meanwhile(s: Server, c: Conn, n: Name, ts: seq<Name>): Server {
    if HasSchema(s, c.database, n) then
      WithSchema(s, c.database, n, Make(SchemaAt(s, c.database, n), s.superuser, ts))
    else s
  }

  /** The statements run with gaps[i] created before statement i and the last gap after them. */
  function ExecWith(s: Server, c: Conn, n: Name, stmts: seq<Stmt>, gaps: seq<seq<Name>>): Option<Server>
    requires |gaps| == |stmts| + 1
    decreases |stmts|
  {
    var s1 := Meanwhile(s, c, n, gaps[0]);
    if stmts == [] then Some(s1)
    else match Exec(s1, c, stmts[0])
      case None => None
      case Some(s2) => ExecWith(s2, c, n, stmts[1..], gaps[1..])
  }

  function EffectsWith(g: GrantOpts, owner: Name, stmts: seq<Stmt>, gaps: seq<seq<Name>>, v: View): View
    requires |gaps| == |stmts| + 1
    decreases |stmts|
  {
    var v1 := v.(x := Make(v.x, owner, gaps[0]));
    if stmts == [] then v1 else EffectsWith(g, owner, stmts[1..], gaps[1..], Effect(g, stmts[0], v1))
  }

  lemma MeanwhileOurs(s: Server, g: GrantOpts, ts: seq<Name>, v: View)
    requires Applicable(s, g)
    ensures Meanwhile(Put(s, g, v), Conn(g.database), g.schema, ts)
         == Put(s, g, v.(x := Make(v.x, s.superuser, ts)))
  {
    var t := Put(s, g, v);
    var x := Make(v.x, s.superuser, ts);
    assert s.databases[g.database].schemas[g.schema := v.x][g.schema := x] == s.databases[g.database].schemas[g.schema := x];
    var db := Put(s, g, v.(x := x)).databases[g.database];
    assert s.databases[g.database := t.databases[g.database]][g.database := db] == s.databases[g.database := db];
  }

  lemma {:induction false} ExecWithOurs(s: Server, g: GrantOpts, stmts: seq<Stmt>, gaps: seq<seq<Name>>, v: View)
    requires Applicable(s, g) && |gaps| == |stmts| + 1 && forall stmt :: stmt in stmts ==> Ours(g, stmt)
    ensures ExecWith(Put(s, g, v), Conn(g.database), g.schema, stmts, gaps)
         == Some(Put(s, g, EffectsWith(g, s.superuser, stmts, gaps, v)))
    decreases |stmts|
  {
    MeanwhileOurs(s, g, gaps[0], v);
    if stmts != [] {
      var v1 := v.(x := Make(v.x, s.superuser, gaps[0]));
      assert stmts[0] in stmts;
      ExecOurs(s, g, stmts[0], v1);
      ExecWithOurs(s, g, stmts[1..], gaps[1..], Effect(g, stmts[0], v1));
    }
  }

  /** The same with tables created meanwhile. */
  lemma {:induction false} NeedsApplicableWith(s: Server, g: GrantOpts, stmts: seq<Stmt>, gaps: seq<seq<Name>>)
    requires |gaps| == |stmts| + 1
    requires ExecWith(s, Conn(g.database), g.schema, stmts, gaps).Some?
    requires forall stmt :: stmt in stmts ==> Ours(g, stmt)
    ensures forall stmt :: stmt in stmts ==> g.role in s.roles
    ensures forall stmt :: stmt in stmts && (stmt.GrantOnDatabase? || stmt.RevokeOnDatabase?) ==> Meaning(g.privileges, OnDatabase).Some?
    ensures forall stmt :: stmt in stmts && (stmt.GrantOnTables? || stmt.RevokeOnTables?) ==>
              Meaning(g.privileges, OnTables).Some? && HasSchema(s, g.database, g.schema)
    decreases |stmts|
  {
    if stmts != [] {
      assert stmts[0] in stmts;
      var s1 := Meanwhile(s, Conn(g.database), g.schema, gaps[0]);
      var s2 := Exec(s1, Conn(g.database), stmts[0]).value;
      Succeeded(s1, g, stmts[0], s2);
      NeedsApplicableWith(s2, g, stmts[1..], gaps[1..]);
      assert forall stmt :: stmt in stmts ==> stmt == stmts[0] || stmt in stmts[1..];
    }
  }

  lemma CompletedWith(s: Server, g: GrantOpts, stmts: seq<Stmt>, gaps: seq<seq<Name>>)
    requires |gaps| == |stmts| + 1
    requires stmts == GrantStmts(g) || stmts == RevokeStmts(g)
    requires ExecWith(s, Conn(g.database), g.schema, stmts, gaps).Some?
    ensures Applicable(s, g)
    ensures ExecWith(s, Conn(g.database), g.schema, stmts, gaps)
         == Some(Put(s, g, EffectsWith(g, s.superuser, stmts, gaps, Look(s, g))))
  {
    NeedsApplicableWith(s, g, stmts, gaps);
    NeedsAll(s, g, stmts);
    LookPut(s, g);
    ExecWithOurs(s, g, stmts, gaps, Look(s, g));
  }

  predicate Covers(acl: Acl, r: Name) {
    Entries(r, Valid(OnTables)) <= acl
  }

  /** Up to the second statement: every table so far is covered, the defaults are the old ones. */
  lemma CoveredSoFar(x: Schema, owner: Name, r: Name, a: seq<Name>, b: seq<Name>, y: Schema)
    requires y == GrantTables(Make(Make(x, owner, a), owner, b), Entries(r, Valid(OnTables)))
    ensures y.defaults == x.defaults
    ensures forall t :: t in y.tables <==> t in x.tables || t in a || t in b
    ensures forall t :: t in y.tables ==> Covers(y.tables[t].acl, r)
  {
    Made(x, owner, a);
    Made(Make(x, owner, a), owner, b);
  }

  /** From the third statement on: new tables are covered by the defaults, old ones stay as they are. */
  lemma CoveredFromNow(x: Schema, owner: Name, r: Name, d: seq<Name>, e: seq<Name>, f: seq<Name>, p: Acl, q: Acl)
    requires Covers(x.defaults, r)
    ensures var y := Make(Make(Make(x, owner, d).(acl := p), owner, e).(acl := q), owner, f);
            && y.defaults == x.defaults
            && (forall t :: t in y.tables <==> t in x.tables || t in d || t in e || t in f)
            && forall t :: t in y.tables ==>
                 (Covers(y.tables[t].acl, r) <==> t !in x.tables || Covers(x.tables[t].acl, r))
  {
    var m := Make(x, owner, d).(acl := p);
    Made(x, owner, d);
    Made(m, owner, e);
    Made(Make(m, owner, e).(acl := q), owner, f);
  }

  lemma ViewCoverage(g: GrantOpts, owner: Name, gaps: seq<seq<Name>>, v: View)
    requires |gaps| == 6
    ensures var x := v.x;
            var y := EffectsWith(g, owner, GrantStmts(g), gaps, v).x;
            && Covers(y.defaults, g.role)
            && (forall t :: t in y.tables <==> t in x.tables || exists i :: 0 <= i < 6 && t in gaps[i])
            && forall t :: t in y.tables ==>
                 (!Covers(y.tables[t].acl, g.role) <==>
                  t in gaps[2] && t !in x.tables && t !in gaps[0] && t !in gaps[1] && !Covers(x.defaults, g.role))
  {
    var stmts := GrantStmts(g);
    var v2 := FirstSteps(g, owner, gaps, v);
    var v3 := GapStep(g, owner, stmts[2..], gaps[2..], v2);
    var p, q := LastSteps(g, owner, gaps, v3);
    var m := Make(v2.x, owner, gaps[2]);
    assert v3.x == m.(defaults := m.defaults + Entries(g.role, Valid(OnTables)));
    Made(v2.x, owner, gaps[2]);
    CoveredFromNow(v3.x, owner, g.role, gaps[3], gaps[4], gaps[5], p, q);
  }

  lemma FirstSteps(g: GrantOpts, owner: Name, gaps: seq<seq<Name>>, v: View) returns (v2: View)
    requires |gaps| == 6
    ensures EffectsWith(g, owner, GrantStmts(g), gaps, v) == EffectsWith(g, owner, GrantStmts(g)[2..], gaps[2..], v2)
    ensures v2.x.defaults == v.x.defaults
    ensures forall t :: t in v2.x.tables <==> t in v.x.tables || t in gaps[0] || t in gaps[1]
    ensures forall t :: t in v2.x.tables ==> Covers(v2.x.tables[t].acl, g.role)
  {
    var v1 := GapStep(g, owner, GrantStmts(g), gaps, v);
    v2 := GapStep(g, owner, GrantStmts(g)[1..], gaps[1..], v1);
    CoveredSoFar(v.x, owner, g.role, gaps[0], gaps[1], v2.x);
  }

  lemma LastSteps(g: GrantOpts, owner: Name, gaps: seq<seq<Name>>, v3: View) returns (p: Acl, q: Acl)
    requires |gaps| == 6
    ensures EffectsWith(g, owner, GrantStmts(g)[3..], gaps[3..], v3).x
         == Make(Make(Make(v3.x, owner, gaps[3]).(acl := p), owner, gaps[4]).(acl := q), owner, gaps[5])
  {
    var stmts := GrantStmts(g);
    var v4 := GapStep(g, owner, stmts[3..], gaps[3..], v3);
    var v5 := GapStep(g, owner, stmts[4..], gaps[4..], v4);
    assert stmts[4..][1..] == [] && gaps[4..][1..] == gaps[5..];
    assert EffectsWith(g, owner, [], gaps[5..], v5).x == Make(v5.x, owner, gaps[5]);
    p, q := v4.x.acl, v5.x.acl;
  }

  /** A completed grant of ALL misses exactly the tables created between the second statement (existing tables)
      and the third (default privileges), and those only if the old defaults did not cover the role. */
  lemma GrantCoverage(s: Server, g: GrantOpts, gaps: seq<seq<Name>>)
    requires |gaps| == 6
    requires ExecWith(s, Conn(g.database), g.schema, GrantStmts(g), gaps).Some?
    ensures HasSchema(s, g.database, g.schema)
    ensures var u := ExecWith(s, Conn(g.database), g.schema, GrantStmts(g), gaps).value;
            && HasSchema(u, g.database, g.schema)
            && var x := SchemaAt(s, g.database, g.schema);
            var y := SchemaAt(u, g.database, g.schema);
            && Covers(y.defaults, g.role)
            && (forall t :: t in y.tables <==> t in x.tables || exists i :: 0 <= i < 6 && t in gaps[i])
            && forall t :: t in y.tables ==>
                 (!Covers(y.tables[t].acl, g.role) <==>
                  t in gaps[2] && t !in x.tables && t !in gaps[0] && t !in gaps[1] && !Covers(x.defaults, g.role))
  {
    CompletedWith(s, g, GrantStmts(g), gaps);
    ViewCoverage(g, s.superuser, gaps, Look(s, g));
  }

  lemma GapStep(g: GrantOpts, owner: Name, stmts: seq<Stmt>, gaps: seq<seq<Name>>, v: View) returns (v2: View)
    requires |gaps| == |stmts| + 1 && stmts != []
    ensures v2 == Effect(g, stmts[0], v.(x := Make(v.x, owner, gaps[0])))
    ensures EffectsWith(g, owner, stmts, gaps, v) == EffectsWith(g, owner, stmts[1..], gaps[1..], v2)
  {
    v2 := Effect(g, stmts[0], v.(x := Make(v.x, owner, gaps[0])));
  }

  /** Two completed grants in a row cover every table, whatever was created meanwhile. */
  lemma TwoGrantsCover(s: Server, g: GrantOpts, gaps: seq<seq<Name>>, again: seq<seq<Name>>)
    requires |gaps| == |again| == 6
    requires ExecWith(s, Conn(g.database), g.schema, GrantStmts(g), gaps).Some?
    requires ExecWith(ExecWith(s, Conn(g.database), g.schema, GrantStmts(g), gaps).value,
                      Conn(g.database), g.schema, GrantStmts(g), again).Some?
    ensures var u := ExecWith(ExecWith(s, Conn(g.database), g.schema, GrantStmts(g), gaps).value,
                              Conn(g.database), g.schema, GrantStmts(g), again).value;
            && HasSchema(u, g.database, g.schema)
            && forall t :: t in SchemaAt(u, g.database, g.schema).tables ==>
                 Covers(SchemaAt(u, g.database, g.schema).tables[t].acl, g.role)
  {
    GrantCoverage(s, g, gaps);
    GrantCoverage(ExecWith(s, Conn(g.database), g.schema, GrantStmts(g), gaps).value, g, again);
  }

  /** A completed revoke of ALL leaves no table of the schema and no default with an entry of the role, whatever
      was created meanwhile, because the defaults go first. */
  lemma RevokeLeavesNothing(s: Server, g: GrantOpts, gaps: seq<seq<Name>>)
    requires |gaps| == 5 && WellTyped(s)
    requires ExecWith(s, Conn(g.database), g.schema, RevokeStmts(g), gaps).Some?
    ensures var u := ExecWith(s, Conn(g.database), g.schema, RevokeStmts(g), gaps).value;
            && HasSchema(u, g.database, g.schema)
            && var y := SchemaAt(u, g.database, g.schema);
            && Of(y.defaults, g.role) == {}
            && forall t :: t in y.tables ==> Of(y.tables[t].acl, g.role) == {}
  {
    CompletedWith(s, g, RevokeStmts(g), gaps);
    assert TypedSchema(SchemaAt(s, g.database, g.schema));
    ViewRevoked(g, s.superuser, gaps, Look(s, g));
  }

  lemma ViewRevoked(g: GrantOpts, owner: Name, gaps: seq<seq<Name>>, v: View)
    requires |gaps| == 5 && TypedSchema(v.x)
    ensures var y := EffectsWith(g, owner, RevokeStmts(g), gaps, v).x;
            && Of(y.defaults, g.role) == {}
            && forall t :: t in y.tables ==> Of(y.tables[t].acl, g.role) == {}
  {
    var all := Entries(g.role, Valid(OnTables));
    var stmts := RevokeStmts(g);
    var v1 := GapStep(g, owner, stmts, gaps, v);
    var v2 := GapStep(g, owner, stmts[1..], gaps[1..], v1);
    var v3 := GapStep(g, owner, stmts[2..], gaps[2..], v2);
    var v4 := GapStep(g, owner, stmts[3..], gaps[3..], v3);
    assert stmts[3..][1..] == [] && gaps[3..][1..] == gaps[4..];
    assert EffectsWith(g, owner, stmts, gaps, v).x == Make(v4.x, owner, gaps[4]);
    var m := Make(v.x, owner, gaps[0]);
    NothingSoFar(v.x, owner, g.role, gaps[0], gaps[1], v2.x);
    NothingFromNow(v2.x, owner, g.role, gaps[2], gaps[3], gaps[4], v3.x.acl, v4.x.acl);
  }

  lemma NothingSoFar(x: Schema, owner: Name, r: Name, a: seq<Name>, b: seq<Name>, y: Schema)
    requires TypedSchema(x)
    requires var all := Entries(r, Valid(OnTables));
             var m := Make(x, owner, a);
             y == RevokeTables(Make(m.(defaults := m.defaults - all), owner, b), all)
    ensures Of(y.defaults, r) == {} && forall t :: t in y.tables ==> Of(y.tables[t].acl, r) == {}
  {
    var all := Entries(r, Valid(OnTables));
    var m := Make(x, owner, a);
    Made(x, owner, a);
    Made(m.(defaults := m.defaults - all), owner, b);
    RevokedList(x.defaults, r);
    var n := Make(m.(defaults := m.defaults - all), owner, b);
    forall t | t in y.tables
      ensures Of(y.tables[t].acl, r) == {}
    {
      assert Typed(n.tables[t].acl, OnTables);
      RevokedList(n.tables[t].acl, r);
    }
  }

  lemma NothingFromNow(x: Schema, owner: Name, r: Name, c: seq<Name>, d: seq<Name>, e: seq<Name>, p: Acl, q: Acl)
    requires Of(x.defaults, r) == {} && forall t :: t in x.tables ==> Of(x.tables[t].acl, r) == {}
    ensures var y := Make(Make(Make(x, owner, c).(acl := p), owner, d).(acl := q), owner, e);
            Of(y.defaults, r) == {} && forall t :: t in y.tables ==> Of(y.tables[t].acl, r) == {}
  {
    var m := Make(x, owner, c).(acl := p);
    Made(x, owner, c);
    Made(m, owner, d);
    Made(Make(m, owner, d).(acl := q), owner, e);
  }

  lemma RevokedList(acl: Acl, r: Name)
    requires Typed(acl, OnTables)
    ensures Of(acl - Entries(r, Valid(OnTables)), r) == {}
  {
  }

  /** The order matters: with tables first and defaults second, a table created in between keeps the role's entries. */
  lemma DefaultsMustGoFirst(s: Server, g: GrantOpts, t: Name)
    requires Applicable(s, g) && t !in SchemaAt(s, g.database, g.schema).tables
    requires Covers(SchemaAt(s, g.database, g.schema).defaults, g.role)
    ensures var stmts := [RevokeOnTables(g.privileges, g.schema, g.role), RevokeDefaults(g.privileges, g.schema, g.role)];
            var r := ExecWith(s, Conn(g.database), g.schema, stmts, [[], [t], []]);
            && r.Some? && HasSchema(r.value, g.database, g.schema)
            && t in SchemaAt(r.value, g.database, g.schema).tables
            && Covers(SchemaAt(r.value, g.database, g.schema).tables[t].acl, g.role)
  {
    var stmts := [RevokeOnTables(g.privileges, g.schema, g.role), RevokeDefaults(g.privileges, g.schema, g.role)];
    var gaps: seq<seq<Name>> := [[], [t], []];
    LookPut(s, g);
    var v := Look(s, g);
    ExecWithOurs(s, g, stmts, gaps, v);
    var v1 := GapStep(g, s.superuser, stmts, gaps, v);
    var v2 := GapStep(g, s.superuser, stmts[1..], gaps[1..], v1);
    Made(v2.x, s.superuser, gaps[2]);
    assert EffectsWith(g, s.superuser, stmts, gaps, v) == v2.(x := Make(v2.x, s.superuser, gaps[2]));
  }
}
