/**
 * The PostgreSQL server as the operator's statements see it: roles, databases, schemas and tables with their
 * access control lists (sections 5.7 and 22.4 of the PostgreSQL 16 manual and the reference pages of GRANT,
 * REVOKE, ALTER DEFAULT PRIVILEGES, CREATE/DROP DATABASE and CREATE/ALTER/DROP ROLE).
 */
module Postgres {
  import opened Base
  import Literals

  type Name = string

  datatype Priv =
    | Select | Insert | Update | Delete | Truncate | References | Trigger
    | Create | Connect | Temporary | Usage

  /** One entry of spec.privileges as the server's grammar reads it. */
  datatype Word = All | AllPrivileges | One(priv: Priv) | Unknown(text: string)

  datatype Target = OnDatabase | OnTables | OnSchema

  type Acl = set<(Name, Priv)>

  datatype Table = Table(owner: Name, acl: Acl)

  /** `defaults` are the default table privileges of the connecting superuser in this schema. */
  datatype Schema = Schema(acl: Acl, defaults: Acl, tables: map<Name, Table>)

  datatype Database = Database(owner: Name, acl: Acl, schemas: map<Name, Schema>)

  datatype Server = Server(scs: bool, superuser: Name, roles: map<Name, Bytes>, databases: map<Name, Database>)

  /** A superuser session, open on one database. */
  datatype Conn = Conn(database: Name)

  datatype Stmt =
    | CreateDatabase(name: Name)
    | DropDatabase(name: Name)
    | CreateRole(name: Name, literal: Bytes)
    | AlterRole(name: Name, literal: Bytes)
    | DropRole(name: Name)
    | GrantOnDatabase(privs: seq<Word>, database: Name, role: Name)
    | GrantOnTables(privs: seq<Word>, schema: Name, role: Name)
    | GrantDefaults(privs: seq<Word>, schema: Name, role: Name)
    | GrantOnSchema(priv: Priv, schema: Name, role: Name)
    | RevokeDefaults(privs: seq<Word>, schema: Name, role: Name)
    | RevokeOnTables(privs: seq<Word>, schema: Name, role: Name)
    | RevokeOnSchema(priv: Priv, schema: Name, role: Name)
    | RevokeOnDatabase(privs: seq<Word>, database: Name, role: Name)

  datatype Question = DatabaseNamed(name: Name) | RoleNamed(name: Name)

  const TEMPLATE: Name := "template1"
  const TEMPLATES: set<Name> := {"template0", TEMPLATE}

  // ---------- privileges ----------

  function Valid(t: Target): set<Priv> {
    match t
    case OnDatabase => {Create, Connect, Temporary}
    case OnTables => {Select, Insert, Update, Delete, Truncate, References, Trigger}
    case OnSchema => {Usage, Create}
  }

  predicate IsAll(ws: seq<Word>) {
    ws == [All] || ws == [AllPrivileges]
  }

  /** What a privilege list means for an object; None is a syntax error (ALL inside a list, an empty list)
      or an invalid privilege type. */
  function Meaning(ws: seq<Word>, t: Target): Option<set<Priv>> {
    if IsAll(ws) then Some(Valid(t))
    else if ws != [] && forall w :: w in ws ==> w.One? && w.priv in Valid(t) then Some(set w | w in ws && w.One? :: w.priv)
    else None
  }

  function Entries(role: Name, privs: set<Priv>): Acl {
    set p | p in privs :: (role, p)
  }

  // ---------- lookups and updates ----------

  predicate HasSchema(s: Server, d: Name, n: Name) {
    d in s.databases && n in s.databases[d].schemas
  }

  function SchemaAt(s: Server, d: Name, n: Name): Schema
    requires HasSchema(s, d, n)
  {
    s.databases[d].schemas[n]
  }

  function WithDatabase(s: Server, d: Name, x: Database): Server {
    s.(databases := s.databases[d := x])
  }

  function WithSchema(s: Server, d: Name, n: Name, x: Schema): Server
    requires HasSchema(s, d, n)
  {
    var db := s.databases[d];
    WithDatabase(s, d, db.(schemas := db.schemas[n := x]))
  }

  function GrantTables(x: Schema, e: Acl): Schema {
    x.(tables := map t | t in x.tables :: x.tables[t].(acl := x.tables[t].acl + e))
  }

  function RevokeTables(x: Schema, e: Acl): Schema {
    x.(tables := map t | t in x.tables :: x.tables[t].(acl := x.tables[t].acl - e))
  }

  /** The role owns the object or something in it, or has an entry in one of its lists. */
  predicate InSchema(r: Name, x: Schema) {
    || (exists e :: e in x.acl && e.0 == r)
    || (exists e :: e in x.defaults && e.0 == r)
    || (exists t :: t in x.tables && (x.tables[t].owner == r || exists e :: e in x.tables[t].acl && e.0 == r))
  }

  predicate InDatabase(r: Name, x: Database) {
    || x.owner == r
    || (exists e :: e in x.acl && e.0 == r)
    || (exists n :: n in x.schemas && InSchema(r, x.schemas[n]))
  }

  /** Objects depend on the role (section 22.4). */
  predicate HasDependents(s: Server, r: Name) {
    exists d :: d in s.databases && InDatabase(r, s.databases[d])
  }

  // ---------- statements ----------

  function Answer(s: Server, q: Question): bool {
    match q
    case DatabaseNamed(n) => n in s.databases
    case RoleNamed(n) => n in s.roles
  }

  /** The password the server reads from a literal that ends the statement. */
  function PasswordOf(s: Server, literal: Bytes): Option<Bytes> {
    match Literals.Lex(s.scs, literal)
    case None => None
    case Some((v, rest)) => if rest == [] then Some(v) else None
  }

  function SetPassword(s: Server, r: Name, literal: Bytes): Option<Server> {
    match PasswordOf(s, literal)
    case None => None
    case Some(v) => Some(s.(roles := s.roles[r := v]))
  }

  function OnDatabaseAcl(s: Server, ws: seq<Word>, d: Name, r: Name, grant: bool): Option<Server> {
    if d in s.databases && r in s.roles && Meaning(ws, OnDatabase).Some? then
      var e := Entries(r, Meaning(ws, OnDatabase).value);
      var x := s.databases[d];
      Some(WithDatabase(s, d, x.(acl := if grant then x.acl + e else x.acl - e)))
    else None
  }

  function OnTablesAcl(s: Server, c: Conn, ws: seq<Word>, n: Name, r: Name, grant: bool): Option<Server> {
    if HasSchema(s, c.database, n) && r in s.roles && Meaning(ws, OnTables).Some? then
      var e := Entries(r, Meaning(ws, OnTables).value);
      var x := SchemaAt(s, c.database, n);
      Some(WithSchema(s, c.database, n, if grant then GrantTables(x, e) else RevokeTables(x, e)))
    else None
  }

  function OnDefaultsAcl(s: Server, c: Conn, ws: seq<Word>, n: Name, r: Name, grant: bool): Option<Server> {
    if HasSchema(s, c.database, n) && r in s.roles && Meaning(ws, OnTables).Some? then
      var e := Entries(r, Meaning(ws, OnTables).value);
      var x := SchemaAt(s, c.database, n);
      Some(WithSchema(s, c.database, n, x.(defaults := if grant then x.defaults + e else x.defaults - e)))
    else None
  }

  function OnSchemaAcl(s: Server, c: Conn, p: Priv, n: Name, r: Name, grant: bool): Option<Server> {
    if HasSchema(s, c.database, n) && r in s.roles && p in Valid(OnSchema) then
      var x := SchemaAt(s, c.database, n);
      Some(WithSchema(s, c.database, n, x.(acl := if grant then x.acl + {(r, p)} else x.acl - {(r, p)})))
    else None
  }

  /** None is an SQL error, which leaves the server as it was. A session does not survive its database. */
  function Exec(s: Server, c: Conn, stmt: Stmt): Option<Server> {
    if c.database !in s.databases then None
    else match stmt
      case CreateDatabase(n) =>
        if n !in s.databases && TEMPLATE in s.databases then
          Some(WithDatabase(s, n, Database(s.superuser, {}, s.databases[TEMPLATE].schemas)))
        else None
      case DropDatabase(n) =>
        if n in s.databases && n != c.database && n !in TEMPLATES then
          Some(s.(databases := s.databases - {n}))
        else None
      case CreateRole(r, literal) => if r in s.roles then None else SetPassword(s, r, literal)
      case AlterRole(r, literal) => if r !in s.roles then None else SetPassword(s, r, literal)
      case DropRole(r) =>
        if r in s.roles && r != s.superuser && !HasDependents(s, r) then Some(s.(roles := s.roles - {r}))
        else None
      case GrantOnDatabase(ws, d, r) => OnDatabaseAcl(s, ws, d, r, true)
      case GrantOnTables(ws, n, r) => OnTablesAcl(s, c, ws, n, r, true)
      case GrantDefaults(ws, n, r) => OnDefaultsAcl(s, c, ws, n, r, true)
      case GrantOnSchema(p, n, r) => OnSchemaAcl(s, c, p, n, r, true)
      case RevokeDefaults(ws, n, r) => OnDefaultsAcl(s, c, ws, n, r, false)
      case RevokeOnTables(ws, n, r) => OnTablesAcl(s, c, ws, n, r, false)
      case RevokeOnSchema(p, n, r) => OnSchemaAcl(s, c, p, n, r, false)
      case RevokeOnDatabase(ws, d, r) => OnDatabaseAcl(s, ws, d, r, false)
  }

  /** Statements of one session, stopping at the first error; whether all went through. */
  function RunAll(s: Server, c: Conn, stmts: seq<Stmt>): (Server, bool)
    decreases |stmts|
  {
    if stmts == [] then (s, true)
    else match Exec(s, c, stmts[0])
      case None => (s, false)
      case Some(s') => RunAll(s', c, stmts[1..])
  }

  // ---------- well-typed lists ----------

  predicate Typed(acl: Acl, t: Target) {
    forall e :: e in acl ==> e.1 in Valid(t)
  }

  predicate TypedSchema(x: Schema) {
    && Typed(x.acl, OnSchema)
    && Typed(x.defaults, OnTables)
    && forall t :: t in x.tables ==> Typed(x.tables[t].acl, OnTables)
  }

  /** Lists hold only privileges of their object's kind, as the server guarantees. */
  predicate WellTyped(s: Server) {
    forall d :: d in s.databases ==>
      && Typed(s.databases[d].acl, OnDatabase)
      && forall n :: n in s.databases[d].schemas ==> TypedSchema(s.databases[d].schemas[n])
  }

  lemma MeaningIsValid(ws: seq<Word>, t: Target)
    requires Meaning(ws, t).Some?
    ensures Meaning(ws, t).value <= Valid(t)
  {
  }

  lemma ExecKeepsTypes(s: Server, c: Conn, stmt: Stmt)
    requires WellTyped(s) && Exec(s, c, stmt).Some?
    ensures WellTyped(Exec(s, c, stmt).value)
  {
    var s' := Exec(s, c, stmt).value;
    if stmt.GrantOnDatabase? {
      MeaningIsValid(stmt.privs, OnDatabase);
    } else if stmt.GrantOnTables? || stmt.GrantDefaults? {
      MeaningIsValid(stmt.privs, OnTables);
    }
    forall d | d in s'.databases
      ensures Typed(s'.databases[d].acl, OnDatabase)
      ensures forall n :: n in s'.databases[d].schemas ==> TypedSchema(s'.databases[d].schemas[n])
    {
      if stmt.CreateDatabase? && d == stmt.name {
        assert TEMPLATE in s.databases;
      } else {
        assert d in s.databases;
      }
    }
  }

  // ---------- growth ----------

  predicate SchemaGrows(x: Schema, y: Schema) {
    && x.acl <= y.acl
    && x.defaults <= y.defaults
    && forall t :: t in x.tables ==>
         t in y.tables && x.tables[t].owner == y.tables[t].owner && x.tables[t].acl <= y.tables[t].acl
  }

  predicate DatabaseGrows(x: Database, y: Database) {
    && x.owner == y.owner
    && x.acl <= y.acl
    && forall n :: n in x.schemas ==> n in y.schemas && SchemaGrows(x.schemas[n], y.schemas[n])
  }

  /** No role, database, schema, table or list entry of s is missing in u. */
  predicate Grows(s: Server, u: Server) {
    && s.scs == u.scs && s.superuser == u.superuser
    && s.roles.Keys <= u.roles.Keys
    && forall d :: d in s.databases ==> d in u.databases && DatabaseGrows(s.databases[d], u.databases[d])
  }

  predicate IsDestructive(stmt: Stmt) {
    || stmt.DropDatabase? || stmt.DropRole?
    || stmt.RevokeDefaults? || stmt.RevokeOnTables? || stmt.RevokeOnSchema? || stmt.RevokeOnDatabase?
  }

  lemma OthersGrow(s: Server, c: Conn, stmt: Stmt)
    requires Exec(s, c, stmt).Some? && !IsDestructive(stmt)
    ensures Grows(s, Exec(s, c, stmt).value)
  {
  }
}
