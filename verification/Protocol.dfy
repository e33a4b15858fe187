/**
 * The reconcilers of internal/controller as one small-step machine: every effect of Reconcile and
 * handleDeletion is a step, and anything else may happen between two of them.
 */
module Protocol {
  import opened Base
  import opened Api
  import PG = Postgres
  import Literals
  import Grants

  // ---------- the two stores ----------

  /** store[key] is the queue of a resource's versions that the operator's cache has not moved past: a read
      returns the first one, the API server holds the last one; None is a resource that does not exist. */
  datatype Cluster = Cluster(
    store: map<Key, seq<Option<Object>>>,
    pgs: map<(string, string), PgSpec>,
    secrets: map<(string, string), map<string, Bytes>>,
    server: PG.Server,
    rev: nat,
    clock: nat)

  function Versions(c: Cluster, key: Key): (vs: seq<Option<Object>>)
    ensures vs != []
  {
    if key in c.store && c.store[key] != [] then c.store[key] else [None]
  }

  function Cached(c: Cluster, key: Key): Option<Object> {
    Versions(c, key)[0]
  }

  function Live(c: Cluster, key: Key): Option<Object> {
    var vs := Versions(c, key);
    vs[|vs| - 1]
  }

  /** A write takes the next revision of the store. */
  function Write(c: Cluster, key: Key, v: Option<Object>): Cluster {
    var v' := if v.None? then None else Some(v.value.(rv := c.rev));
    c.(store := c.store[key := Versions(c, key) + [v']], rev := c.rev + 1)
  }

  /** A resource marked deleted goes with its last finalizer. */
  function OrGone(o: Object): Option<Object> {
    if o.deleted && !o.fin && o.others == {} then None else Some(o)
  }

  // ---------- the three SQL programs ----------

  datatype Program = Ask(question: PG.Question, yes: seq<PG.Stmt>, no: seq<PG.Stmt>) | Run(stmts: seq<PG.Stmt>)

  datatype Event = Asked(question: PG.Question, answer: bool) | Ran(stmt: PG.Stmt)

  datatype Op = AskOp(question: PG.Question) | RunOp(stmt: PG.Stmt) | Finished

  function Rest(p: Program, log: seq<Event>): seq<PG.Stmt>
    requires p.Ask? ==> log != [] && log[0].Asked?
  {
    if p.Run? then p.stmts else if log[0].answer then p.yes else p.no
  }

  function RunNext(stmts: seq<PG.Stmt>, done: nat): Op {
    if done < |stmts| then RunOp(stmts[done]) else Finished
  }

  /** What a program does next after the events logged so far. */
  function Next(p: Program, log: seq<Event>): Op {
    if p.Run? then RunNext(p.stmts, |log|)
    else if log == [] then AskOp(p.question)
    else if log[0].Asked? then RunNext(Rest(p, log), |log| - 1)
    else Finished
  }

  function ApplyProgram(key: Key, spec: Spec, password: Bytes): Program {
    match spec.body
    case DatabaseBody(_) =>
      var n := TargetName(key, spec.body);
      Ask(PG.DatabaseNamed(n), [], [PG.CreateDatabase(n)])
    case UserBody(_, _) =>
      var r := TargetName(key, spec.body);
      var literal := Literals.QuoteLiteral(password);
      Ask(PG.RoleNamed(r), [PG.AlterRole(r, literal)], [PG.CreateRole(r, literal)])
    case GrantBody(g) => Run(Grants.GrantStmts(g))
  }

  function CleanupProgram(key: Key, spec: Spec): Program {
    match spec.body
    case DatabaseBody(_) =>
      var n := TargetName(key, spec.body);
      Ask(PG.DatabaseNamed(n), [PG.DropDatabase(n)], [])
    case UserBody(_, _) =>
      var r := TargetName(key, spec.body);
      Ask(PG.RoleNamed(r), [PG.DropRole(r)], [])
    case GrantBody(g) => Run(Grants.RevokeStmts(g))
  }

  // ---------- where a worker is ----------

  /** Why handleDeletion goes on to remove the finalizer. */
  datatype Why = NotDelete | Missing(error: Error) | CleanedUp(log: seq<Event>)

  /** A worker's next effect, with the resource as it read it. */
  datatype Phase =
    | Idle                                    // read the resource
    | Resolve(cr: Object)                     // read the PostgreSQL resource
    | Credentials(cr: Object, pg: PgSpec)     // read the superuser Secret
    | Dial(cr: Object, pg: PgSpec)            // connect
    | Password(cr: Object, conn: PG.Conn)     // read the password Secret
    | Sql(cr: Object, conn: PG.Conn, program: Program, log: seq<Event>)
    | Store(cr: Object)                       // Update that adds the finalizer
    | Release(cr: Object, why: Why)           // Update that removes it
    | Report(cr: Object, ok: bool, message: Message)  // status patch

  datatype World = World(
    c: Cluster,
    phases: map<Key, Phase>,
    applied: map<(Key, nat, nat), seq<Event>>,  // by key, uid and generation: the log of a completed apply
    specs: map<(Key, nat, nat), Spec>)          // by key, uid and generation: the spec that was stored

  function PhaseOf(w: World, key: Key): Phase {
    if key in w.phases then w.phases[key] else Idle
  }

  function At(w: World, key: Key, ph: Phase): World {
    w.(phases := w.phases[key := ph])
  }

  // ---------- steps ----------

  /** How an effect ends: as it should, without effect and with an error, with its effect but an error for the
      operator, or with the operator's crash before it. */
  datatype Reply = Normal | Refused | Lost | Crashed

  datatype Action =
    | Work(key: Key, reply: Reply)
    | Deliver(key: Key)                                   // the cache moves on by one version
    | Create(key: Key, spec: Spec, others: set<string>)
    | Edit(key: Key, spec: Spec)
    | MarkDeleted(key: Key)
    | SetOthers(key: Key, others: set<string>)
    | SetConditions(key: Key, conditions: seq<Condition>)
    | PutPg(id: (string, string), pg: PgSpec)
    | DropPg(id: (string, string))
    | PutSecret(id: (string, string), data: map<string, Bytes>)
    | DropSecret(id: (string, string))
    | Sessions(server: PG.Server)                         // anything other sessions do to the server
    | Tick(time: nat)

  function PgId(key: Key, ref: PostgresRef): (string, string) {
    (if ref.ns == "" then key.ns else ref.ns, ref.name)
  }

  function SecretId(key: Key, ref: PostgresRef, pg: PgSpec): (string, string) {
    (PgId(key, ref).0, pg.superuserSecret.name)
  }

  /** A failed apply is reported and retried; a failed cleanup is only retried. */
  function Fail(cr: Object, e: Error): Phase {
    if cr.deleted then Idle else Report(cr, false, Failed(e))
  }

  function ConnectFail(cr: Object, e: Error): Phase {
    if cr.deleted && IsNotFound(e) then Release(cr, Missing(e)) else Fail(cr, e)
  }

  function AfterRead(cr: Object): Phase {
    if !cr.deleted then Resolve(cr)
    else if !cr.fin then Idle
    else if cr.spec.policy == Delete then Resolve(cr)
    else Release(cr, NotDelete)
  }

  /** The database a reconciler connects to: the target of a grant, else the admin database. */
  function DialTarget(spec: Spec, pg: PgSpec): PG.Name {
    match spec.body
    case GrantBody(g) => g.database
    case _ => pg.database
  }

  function AfterDial(key: Key, cr: Object, conn: PG.Conn): Phase {
    if cr.deleted then Sql(cr, conn, CleanupProgram(key, cr.spec), [])
    else if cr.spec.body.UserBody? then Password(cr, conn)
    else Sql(cr, conn, ApplyProgram(key, cr.spec, []), [])
  }

  /** Where a worker is after a completed apply. */
  function AfterApply(key: Key, cr: Object): Phase {
    if cr.fin then Report(cr, true, SuccessMessage(key, cr.spec)) else Store(cr)
  }

  /** Where a worker is after an event of its SQL program. */
  function Onward(key: Key, cr: Object, conn: PG.Conn, p: Program, log: seq<Event>): Phase {
    if Next(p, log) != Finished then Sql(cr, conn, p, log)
    else if cr.deleted then Release(cr, CleanedUp(log))
    else AfterApply(key, cr)
  }

  /** The program moves on; a completed apply is remembered. */
  function Proceed(w: World, key: Key, cr: Object, conn: PG.Conn, p: Program, log: seq<Event>): World {
    var w' := if Next(p, log) == Finished && !cr.deleted then w.(applied := w.applied[(key, cr.uid, cr.generation) := log]) else w;
    At(w', key, Onward(key, cr, conn, p, log))
  }

  /** Update: refused unless the resource is still the version that was read. */
  predicate Guarded(c: Cluster, key: Key, cr: Object) {
    Live(c, key).Some? && Live(c, key).value.rv == cr.rv
  }

  /** The write sends the resource as it was read; the status is a subresource that Update leaves alone. */
  function StoreFinalizer(c: Cluster, key: Key, cr: Object): Cluster
    requires Live(c, key).Some?
  {
    Write(c, key, Some(cr.(fin := true, conditions := Live(c, key).value.conditions)))
  }

  function DropFinalizer(c: Cluster, key: Key, cr: Object): Cluster
    requires Live(c, key).Some?
  {
    Write(c, key, OrGone(cr.(fin := false, conditions := Live(c, key).value.conditions)))
  }

  function NewCondition(c: Cluster, cr: Object, ok: bool, message: Message): Condition {
    Condition(Ready, ok, cr.generation, c.clock, message)
  }

  /** The status patch: a JSON merge patch with the whole list of conditions, not guarded by a version; an
      unchanged list makes an empty patch. */
  function PatchStatus(c: Cluster, key: Key, cr: Object, ok: bool, message: Message): Cluster {
    var cs := SetCondition(cr.conditions, NewCondition(c, cr, ok, message));
    if cs == cr.conditions || Live(c, key).None? || Live(c, key).value.conditions == cs then c
    else Write(c, key, Some(Live(c, key).value.(conditions := cs)))
  }

  function AskStep(w: World, key: Key, cr: Object, conn: PG.Conn, p: Program, log: seq<Event>, q: PG.Question, reply: Reply): World {
    if reply == Lost then At(w, key, Fail(cr, SqlFailed))
    else Proceed(w, key, cr, conn, p, log + [Asked(q, PG.Answer(w.c.server, q))])
  }

  function RunStep(w: World, key: Key, cr: Object, conn: PG.Conn, p: Program, log: seq<Event>, stmt: PG.Stmt, reply: Reply): World {
    match PG.Exec(w.c.server, conn, stmt)
    case None => At(w, key, Fail(cr, SqlFailed))
    case Some(s) =>
      var w' := w.(c := w.c.(server := s));
      if reply == Lost then At(w', key, Fail(cr, SqlFailed))
      else Proceed(w', key, cr, conn, p, log + [Ran(stmt)])
  }

  function SqlStep(w: World, key: Key, cr: Object, conn: PG.Conn, p: Program, log: seq<Event>, reply: Reply): World {
    if reply == Refused || conn.database !in w.c.server.databases then At(w, key, Fail(cr, SqlFailed))
    else match Next(p, log)
      case AskOp(q) => AskStep(w, key, cr, conn, p, log, q, reply)
      case RunOp(stmt) => RunStep(w, key, cr, conn, p, log, stmt, reply)
      case Finished => At(w, key, Idle)
  }

  function ReadStep(w: World, key: Key, reply: Reply): World {
    if reply != Normal || Cached(w.c, key).None? then w
    else At(w, key, AfterRead(Cached(w.c, key).value))
  }

  function ResolveStep(w: World, key: Key, cr: Object, reply: Reply): World {
    var id := PgId(key, cr.spec.ref);
    if reply != Normal then At(w, key, Fail(cr, Unavailable))
    else if id !in w.c.pgs then At(w, key, ConnectFail(cr, PgNotFound))
    else At(w, key, Credentials(cr, w.c.pgs[id]))
  }

  function CredentialsStep(w: World, key: Key, cr: Object, pg: PgSpec, reply: Reply): World {
    var id := SecretId(key, cr.spec.ref, pg);
    if reply != Normal then At(w, key, Fail(cr, Unavailable))
    else if id !in w.c.secrets then At(w, key, ConnectFail(cr, SecretNotFound))
    else if pg.superuserSecret.key !in w.c.secrets[id] then At(w, key, ConnectFail(cr, KeyMissing))
    else At(w, key, Dial(cr, pg))
  }

  function DialStep(w: World, key: Key, cr: Object, pg: PgSpec, reply: Reply): World {
    var d := DialTarget(cr.spec, pg);
    if reply != Normal || d !in w.c.server.databases then At(w, key, ConnectFail(cr, DialFailed))
    else At(w, key, AfterDial(key, cr, PG.Conn(d)))
  }

  function PasswordStep(w: World, key: Key, cr: Object, conn: PG.Conn, reply: Reply): World {
    if !cr.spec.body.UserBody? then At(w, key, Idle)
    else
      var ref := cr.spec.body.password;
      var id := (key.ns, ref.name);
      if reply != Normal then At(w, key, Fail(cr, Unavailable))
      else if id !in w.c.secrets then At(w, key, Fail(cr, PasswordSecretNotFound))
      else if ref.key !in w.c.secrets[id] then At(w, key, Fail(cr, PasswordKeyMissing))
      else At(w, key, Sql(cr, conn, ApplyProgram(key, cr.spec, w.c.secrets[id][ref.key]), []))
  }

  function StoreStep(w: World, key: Key, cr: Object, reply: Reply): World {
    if reply == Refused || !Guarded(w.c, key, cr) then At(w, key, Idle)
    else
      var w' := w.(c := StoreFinalizer(w.c, key, cr));
      if reply == Lost then At(w', key, Idle)
      else At(w', key, Report(Live(w'.c, key).value, true, SuccessMessage(key, cr.spec)))
  }

  function ReleaseStep(w: World, key: Key, cr: Object, reply: Reply): World {
    if reply == Refused || !Guarded(w.c, key, cr) then At(w, key, Idle)
    else At(w.(c := DropFinalizer(w.c, key, cr)), key, Idle)
  }

  function ReportStep(w: World, key: Key, cr: Object, ok: bool, message: Message, reply: Reply): World {
    if reply == Refused then At(w, key, Idle)
    else At(w.(c := PatchStatus(w.c, key, cr, ok, message)), key, Idle)
  }

  /** One effect of the worker for key. */
  function WorkStep(w: World, key: Key, reply: Reply): World {
    if reply == Crashed then At(w, key, Idle)
    else match PhaseOf(w, key)
      case Idle => ReadStep(w, key, reply)
      case Resolve(cr) => ResolveStep(w, key, cr, reply)
      case Credentials(cr, pg) => CredentialsStep(w, key, cr, pg, reply)
      case Dial(cr, pg) => DialStep(w, key, cr, pg, reply)
      case Password(cr, conn) => PasswordStep(w, key, cr, conn, reply)
      case Sql(cr, conn, p, log) => SqlStep(w, key, cr, conn, p, log, reply)
      case Store(cr) => StoreStep(w, key, cr, reply)
      case Release(cr, _) => ReleaseStep(w, key, cr, reply)
      case Report(cr, ok, message) => ReportStep(w, key, cr, ok, message, reply)
  }

  /** A user's write to the resource; the store remembers which spec had which generation. */
  function UserWrite(w: World, key: Key, v: Option<Object>): World {
    var w' := w.(c := Write(w.c, key, v));
    if v.None? then w' else w'.(specs := w.specs[(key, v.value.uid, v.value.generation) := v.value.spec])
  }

  /** Someone writes to a resource. */
  predicate IsWrite(a: Action) {
    a.Create? || a.Edit? || a.MarkDeleted? || a.SetOthers? || a.SetConditions?
  }

  /** What users and the API server's garbage collection do to a resource. */
  function UserStep(w: World, a: Action): World
    requires IsWrite(a)
  {
    var live := Live(w.c, a.key);
    match a
    case Create(key, spec, others) =>
      if live.None? && Fits(key.kind, spec.body) then
        UserWrite(w, key, Some(Object(w.c.rev, w.c.rev, 1, false, false, others, spec, [])))
      else w
    case Edit(key, spec) =>
      if live.Some? && Fits(key.kind, spec.body) && spec != live.value.spec then
        UserWrite(w, key, Some(live.value.(spec := spec, generation := live.value.generation + 1)))
      else w
    case MarkDeleted(key) =>
      if live.Some? && !live.value.deleted then
        UserWrite(w, key, OrGone(live.value.(deleted := true, generation := live.value.generation + 1)))
      else w
    case SetOthers(key, others) =>
      if live.Some? && (live.value.deleted ==> others <= live.value.others) then
        w.(c := Write(w.c, key, OrGone(live.value.(others := others))))
      else w
    case SetConditions(key, conditions) =>
      if live.Some? && Find(conditions, Ready) == Find(live.value.conditions, Ready) then
        w.(c := Write(w.c, key, Some(live.value.(conditions := conditions))))
      else w
  }

  /** The cache, everything else the operator reads, other sessions, and time. */
  function OutsideStep(c: Cluster, a: Action): Cluster
    requires !a.Work? && !IsWrite(a)
  {
    match a
    case Deliver(key) =>
      var vs := Versions(c, key);
      if |vs| > 1 then c.(store := c.store[key := vs[1..]]) else c
    case PutPg(id, pg) => c.(pgs := c.pgs[id := pg])
    case DropPg(id) => c.(pgs := c.pgs - {id})
    case PutSecret(id, data) => c.(secrets := c.secrets[id := data])
    case DropSecret(id) => c.(secrets := c.secrets - {id})
    case Sessions(server) => c.(server := server)
    case Tick(time) => if time > c.clock then c.(clock := time) else c
  }

  function EnvStep(w: World, a: Action): World
    requires !a.Work?
  {
    if IsWrite(a) then UserStep(w, a) else w.(c := OutsideStep(w.c, a))
  }

  function Step(w: World, a: Action): World {
    if a.Work? then WorkStep(w, a.key, a.reply) else EnvStep(w, a)
  }

  function Replay(w: World, acts: seq<Action>): World
    decreases |acts|
  {
    if acts == [] then w else Replay(Step(w, acts[0]), acts[1..])
  }

  lemma {:induction false} ReplayLast(w: World, acts: seq<Action>, a: Action)
    ensures Replay(w, acts + [a]) == Step(Replay(w, acts), a)
    decreases |acts|
  {
    if acts == [] {
      assert [a][1..] == [];
      assert acts + [a] == [a];
    } else {
      ReplayLast(Step(w, acts[0]), acts[1..], a);
      assert (acts + [a])[1..] == acts[1..] + [a];
    }
  }

  /** The run's state before step n. */
  function StateAt(w: World, acts: seq<Action>, n: nat): World
    requires n <= |acts|
  {
    Replay(w, acts[..n])
  }

  lemma StateNext(w: World, acts: seq<Action>, n: nat)
    requires n < |acts|
    ensures StateAt(w, acts, n + 1) == Step(StateAt(w, acts, n), acts[n])
  {
    assert acts[..n + 1] == acts[..n] + [acts[n]];
    ReplayLast(w, acts[..n], acts[n]);
  }

  lemma StateEnds(w: World, acts: seq<Action>)
    ensures StateAt(w, acts, 0) == w && StateAt(w, acts, |acts|) == Replay(w, acts)
  {
    assert acts[..|acts|] == acts;
  }

  /** The operator starts on a store without its finalizers; anything may be on the server. */
  predicate Init(w: World) {
    && w.c.store == map[] && w.phases == map[] && w.applied == map[] && w.specs == map[]
  }
}
