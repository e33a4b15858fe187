/** One reconcile of one resource, from the read to the return, with what happens between its effects given. */
module Attempts {
  import opened Base
  import opened Api
  import opened Protocol
  import opened Promises
  import Requeue
  import PG = Postgres
  import Safety

  function Rank(ph: Phase): nat {
    match ph
    case Idle => 0
    case Report(_, _, _) => 1
    case Release(_, _) => 1
    case Store(_) => 2
    case Sql(_, _, _, _) => 3
    case Password(_, _) => 4
    case Dial(_, _) => 5
    case Credentials(_, _) => 6
    case Resolve(_) => 7
  }

  function Left(ph: Phase): nat {
    match ph
    case Sql(_, _, Run(stmts), log) => if |log| < |stmts| then |stmts| - |log| else 0
    case Sql(_, _, Ask(_, yes, no), log) =>
      if log == [] then 1 + |yes| + |no|
      else if log[0].Asked? then
        var branch := if log[0].answer then yes else no;
        if |log| - 1 < |branch| then |branch| - (|log| - 1) else 0
      else 0
    case _ => 0
  }

  predicate IsBelow(after: Phase, before: Phase) {
    Rank(after) < Rank(before) || (Rank(after) == Rank(before) && Left(after) < Left(before))
  }

  lemma OnwardDescends(key: Key, cr: Object, conn: PG.Conn, p: Program, log: seq<Event>, e: Event)
    requires Safety.IsNext(p, log, e)
    ensures IsBelow(Onward(key, cr, conn, p, log + [e]), Sql(cr, conn, p, log))
  {
  }

  lemma FailDescends(cr: Object, conn: PG.Conn, p: Program, log: seq<Event>)
    ensures IsBelow(Fail(cr, SqlFailed), Sql(cr, conn, p, log)) && IsBelow(Idle, Sql(cr, conn, p, log))
  {
  }

  lemma NextIsNext(w: World, p: Program, log: seq<Event>)
    ensures Next(p, log).AskOp? ==> Safety.IsNext(p, log, Asked(Next(p, log).question, PG.Answer(w.c.server, Next(p, log).question)))
    ensures Next(p, log).RunOp? ==> Safety.IsNext(p, log, Ran(Next(p, log).stmt))
  {
  }

  lemma SqlDescends(w: World, key: Key, reply: Reply)
    requires PhaseOf(w, key).Sql?
    ensures IsBelow(PhaseOf(WorkStep(w, key, reply), key), PhaseOf(w, key))
  {
    hide Left, Rank, Next, Onward, PG.Exec, PG.Answer, Safety.IsNext;
    var Sql(cr, conn, p, log) := PhaseOf(w, key);
    FailDescends(cr, conn, p, log);
    NextIsNext(w, p, log);
    match Next(p, log)
    case AskOp(q) => OnwardDescends(key, cr, conn, p, log, Asked(q, PG.Answer(w.c.server, q)));
    case RunOp(stmt) => OnwardDescends(key, cr, conn, p, log, Ran(stmt));
    case Finished =>
  }

  /** Every effect of a reconcile brings it nearer to its end. */
  lemma Descends(w: World, key: Key, reply: Reply)
    requires !PhaseOf(w, key).Idle?
    ensures IsBelow(PhaseOf(WorkStep(w, key, reply), key), PhaseOf(w, key))
  {
    hide SqlStep, Left, ApplyProgram, CleanupProgram, StoreFinalizer, DropFinalizer, PatchStatus, PgId, SecretId, Guarded, Live;
    if PhaseOf(w, key).Sql? {
      SqlDescends(w, key, reply);
    }
  }

  // ---------- scripts ----------

  /** What others do before an effect, and how the effect ends. */
  datatype Turn = Turn(before: seq<Action>, reply: Reply)

  /** A state, and what is to happen from now on; after the script nobody disturbs and nothing fails. */
  datatype Play = Play(w: World, script: seq<Turn>)

  /** Only key's own worker takes its steps. */
  function Aside(w: World, key: Key, a: Action): (u: World)
    ensures PhaseOf(u, key) == PhaseOf(w, key)
  {
    if a.Work? && a.key == key then w
    else if a.Work? then
      Safety.WorkFrame(w, a.key, a.reply, key);
      Step(w, a)
    else
      Safety.EnvKeepsPhases(w, a);
      Step(w, a)
  }

  function Meanwhile(w: World, key: Key, acts: seq<Action>): (u: World)
    ensures PhaseOf(u, key) == PhaseOf(w, key)
    decreases |acts|
  {
    if acts == [] then w else Meanwhile(Aside(w, key, acts[0]), key, acts[1..])
  }

  /** The state that the next effect finds. */
  function Scene(p: Play, key: Key): (u: World)
    ensures PhaseOf(u, key) == PhaseOf(p.w, key)
  {
    if p.script == [] then p.w else Meanwhile(p.w, key, p.script[0].before)
  }

  function ReplyTo(p: Play): Reply {
    if p.script == [] then Normal else p.script[0].reply
  }

  /** The next effect of key's worker. */
  function Effect(p: Play, key: Key): Play {
    Play(WorkStep(Scene(p, key), key, ReplyTo(p)), if p.script == [] then [] else p.script[1..])
  }

  /** The worker goes on until it is idle. */
  function Drive(p: Play, key: Key): (q: Play)
    ensures PhaseOf(q.w, key).Idle?
    decreases Rank(PhaseOf(p.w, key)), Left(PhaseOf(p.w, key))
  {
    if PhaseOf(p.w, key).Idle? then p
    else
      Descends(Scene(p, key), key, ReplyTo(p));
      Drive(Effect(p, key), key)
  }

  /** A reconcile of an idle worker: it reads the resource, then goes on. */
  function Attempt(p: Play, key: Key): Play {
    Drive(Effect(p, key), key)
  }

  function Settle(w: World, key: Key): World {
    Drive(Play(w, []), key).w
  }

  // ---------- what the reading effects find ----------

  predicate ReadsPg(c: Cluster, reply: Reply, key: Key, spec: Spec, pg: Option<PgSpec>, e: Error) {
    if reply != Normal then pg == None && e == Unavailable
    else if HasPg(c, key, spec) then pg == Some(PgOf(c, key, spec))
    else pg == None && e == PgNotFound
  }

  predicate ReadsSuperuser(c: Cluster, reply: Reply, key: Key, spec: Spec, pg: PgSpec, ok: bool, e: Error) {
    var id := SuperuserOf(key, spec, pg);
    if reply != Normal then !ok && e == Unavailable
    else if id !in c.secrets then !ok && e == SecretNotFound
    else if pg.superuserSecret.key !in c.secrets[id] then !ok && e == KeyMissing
    else ok
  }

  predicate Dials(c: Cluster, reply: Reply, d: PG.Name, conn: Option<PG.Conn>) {
    conn == if reply == Normal && d in c.server.databases then Some(PG.Conn(d)) else None
  }

  predicate ReadsPassword(c: Cluster, reply: Reply, key: Key, spec: Spec, value: Option<Bytes>, e: Error)
    requires spec.body.UserBody?
  {
    var (ref, id) := (spec.body.password, (key.ns, spec.body.password.name));
    if reply != Normal then value == None && e == Unavailable
    else if id !in c.secrets then value == None && e == PasswordSecretNotFound
    else if ref.key !in c.secrets[id] then value == None && e == PasswordKeyMissing
    else value == Some(c.secrets[id][ref.key])
  }

  /** Connecting reads the PostgreSQL resource, then its superuser Secret, and dials; each effect meets its own state,
      and the first failure decides the error. */
  predicate Connects(p: Play, key: Key, spec: Spec, conn: Option<PG.Conn>, e: Error) {
    var (c0, c1, c2) := (Scene(p, key).c, Scene(Effect(p, key), key).c, Scene(Effect(Effect(p, key), key), key).c);
    if ReplyTo(p) != Normal then conn == None && e == Unavailable
    else if !HasPg(c0, key, spec) then conn == None && e == PgNotFound
    else
      var pg := PgOf(c0, key, spec);
      var id := SuperuserOf(key, spec, pg);
      if ReplyTo(Effect(p, key)) != Normal then conn == None && e == Unavailable
      else if id !in c1.secrets then conn == None && e == SecretNotFound
      else if pg.superuserSecret.key !in c1.secrets[id] then conn == None && e == KeyMissing
      else if ReplyTo(Effect(Effect(p, key), key)) != Normal || DatabaseOf(spec, pg) !in c2.server.databases then
        conn == None && e == DialFailed
      else conn == Some(PG.Conn(DatabaseOf(spec, pg)))
  }

  /** Connecting finds the PostgreSQL resource missing, or then its superuser Secret. */
  predicate FindsMissing(p: Play, key: Key, spec: Spec) {
    && ReplyTo(p) == Normal
    && (HasPg(Scene(p, key).c, key, spec) ==>
          && ReplyTo(Effect(p, key)) == Normal
          && SuperuserOf(key, spec, PgOf(Scene(p, key).c, key, spec)) !in Scene(Effect(p, key), key).c.secrets)
  }

  /** The moment before the last effect. */
  function Last(p: Play, key: Key): Play
    decreases if PhaseOf(p.w, key).Idle? then 8 else Rank(PhaseOf(p.w, key)), Left(PhaseOf(p.w, key))
  {
    if PhaseOf(Effect(p, key).w, key).Idle? then p
    else
      assert !PhaseOf(p.w, key).Idle? ==> IsBelow(PhaseOf(Effect(p, key).w, key), PhaseOf(p.w, key)) by {
        if !PhaseOf(p.w, key).Idle? {
          Descends(Scene(p, key), key, ReplyTo(p));
        }
      }
      Last(Effect(p, key), key)
  }

  /** Where a reconcile that goes on from here is heading. */
  function Goal(p: Play, key: Key): Play {
    Last(p, key)
  }

  /** What a reconcile returns whose last effect is the next one. */
  function Verdict(p: Play, key: Key, jitter: int): Result {
    var (w, reply) := (Scene(p, key), ReplyTo(p));
    match PhaseOf(w, key)
    case Idle => if reply == Normal then Done else Err
    case Store(_) => Err
    case Release(cr, _) => if reply == Normal && Guarded(w.c, key, cr) then Done else Err
    case Report(cr, ok, _) => if ok then RequeueResult(cr.spec, jitter) else RetryResult(cr.spec, jitter)
    case _ => Result(false, Requeue.DEFAULT_RETRY)
  }

  /** The next effect is refused, or meets another version than the one that was read. */
  predicate Rejects(p: Play, key: Key, cr: Object) {
    var live := Live(Scene(p, key).c, key);
    ReplyTo(p) != Normal || live.None? || live.value.rv != cr.rv
  }

  /** What the last effect's phase says about the return. */
  lemma VerdictByPhase(p: Play, key: Key, jitter: int)
    ensures PhaseOf(p.w, key).Store? ==> Verdict(p, key, jitter) == Err
    ensures Rank(PhaseOf(p.w, key)) >= 3 ==> Verdict(p, key, jitter) == Result(false, 5_000_000_000)
    ensures PhaseOf(p.w, key).Report? ==>
              var Report(cr, ok, _) := PhaseOf(p.w, key);
              && Verdict(p, key, jitter) == (if ok then RequeueResult(cr.spec, jitter) else RetryResult(cr.spec, jitter))
              && IsScheduled(Verdict(p, key, jitter), cr.spec, ok, jitter)
    ensures PhaseOf(p.w, key).Release? ==> Verdict(p, key, jitter) == if Rejects(p, key, PhaseOf(p.w, key).cr) then Err else Done
    ensures PhaseOf(p.w, key).Idle? ==> Verdict(p, key, jitter) == if ReplyTo(p) == Normal then Done else Err
  {
    hide Meanwhile;
    if PhaseOf(p.w, key).Report? {
      ResultsAreScheduled(PhaseOf(p.w, key).cr.spec, jitter);
    }
  }

  lemma ResultsAreScheduled(spec: Spec, jitter: int)
    ensures IsScheduled(RequeueResult(spec, jitter), spec, true, jitter)
    ensures IsScheduled(RetryResult(spec, jitter), spec, false, jitter)
  {
  }

  /** A reconcile that ends with the next effect, and one that does not. */
  lemma GoalNext(p: Play, key: Key)
    ensures PhaseOf(Effect(p, key).w, key).Idle? ==> Goal(p, key) == p
    ensures !PhaseOf(Effect(p, key).w, key).Idle? ==> Goal(p, key) == Goal(Effect(p, key), key)
  {
    hide Effect;
  }

  lemma {:induction false} AttemptEndsLast(p: Play, key: Key)
    ensures Attempt(p, key) == Effect(Last(p, key), key)
    decreases if PhaseOf(p.w, key).Idle? then 8 else Rank(PhaseOf(p.w, key)), Left(PhaseOf(p.w, key))
  {
    var q := Effect(p, key);
    if !PhaseOf(q.w, key).Idle? {
      if !PhaseOf(p.w, key).Idle? {
        Descends(Scene(p, key), key, ReplyTo(p));
      }
      AttemptEndsLast(q, key);
    }
  }

  /** What others do before an effect is a run of their own. */
  lemma {:induction false} MeanwhileIsReplay(w: World, key: Key, acts: seq<Action>)
    requires forall a :: a in acts ==> !(a.Work? && a.key == key)
    ensures Meanwhile(w, key, acts) == Replay(w, acts)
    decreases |acts|
  {
    hide WorkStep, EnvStep;
    if acts != [] {
      assert acts[0] in acts;
      assert forall a :: a in acts[1..] ==> a in acts;
      MeanwhileIsReplay(Step(w, acts[0]), key, acts[1..]);
    }
  }
}
