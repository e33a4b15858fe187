/** The claims about whole runs: any number of resources, users, sessions, faults and crashes. */
module Runs {
  import opened Base
  import opened Api
  import opened Protocol
  import opened Promises
  import opened Safety
  import opened Origins
  import PG = Postgres
  import Statements

  // ---------- what the finalizer and Ready mean ----------

  /** In every run: a stored finalizer means that this very resource has once completed its whole apply on this server,
      step by step, with the password that the Secret then held and the database, role or entries there when it was
      done; Ready=True means so for the spec of the observed generation; and Ready=True without a deletion mark means
      that the finalizer is stored. */
  lemma FinalizerAndReady(w0: World, acts: seq<Action>, key: Key)
    requires Init(w0)
    ensures var live := Live(Replay(w0, acts).c, key);
            live.Some? ==>
              var o := live.value;
              && (o.fin ==> exists k: Course :: WasApplied(w0, acts, |acts|, key, o.uid, k))
              && (IsReady(o) ==>
                    exists k: Course :: WasApplied(w0, acts, |acts|, key, o.uid, k)
                                     && k.cr.generation == Find(o.conditions, Ready).value.observedGeneration
                                     && (k.cr.generation == o.generation ==> k.cr.spec == o.spec))
              && (IsReady(o) && !o.deleted ==> o.fin)
  {
    var w := Replay(w0, acts);
    StateEnds(w0, acts);
    StateKeeps(w0, acts, |acts|, key);
    if Live(w.c, key).Some? {
      LiveOk(w, key);
      var o := Live(w.c, key).value;
      hide KeyInv, Replay, StateAt, WasApplied, Init;
      if o.fin {
        var g: nat :| Applied(w, key, o.uid, g);
        var k := ApplyOrigin(w0, acts, |acts|, key, o.uid, g);
      }
      if IsReady(o) {
        var k := ApplyOrigin(w0, acts, |acts|, key, o.uid, Find(o.conditions, Ready).value.observedGeneration);
        AppliedSpec(w0, acts, key, o.uid, k);
      }
    }
  }

  lemma AppliedSpec(w0: World, acts: seq<Action>, key: Key, uid: nat, k: Course)
    requires WasApplied(w0, acts, |acts|, key, uid, k)
    ensures (key, uid, k.cr.generation) in StateAt(w0, acts, |acts|).specs
    ensures StateAt(w0, acts, |acts|).specs[(key, uid, k.cr.generation)] == k.cr.spec
  {
  }

  /** A user gives the Grant a single ALL. */
  predicate GivesAll(a: Action, key: Key) {
    (a.Create? || a.Edit?) && a.key == key && a.spec.body.GrantBody? && PG.IsAll(a.spec.body.opts.privileges)
  }

  /** In every run in which a Grant is never given a single ALL, it never gets the finalizer or Ready=True. */
  lemma OnlyAllBecomesReady(w0: World, acts: seq<Action>, key: Key)
    requires Init(w0) && key.kind == GrantKind
    requires forall i :: 0 <= i < |acts| ==> !GivesAll(acts[i], key)
    ensures var o := Live(Replay(w0, acts).c, key);
            o.Some? ==> !o.value.fin && !IsReady(o.value)
  {
    RunKeeps(w0, acts);
    RunKeeps(w0, []);
    assert Replay(w0, []) == w0;
    SpecsCameFromUsers(w0, acts, key);
    if Live(Replay(w0, acts).c, key).Some? {
      NoAllNoFinalizer(Replay(w0, acts), key);
    }
  }

  lemma AppliedGrantsAll(w: World, key: Key, uid: nat, g: nat)
    requires Applied(w, key, uid, g) && w.specs[(key, uid, g)].body.GrantBody?
    ensures PG.IsAll(w.specs[(key, uid, g)].body.opts.privileges)
  {
    var (spec, log) := (w.specs[(key, uid, g)], w.applied[(key, uid, g)]);
    var password: Bytes :| Completes(ApplyProgram(key, spec, password), log);
    ApplyShows(key, spec, password, log);
  }

  lemma NoAllNotApplied(w: World, key: Key, uid: nat, g: nat)
    requires SpecsOk(w, key) && NoAll(w, key) && key.kind == GrantKind
    ensures !Applied(w, key, uid, g)
  {
    if Applied(w, key, uid, g) {
      AppliedGrantsAll(w, key, uid, g);
    }
  }

  lemma NoAllNoFinalizer(w: World, key: Key)
    requires KeyInv(w, key) && NoAll(w, key) && key.kind == GrantKind && Live(w.c, key).Some?
    ensures !Live(w.c, key).value.fin && !IsReady(Live(w.c, key).value)
  {
    LiveOk(w, key);
    var o := Live(w.c, key).value;
    if o.fin || IsReady(o) {
      var g: nat :| Applied(w, key, o.uid, g);
      NoAllNotApplied(w, key, o.uid, g);
    }
  }

  ghost predicate NoAll(w: World, key: Key) {
    forall u: nat, g: nat :: (key, u, g) in w.specs && w.specs[(key, u, g)].body.GrantBody? ==>
      !PG.IsAll(w.specs[(key, u, g)].body.opts.privileges)
  }

  lemma {:induction false} SpecsCameFromUsers(w: World, acts: seq<Action>, key: Key)
    requires Inv(w) && NoAll(w, key) && key.kind == GrantKind
    requires forall i :: 0 <= i < |acts| ==> !GivesAll(acts[i], key)
    ensures NoAll(Replay(w, acts), key)
    decreases |acts|
  {
    if acts != [] {
      var w' := Step(w, acts[0]);
      StepKeeps(w, acts[0]);
      assert KeyInv(w, key);
      assert NoAll(w', key) by {
        hide Step, KeyInv;
        SpecsStep(w, acts[0], key);
      }
      SpecsCameFromUsers(w', acts[1..], key);
    }
  }

  /** A spec is one that was there, or the one that this action brings. */
  ghost predicate SpecSource(w: World, a: Action, key: Key, spec: Spec) {
    || (exists u: nat, g: nat :: (key, u, g) in w.specs && w.specs[(key, u, g)] == spec)
    || ((a.Create? || a.Edit?) && a.key == key && a.spec == spec)
  }

  lemma SpecsStep(w: World, a: Action, key: Key)
    requires KeyInv(w, key)
    ensures forall u: nat, g: nat :: (key, u, g) in Step(w, a).specs ==> SpecSource(w, a, key, Step(w, a).specs[(key, u, g)])
  {
    if a.Work? {
      WorkKeepsSpecs(w, a.key, a.reply);
    } else if IsWrite(a) && a.key == key {
      SpecWritten(w, a);
    } else if IsWrite(a) {
      WriteFrame(w, a, key);
      hide UserStep;
    }
  }

  lemma SpecWritten(w: World, a: Action)
    requires IsWrite(a) && KeyInv(w, a.key)
    ensures forall u: nat, g: nat :: (a.key, u, g) in UserStep(w, a).specs ==>
              SpecSource(w, a, a.key, UserStep(w, a).specs[(a.key, u, g)])
  {
    var live := Live(w.c, a.key);
    if a.MarkDeleted? && live.Some? {
      LiveOk(w, a.key);
      assert (a.key, live.value.uid, live.value.generation) in w.specs;
    }
    hide KeyInv;
  }

  // ---------- when the finalizer goes ----------

  /** The step at which the worker decides to remove the finalizer, and what it has just seen. */
  ghost predicate Decides(w: World, a: Action, key: Key, cr: Object, why: Why) {
    && a == Work(key, Normal) && PhaseOf(Step(w, a), key) == Release(cr, why)
    && match why
       case NotDelete => PhaseOf(w, key) == Idle && Cached(w.c, key) == Some(cr) && cr.spec.policy != Delete
       case Missing(e) =>
         || (e == PgNotFound && PhaseOf(w, key) == Resolve(cr) && !HasPg(w.c, key, cr.spec))
         || (e == SecretNotFound && PhaseOf(w, key).Credentials? && PhaseOf(w, key).cr == cr
             && SuperuserOf(key, cr.spec, PhaseOf(w, key).pg) !in w.c.secrets)
       case CleanedUp(log) =>
         && log != [] && PhaseOf(w, key).Sql? && PhaseOf(w, key).cr == cr && PhaseOf(w, key).log == log[..|log| - 1]
         && Happens(w, a, key, PhaseOf(w, key).conn, log[|log| - 1]) && Completes(CleanupProgram(key, cr.spec), log)
  }

  lemma EntersRelease(w: World, a: Action, key: Key, cr: Object, why: Why)
    requires KeyInv(w, key) && PhaseOf(Step(w, a), key) == Release(cr, why) && PhaseOf(w, key) != Release(cr, why)
    ensures Decides(w, a, key, cr, why)
  {
    hide KeyInv, Decides, WorkStep, EnvStep, ReadOk;
    if !(a.Work? && a.key == key) {
      ForeignKeeps(w, a, key);
    } else {
      OwnKeeps(w, key, a.reply);
      PhaseIsOk(w, key);
      PhaseIsOk(Step(w, a), key);
      if PhaseOf(w, key).Sql? {
        ReleaseBySql(w, a.reply, key, cr, why);
      } else {
        ReleaseByConnect(w, a.reply, key, cr, why);
      }
    }
  }

  lemma ReleaseBySql(w: World, reply: Reply, key: Key, cr: Object, why: Why)
    requires PhaseOf(w, key).Sql? && Next(PhaseOf(w, key).program, PhaseOf(w, key).log) != Finished && WhyOk(key, cr, why)
    requires PhaseOf(WorkStep(w, key, reply), key) == Release(cr, why)
    ensures Decides(w, Work(key, reply), key, cr, why)
  {
    if reply != Crashed {
      var Sql(cr', conn, p, log) := PhaseOf(w, key);
      var e := SqlHappens(w, key, cr', conn, p, log, reply);
      hide Happens, WorkStep, Completes;
      assert e.Some? && why == CleanedUp(log + [e.value]);
    }
  }

  lemma ReleaseByConnect(w: World, reply: Reply, key: Key, cr: Object, why: Why)
    requires !PhaseOf(w, key).Sql? && PhaseOf(w, key) != Release(cr, why)
    requires PhaseOf(WorkStep(w, key, reply), key) == Release(cr, why)
    ensures Decides(w, Work(key, reply), key, cr, why)
  {
    hide StoreStep, ReleaseStep, ReportStep, SqlStep, ApplyProgram, CleanupProgram, Completes, Happens;
    if !IsConnecting(PhaseOf(w, key)) {
      WritingEnds(w, key, reply);
    }
  }

  lemma WritingEnds(w: World, key: Key, reply: Reply)
    requires !PhaseOf(w, key).Sql? && !IsConnecting(PhaseOf(w, key))
    ensures var ph := PhaseOf(WorkStep(w, key, reply), key); ph.Idle? || ph.Report?
  {
    hide StoreFinalizer, DropFinalizer, PatchStatus, Guarded;
  }

  /** In every run, behind a worker about to remove a finalizer stands the step of the same reconcile that
      justified it, with nothing of that worker in between. */
  lemma {:induction false} ReleaseOrigin(w0: World, acts: seq<Action>, n: nat, key: Key, cr: Object, why: Why) returns (j: nat)
    requires Init(w0) && n <= |acts| && PhaseOf(StateAt(w0, acts, n), key) == Release(cr, why)
    ensures j < n && Decides(StateAt(w0, acts, j), acts[j], key, cr, why)
    ensures Waits(w0, acts, j, n, key, Release(cr, why))
    decreases n
  {
    hide Init, StateAt, Step, KeyInv, Decides;
    StartsIdle(w0, acts, key);
    StateNext(w0, acts, n - 1);
    if PhaseOf(StateAt(w0, acts, n - 1), key) == Release(cr, why) {
      j := ReleaseOrigin(w0, acts, n - 1, key, cr, why);
    } else {
      StateKeeps(w0, acts, n - 1, key);
      EntersRelease(StateAt(w0, acts, n - 1), acts[n - 1], key, cr, why);
      j := n - 1;
    }
  }

  /** The course ends at step j with the drop or revoke of this resource's target. */
  ghost predicate WasCleanedUp(w0: World, acts: seq<Action>, j: nat, key: Key, cr: Object, log: seq<Event>, k: Course)
    requires j < |acts|
  {
    && Traced(w0, acts, j + 1, key, k) && Shows(key, k) && Achieved(w0, acts, j + 1, key, k)
    && k.cr == cr && cr.deleted && k.log == log && k.at[|log|] == j
  }

  lemma CleanupOrigin(w0: World, acts: seq<Action>, j: nat, key: Key, cr: Object, log: seq<Event>) returns (k: Course)
    requires Init(w0) && j < |acts| && cr.deleted && Decides(StateAt(w0, acts, j), acts[j], key, cr, CleanedUp(log))
    ensures WasCleanedUp(w0, acts, j, key, cr, log, k)
  {
    hide Init, StateAt, Step, Happens, Completes, ProgramOf;
    k := SqlOrigin(w0, acts, j, key);
    k := TracedOn(w0, acts, j, key, k, log[|log| - 1]);
    assert k.log == log;
    CleanupShows(key, cr.spec, log);
    ShownIsAchieved(w0, acts, j + 1, key, k);
  }

  /** The finalizer of the resource that is live before the step is not there after it. */
  ghost predicate LosesFinalizer(w: World, w': World, key: Key) {
    && Live(w.c, key).Some? && Live(w.c, key).value.fin
    && !Keeps(Live(w.c, key), Live(w'.c, key))
  }

  /** In every run, a finalizer goes only by the resource's own worker, from a resource marked deleted, and on
      grounds that hold for the resource as it is stored at that moment: its policy is not Delete, or its current
      target was dropped or revoked on this server, step by step, in the same reconcile, and was gone at step j, or the
      PostgreSQL resource or its superuser Secret was not found in the same reconcile. */
  lemma FinalizerGoesJustified(w0: World, acts: seq<Action>, a: Action, key: Key) returns (j: nat, why: Why)
    requires Init(w0) && LosesFinalizer(Replay(w0, acts), Step(Replay(w0, acts), a), key)
    ensures var w := Replay(w0, acts);
            var o := Live(w.c, key).value;
            && a.Work? && a.key == key && o.deleted && PhaseOf(w, key) == Release(o, why)
            && j < |acts| && Decides(StateAt(w0, acts, j), acts[j], key, o, why)
            && Waits(w0, acts, j, |acts|, key, Release(o, why))
            && match why
               case NotDelete => o.spec.policy != Delete
               case Missing(_) => true
               case CleanedUp(log) => exists k: Course :: WasCleanedUp(w0, acts, j, key, o, log, k)
  {
    var w := Replay(w0, acts);
    var o := Live(w.c, key).value;
    StateEnds(w0, acts);
    StateKeeps(w0, acts, |acts|, key);
    hide Init, StateAt, Replay, Step, KeyInv, Decides, WasCleanedUp;
    OnlyRelease(w, a, key);
    why := PhaseOf(w, key).why;
    j := ReleaseOrigin(w0, acts, |acts|, key, o, why);
    if why.CleanedUp? {
      var k := CleanupOrigin(w0, acts, j, key, o, why.log);
    }
  }

  lemma OnlyRelease(w: World, a: Action, key: Key)
    requires KeyInv(w, key) && LosesFinalizer(w, Step(w, a), key)
    ensures a.Work? && a.key == key
    ensures PhaseOf(w, key).Release? && PhaseOf(w, key).cr == Live(w.c, key).value && Live(w.c, key).value.deleted
    ensures WhyOk(key, Live(w.c, key).value, PhaseOf(w, key).why)
  {
    hide KeyInv, WorkStep, EnvStep, ReadOk;
    PhaseIsOk(w, key);
    if !a.Work? {
      EnvKeepsFinalizer(w, a, key);
    } else if a.key != key {
      WorkFrame(w, a.key, a.reply, key);
    } else {
      OnlyReleaseWrites(w, key, a.reply);
    }
  }

  lemma EnvKeepsFinalizer(w: World, a: Action, key: Key)
    requires !a.Work? && Live(w.c, key).Some?
    ensures Keeps(Live(w.c, key), Live(EnvStep(w, a).c, key))
  {
    if IsWrite(a) && a.key != key {
      WriteFrame(w, a, key);
    } else if IsWrite(a) {
      UserKeepsFinalizer(w, a);
    }
    hide UserStep, UserWrite;
  }

  lemma UserKeepsFinalizer(w: World, a: Action)
    requires IsWrite(a) && Live(w.c, a.key).Some?
    ensures Keeps(Live(w.c, a.key), Live(UserStep(w, a).c, a.key))
  {
  }

  /** What a worker's step does to its own live resource. */
  ghost predicate OwnWrite(w: World, key: Key, o: Object, after: Option<Object>) {
    || after == Some(o)
    || (PhaseOf(w, key) == Store(o) && after == Some(o.(fin := true, rv := w.c.rev)))
    || (PhaseOf(w, key).Release? && PhaseOf(w, key).cr == o
        && after == (if o.others == {} then None else Some(o.(fin := false, rv := w.c.rev))))
    || (PhaseOf(w, key).Report? && after.Some? && after == Some(o.(conditions := after.value.conditions, rv := w.c.rev)))
  }

  lemma StoreWrites(w: World, key: Key, cr: Object, reply: Reply)
    requires PhaseOf(w, key) == Store(cr) && ReadOk(w, key, cr) && Live(w.c, key).Some?
    ensures OwnWrite(w, key, Live(w.c, key).value, Live(StoreStep(w, key, cr, reply).c, key))
  {
    if Guarded(w.c, key, cr) {
      GuardedIsLive(w, key, cr);
    }
  }

  lemma ReleaseWrites(w: World, key: Key, cr: Object, reply: Reply)
    requires PhaseOf(w, key).Release? && PhaseOf(w, key).cr == cr && ReadOk(w, key, cr) && cr.deleted && Live(w.c, key).Some?
    ensures OwnWrite(w, key, Live(w.c, key).value, Live(ReleaseStep(w, key, cr, reply).c, key))
  {
    if Guarded(w.c, key, cr) {
      GuardedIsLive(w, key, cr);
    }
  }

  lemma ReportWrites(w: World, key: Key, cr: Object, ok: bool, m: Message, reply: Reply)
    requires PhaseOf(w, key) == Report(cr, ok, m) && Live(w.c, key).Some?
    ensures OwnWrite(w, key, Live(w.c, key).value, Live(ReportStep(w, key, cr, ok, m, reply).c, key))
  {
  }

  lemma Unwritten(w: World, key: Key)
    requires Live(w.c, key).Some?
    ensures OwnWrite(w, key, Live(w.c, key).value, Live(w.c, key))
  {
  }

  lemma OnlyReleaseWrites(w: World, key: Key, reply: Reply)
    requires KeyInv(w, key) && Live(w.c, key).Some?
    ensures OwnWrite(w, key, Live(w.c, key).value, Live(WorkStep(w, key, reply).c, key))
  {
    hide KeyInv, ReadOk, OwnWrite, StoreStep, ReleaseStep, ReportStep, SqlStep;
    hide ReadStep, ResolveStep, CredentialsStep, DialStep, PasswordStep;
    PhaseIsOk(w, key);
    Unwritten(w, key);
    if reply != Crashed {
      match PhaseOf(w, key)
      case Store(cr) => StoreWrites(w, key, cr, reply);
      case Release(cr, _) => ReleaseWrites(w, key, cr, reply);
      case Report(cr, ok, m) => ReportWrites(w, key, cr, ok, m, reply);
      case Sql(_, _, _, _) => SqlKeepsStore(w, key, reply);
      case _ => ConnectingMoves(w, key, reply);
    }
  }

  lemma SqlKeepsStore(w: World, key: Key, reply: Reply)
    requires PhaseOf(w, key).Sql?
    ensures WorkStep(w, key, reply).c.store == w.c.store
  {
    hide PG.Exec, PG.Answer, Next, Onward, Fail;
  }

  // ---------- cleanups that cannot succeed ----------

  /** The cleanup of this spec is not skipped: its policy is Delete, and the PostgreSQL resource is there and names one
      of these Secrets, which are all there. */
  ghost predicate Bound(c: Cluster, key: Key, spec: Spec, ids: set<(string, string)>) {
    && spec.policy == Delete && HasPg(c, key, spec)
    && SuperuserOf(key, spec, PgOf(c, key, spec)) in ids && ids <= c.secrets.Keys
  }

  /** Nor does it succeed: a grant's database is gone, or things on the server depend on a user's role. */
  ghost predicate Hopeless(c: Cluster, key: Key, spec: Spec, ids: set<(string, string)>) {
    && Bound(c, key, spec, ids)
    && match spec.body
       case GrantBody(g) => g.database !in c.server.databases
       case UserBody(_, _) =>
         NameOf(key, spec.body) in c.server.roles && PG.HasDependents(c.server, NameOf(key, spec.body))
       case DatabaseBody(_) => false
  }

  /** The worker is not past the connection with the resource as it is now stored. */
  ghost predicate NotPast(w: World, key: Key, ids: set<(string, string)>) {
    var ph := PhaseOf(w, key);
    var live := Live(w.c, key);
    && (ph.Release? ==> live != Some(ph.cr))
    && (ph.Credentials? && live == Some(ph.cr) ==> SuperuserOf(key, ph.cr.spec, ph.pg) in ids)
  }

  ghost predicate Held(w: World, key: Key) {
    Live(w.c, key).Some? && Live(w.c, key).value.deleted && Live(w.c, key).value.fin
  }

  ghost predicate Stuck(w: World, key: Key, ids: set<(string, string)>) {
    Held(w, key) && Hopeless(w.c, key, Live(w.c, key).value.spec, ids) && NotPast(w, key, ids)
  }

  /** The role's cleanup gets no further than to its DROP ROLE. */
  lemma DropStalls(s: PG.Server, u: PG.Server, key: Key, cr: Object, conn: PG.Conn, log: seq<Event>, e: Event)
    requires cr.spec.body.UserBody?
    requires Conforms(CleanupProgram(key, cr.spec), log) && IsNext(CleanupProgram(key, cr.spec), log, e) && Performs(s, u, conn, e)
    requires NameOf(key, cr.spec.body) in s.roles && PG.HasDependents(s, NameOf(key, cr.spec.body))
    ensures Next(CleanupProgram(key, cr.spec), log + [e]) != Finished
  {
  }

  lemma StallsBySql(w: World, key: Key, reply: Reply, ids: set<(string, string)>)
    requires PhaseOk(w, key, PhaseOf(w, key)) && Stuck(w, key, ids) && PhaseOf(w, key).Sql?
    requires PhaseOf(w, key).cr == Live(w.c, key).value
    ensures var ph := PhaseOf(WorkStep(w, key, reply), key); ph.Idle? || ph.Sql?
  {
    var Sql(cr, conn, p, log) := PhaseOf(w, key);
    if reply != Crashed {
      hide PG.HasDependents, ReadOk;
      if cr.spec.body.GrantBody? {
        assert WorkStep(w, key, reply) == SqlStep(w, key, cr, conn, p, log, reply);
      } else {
        var e := SqlHappens(w, key, cr, conn, p, log, reply);
        if e.Some? {
          DropStalls(w.c.server, Step(w, Work(key, reply)).c.server, key, cr, conn, log, e.value);
        }
      }
    }
  }

  lemma SqlLeadsOn(w: World, key: Key, reply: Reply)
    requires PhaseOf(w, key).Sql?
    ensures var ph := PhaseOf(WorkStep(w, key, reply), key);
            !ph.Credentials? && (ph.Release? ==> ph.cr == PhaseOf(w, key).cr)
  {
    hide PG.Exec, Next;
  }

  lemma ConnectLeadsOn(w: World, key: Key, reply: Reply)
    requires IsConnecting(PhaseOf(w, key))
    ensures var w' := WorkStep(w, key, reply);
            var ph := PhaseOf(w', key);
            && (ph.Credentials? && ph != PhaseOf(w, key) ==>
                  HasPg(w.c, key, ph.cr.spec) && ph.pg == PgOf(w.c, key, ph.cr.spec))
            && (ph.Release? ==>
                  || ph.cr.spec.policy != Delete
                  || !HasPg(w.c, key, ph.cr.spec)
                  || (PhaseOf(w, key).Credentials? && PhaseOf(w, key).cr == ph.cr
                      && SuperuserOf(key, ph.cr.spec, PhaseOf(w, key).pg) !in w.c.secrets))
  {
    hide SqlStep, StoreStep, ReleaseStep, ReportStep, ApplyProgram, CleanupProgram;
  }

  lemma StuckBySql(w: World, key: Key, reply: Reply, ids: set<(string, string)>)
    requires KeyInv(w, key) && Stuck(w, key, ids) && PhaseOf(w, key).Sql?
    ensures Held(WorkStep(w, key, reply), key) && NotPast(WorkStep(w, key, reply), key, ids)
  {
    hide KeyInv, PhaseOk, WorkStep, Hopeless;
    PhaseIsOk(w, key);
    SqlKeepsStore(w, key, reply);
    if PhaseOf(w, key).cr == Live(w.c, key).value {
      StallsBySql(w, key, reply, ids);
    } else {
      SqlLeadsOn(w, key, reply);
    }
  }

  lemma StuckByConnect(w: World, key: Key, reply: Reply, ids: set<(string, string)>)
    requires KeyInv(w, key) && Stuck(w, key, ids) && IsConnecting(PhaseOf(w, key))
    ensures Held(WorkStep(w, key, reply), key) && NotPast(WorkStep(w, key, reply), key, ids)
  {
    hide KeyInv, WorkStep, HomeOf;
    ConnectLeadsOn(w, key, reply);
    ConnectingMoves(w, key, reply);
  }

  lemma StuckByWriting(w: World, key: Key, reply: Reply, ids: set<(string, string)>)
    requires KeyInv(w, key) && Stuck(w, key, ids) && !PhaseOf(w, key).Sql? && !IsConnecting(PhaseOf(w, key))
    ensures Held(WorkStep(w, key, reply), key) && NotPast(WorkStep(w, key, reply), key, ids)
  {
    hide KeyInv, WorkStep, Hopeless;
    OnlyReleaseWrites(w, key, reply);
    WritingEnds(w, key, reply);
  }

  /** The phase is of a version that was there. */
  lemma PhaseIsOld(w: World, key: Key)
    requires KeyInv(w, key) && !PhaseOf(w, key).Idle?
    ensures PhaseOf(w, key).cr.rv < w.c.rev
  {
  }

  lemma StuckByOthers(w: World, a: Action, key: Key, ids: set<(string, string)>)
    requires KeyInv(w, key) && Stuck(w, key, ids) && !(a.Work? && a.key == key)
    ensures Held(Step(w, a), key) && NotPast(Step(w, a), key, ids)
  {
    hide KeyInv, Hopeless, WorkStep, EnvStep;
    ForeignKeeps(w, a, key);
    if a.Work? {
      WorkFrame(w, a.key, a.reply, key);
    } else {
      StuckByEnv(w, a, key);
      if !PhaseOf(w, key).Idle? {
        PhaseIsOld(w, key);
      }
    }
  }

  lemma StuckByEnv(w: World, a: Action, key: Key)
    requires !a.Work? && Live(w.c, key).Some? && Live(w.c, key).value.deleted && Live(w.c, key).value.fin
    ensures var after := Live(EnvStep(w, a).c, key);
            && after.Some? && after.value.deleted && after.value.fin
            && (after == Live(w.c, key) || after.value.rv == w.c.rev)
  {
    if IsWrite(a) && a.key != key {
      WriteFrame(w, a, key);
    } else if IsWrite(a) {
      StuckByUser(w, a);
    }
    hide UserStep, UserWrite;
  }

  lemma StuckByUser(w: World, a: Action)
    requires IsWrite(a) && Live(w.c, a.key).Some? && Live(w.c, a.key).value.deleted && Live(w.c, a.key).value.fin
    ensures var after := Live(UserStep(w, a).c, a.key);
            && after.Some? && after.value.deleted && after.value.fin
            && (after == Live(w.c, a.key) || after.value.rv == w.c.rev)
  {
  }

  lemma StuckByStep(w: World, a: Action, key: Key, ids: set<(string, string)>)
    requires KeyInv(w, key) && Stuck(w, key, ids)
    ensures Held(Step(w, a), key) && NotPast(Step(w, a), key, ids)
  {
    hide KeyInv, Stuck, Held, NotPast;
    if !(a.Work? && a.key == key) {
      StuckByOthers(w, a, key, ids);
    } else if PhaseOf(w, key).Sql? {
      StuckBySql(w, key, a.reply, ids);
    } else if IsConnecting(PhaseOf(w, key)) {
      StuckByConnect(w, key, a.reply, ids);
    } else {
      StuckByWriting(w, key, a.reply, ids);
    }
  }

  lemma StateHolds(w: World, acts: seq<Action>, n: nat, key: Key)
    requires Inv(w) && n <= |acts|
    ensures KeyInv(StateAt(w, acts, n), key)
  {
    hide KeyInv;
    ReplayKeeps(w, acts[..n]);
  }

  lemma {:induction false} StaysStuck(w: World, acts: seq<Action>, n: nat, key: Key, ids: set<(string, string)>)
    requires Inv(w) && Stuck(w, key, ids) && n <= |acts|
    requires forall i: nat :: i <= |acts| && Live(StateAt(w, acts, i).c, key).Some? ==>
               Hopeless(StateAt(w, acts, i).c, key, Live(StateAt(w, acts, i).c, key).value.spec, ids)
    ensures Stuck(StateAt(w, acts, n), key, ids)
    decreases n
  {
    hide Inv, KeyInv, StateAt, Replay, Step, Hopeless, NotPast;
    if n == 0 {
      StateEnds(w, acts);
    } else {
      StateHolds(w, acts, n - 1, key);
      StaysStuck(w, acts, n - 1, key, ids);
      StateNext(w, acts, n - 1);
      StuckByStep(StateAt(w, acts, n - 1), acts[n - 1], key, ids);
    }
  }

  /** In every run from such a state, a deleted Grant keeps its finalizer for as long as its database stays away, its
      policy stays Delete, and the PostgreSQL resource and every Secret that it names stay. */
  lemma BlockedGrant(w: World, acts: seq<Action>, key: Key, ids: set<(string, string)>)
    requires Inv(w) && Held(w, key) && NotPast(w, key, ids)
    requires forall i: nat :: i <= |acts| && Live(StateAt(w, acts, i).c, key).Some? ==>
               var (c, spec) := (StateAt(w, acts, i).c, Live(StateAt(w, acts, i).c, key).value.spec);
               Bound(c, key, spec, ids) && spec.body.GrantBody? && spec.body.opts.database !in c.server.databases
    ensures Held(Replay(w, acts), key)
  {
    StateEnds(w, acts);
    StaysStuck(w, acts, |acts|, key, ids);
  }

  // ---------- a role that holds USAGE ----------

  lemma NeverRevokesUsage(key: Key, spec: Spec, password: Bytes, log: seq<Event>)
    ensures var op := Next(ApplyProgram(key, spec, password), log); op.RunOp? ==> !op.stmt.RevokeOnSchema?
    ensures var op := Next(CleanupProgram(key, spec), log); op.RunOp? && op.stmt.RevokeOnSchema? ==> op.stmt.priv == PG.Create
  {
  }

  lemma UsageThroughSql(w: World, key: Key, reply: Reply, r: PG.Name, d: PG.Name, n: PG.Name)
    requires PhaseOk(w, key, PhaseOf(w, key)) && PhaseOf(w, key).Sql? && reply != Crashed
    requires Statements.HoldsUsage(w.c.server, r, d, n) && d in WorkStep(w, key, reply).c.server.databases
    ensures Statements.HoldsUsage(WorkStep(w, key, reply).c.server, r, d, n)
  {
    var Sql(cr, conn, p, log) := PhaseOf(w, key);
    SqlOutcome(w, key, reply);
    if cr.deleted {
      NeverRevokesUsage(key, cr.spec, [], log);
    } else {
      var password: Bytes :| p == ApplyProgram(key, cr.spec, password);
      NeverRevokesUsage(key, cr.spec, password, log);
    }
    hide WorkStep, PhaseOk, ApplyProgram, CleanupProgram, Statements.HoldsUsage;
    if Next(p, log).RunOp? {
      var stmt := Next(p, log).stmt;
      var u := PG.Exec(w.c.server, conn, stmt);
      if u.Some? && WorkStep(w, key, reply).c != w.c {
        assert stmt != PG.DropDatabase(d);
        Statements.UsageStays(w.c.server, r, d, n, conn, stmt);
      }
    }
  }

  lemma SqlOutcome(w: World, key: Key, reply: Reply)
    requires PhaseOf(w, key).Sql? && reply != Crashed
    ensures var ph := PhaseOf(w, key);
            var c' := WorkStep(w, key, reply).c;
            c' == w.c || (Next(ph.program, ph.log).RunOp?
                          && var r := PG.Exec(w.c.server, ph.conn, Next(ph.program, ph.log).stmt);
                             r.Some? && c' == w.c.(server := r.value))
  {
    hide PG.Exec, Next;
  }

  lemma EnvKeepsServer(w: World, a: Action)
    requires !a.Work?
    ensures EnvStep(w, a).c.server == if a.Sessions? then a.server else w.c.server
  {
    hide Live, Find, Fits;
  }

  lemma UsageThroughStep(w: World, a: Action, r: PG.Name, d: PG.Name, n: PG.Name)
    requires a.Work? ==> KeyInv(w, a.key)
    requires Statements.HoldsUsage(w.c.server, r, d, n) && d in Step(w, a).c.server.databases
    requires a.Sessions? ==> Statements.HoldsUsage(a.server, r, d, n)
    ensures Statements.HoldsUsage(Step(w, a).c.server, r, d, n)
  {
    hide Statements.HoldsUsage, KeyInv, PhaseOk, WorkStep, EnvStep;
    if !a.Work? {
      EnvKeepsServer(w, a);
    } else if PhaseOf(w, a.key).Sql? && a.reply != Crashed {
      PhaseIsOk(w, a.key);
      UsageThroughSql(w, a.key, a.reply, r, d, n);
    } else {
      OnlySqlTouchesServer(w, a.key, a.reply);
    }
  }

  /** In every run, a role that holds USAGE on a schema keeps it for as long as the database stays, whatever grants,
      revokes, drops and password changes any resources' workers bring, and cannot be dropped. Other sessions must
      leave it the entry. */
  lemma {:induction false} UsageStaysUntilDrop(w: World, acts: seq<Action>, m: nat, r: PG.Name, d: PG.Name, n: PG.Name)
    requires Inv(w) && Statements.HoldsUsage(w.c.server, r, d, n) && m <= |acts|
    requires forall i: nat :: i <= |acts| ==> d in StateAt(w, acts, i).c.server.databases
    requires forall i: nat :: i < |acts| && acts[i].Sessions? ==> Statements.HoldsUsage(acts[i].server, r, d, n)
    ensures Statements.HoldsUsage(StateAt(w, acts, m).c.server, r, d, n)
    ensures forall conn :: PG.Exec(StateAt(w, acts, m).c.server, conn, PG.DropRole(r)).None?
    decreases m
  {
    hide Inv, KeyInv, StateAt, Step, Statements.HoldsUsage, PG.Exec;
    if m == 0 {
      StateEnds(w, acts);
    } else {
      UsageStaysUntilDrop(w, acts, m - 1, r, d, n);
      if acts[m - 1].Work? {
        StateHolds(w, acts, m - 1, acts[m - 1].key);
      }
      StateNext(w, acts, m - 1);
      UsageThroughStep(StateAt(w, acts, m - 1), acts[m - 1], r, d, n);
    }
    forall conn
      ensures PG.Exec(StateAt(w, acts, m).c.server, conn, PG.DropRole(r)).None?
    {
      Statements.UsageBlocksDrop(StateAt(w, acts, m).c.server, r, d, n, conn);
    }
  }

  /** In every run from such a state, a deleted User whose role holds USAGE in a database keeps its finalizer, and the
      role stays, until the database is dropped, the policy or the role's name is edited, the PostgreSQL resource or a
      Secret that it names goes, or another session takes the entry away. */
  lemma BlockedUser(w: World, acts: seq<Action>, key: Key, ids: set<(string, string)>, r: PG.Name, d: PG.Name, n: PG.Name)
    requires Inv(w) && Held(w, key) && NotPast(w, key, ids) && Statements.HoldsUsage(w.c.server, r, d, n)
    requires forall i: nat :: i <= |acts| ==> d in StateAt(w, acts, i).c.server.databases
    requires forall i: nat :: i < |acts| && acts[i].Sessions? ==> Statements.HoldsUsage(acts[i].server, r, d, n)
    requires forall i: nat :: i <= |acts| && Live(StateAt(w, acts, i).c, key).Some? ==>
               var (c, spec) := (StateAt(w, acts, i).c, Live(StateAt(w, acts, i).c, key).value.spec);
               Bound(c, key, spec, ids) && spec.body.UserBody? && NameOf(key, spec.body) == r
    ensures Held(Replay(w, acts), key) && r in Replay(w, acts).c.server.roles
  {
    StateEnds(w, acts);
    hide Inv, StateAt, Replay, Bound, NotPast;
    forall i: nat | i <= |acts| && Live(StateAt(w, acts, i).c, key).Some?
      ensures Hopeless(StateAt(w, acts, i).c, key, Live(StateAt(w, acts, i).c, key).value.spec, ids)
    {
      UsageStaysUntilDrop(w, acts, i, r, d, n);
      Statements.UsageBlocksDrop(StateAt(w, acts, i).c.server, r, d, n, PG.Conn(d));
    }
    UsageStaysUntilDrop(w, acts, |acts|, r, d, n);
    StaysStuck(w, acts, |acts|, key, ids);
  }

  // ---------- where drops and revokes come from ----------

  /** In every run, a worker about to send a DROP or a REVOKE holds a resource it read with a deletion mark, the
      finalizer and policy Delete. */
  lemma DropProvenance(w0: World, acts: seq<Action>, key: Key)
    requires Init(w0)
    ensures var ph := PhaseOf(Replay(w0, acts), key);
            ph.Sql? && Next(ph.program, ph.log).RunOp? && PG.IsDestructive(Next(ph.program, ph.log).stmt) ==>
              ph.cr.deleted && ph.cr.fin && ph.cr.spec.policy == Delete
  {
    RunKeeps(w0, acts);
    assert KeyInv(Replay(w0, acts), key);
    var ph := PhaseOf(Replay(w0, acts), key);
    if ph.Sql? && !ph.cr.deleted {
      var password: Bytes :| ph.program == ApplyProgram(key, ph.cr.spec, password);
      ApplyNeverDestroys(key, ph.cr.spec, password, ph.log);
    }
  }

  lemma ApplyNeverDestroys(key: Key, spec: Spec, password: Bytes, log: seq<Event>)
    ensures var op := Next(ApplyProgram(key, spec, password), log);
            op.RunOp? ==> !PG.IsDestructive(op.stmt)
  {
  }

  ghost predicate NoDelete(w: World) {
    forall k: Key, u: nat, g: nat :: (k, u, g) in w.specs ==> w.specs[(k, u, g)].policy != Delete
  }

  lemma SqlGrows(w: World, key: Key, reply: Reply)
    requires PhaseOf(w, key).Sql? && reply != Crashed
    requires var op := Next(PhaseOf(w, key).program, PhaseOf(w, key).log); op.RunOp? ==> !PG.IsDestructive(op.stmt)
    ensures PG.Grows(w.c.server, WorkStep(w, key, reply).c.server)
  {
    var Sql(cr, conn, p, log) := PhaseOf(w, key);
    SqlOutcome(w, key, reply);
    hide WorkStep;
    if Next(p, log).RunOp? && PG.Exec(w.c.server, conn, Next(p, log).stmt).Some? {
      PG.OthersGrow(w.c.server, conn, Next(p, log).stmt);
    }
  }

  lemma WorkGrows(w: World, key: Key, reply: Reply)
    requires KeyInv(w, key) && NoDelete(w)
    ensures PG.Grows(w.c.server, WorkStep(w, key, reply).c.server)
  {
    var ph := PhaseOf(w, key);
    if ph.Sql? && reply != Crashed {
      var Sql(cr, conn, p, log) := ph;
      assert !cr.deleted by { assert (key, cr.uid, cr.generation) in w.specs; }
      var password: Bytes :| p == ApplyProgram(key, cr.spec, password);
      hide KeyInv, WorkStep, PG.Grows;
      ApplyNeverDestroys(key, cr.spec, password, log);
      SqlGrows(w, key, reply);
    } else {
      OnlySqlTouchesServer(w, key, reply);
    }
  }

  lemma OnlySqlTouchesServer(w: World, key: Key, reply: Reply)
    requires PhaseOf(w, key).Sql? ==> reply == Crashed
    ensures WorkStep(w, key, reply).c.server == w.c.server
  {
    if IsConnecting(PhaseOf(w, key)) {
      ConnectingMoves(w, key, reply);
    }
    hide ReadStep, ResolveStep, CredentialsStep, DialStep, PasswordStep, SqlStep, SetCondition;
  }

  /** In every run in which no resource is ever given policy Delete, no step of the operator takes a database, a
      role or an entry of an access control list away. */
  lemma NoDeleteNoShrink(w0: World, acts: seq<Action>, i: nat)
    requires Init(w0) && i < |acts| && acts[i].Work?
    requires forall j :: 0 <= j < |acts| && (acts[j].Create? || acts[j].Edit?) ==> acts[j].spec.policy != Delete
    ensures PG.Grows(StateAt(w0, acts, i).c.server, StateAt(w0, acts, i + 1).c.server)
  {
    RunKeeps(w0, []);
    assert Replay(w0, []) == w0;
    NoDeleteStays(w0, acts[..i]);
    StateNext(w0, acts, i);
    StateKeeps(w0, acts, i, acts[i].key);
    WorkGrows(StateAt(w0, acts, i), acts[i].key, acts[i].reply);
  }

  lemma {:induction false} NoDeleteStays(w: World, acts: seq<Action>)
    requires Inv(w) && NoDelete(w)
    requires forall j :: 0 <= j < |acts| && (acts[j].Create? || acts[j].Edit?) ==> acts[j].spec.policy != Delete
    ensures NoDelete(Replay(w, acts))
    decreases |acts|
  {
    if acts != [] {
      var w' := Step(w, acts[0]);
      StepKeeps(w, acts[0]);
      forall k: Key, u: nat, g: nat | (k, u, g) in w'.specs
        ensures w'.specs[(k, u, g)].policy != Delete
      {
        assert KeyInv(w, k);
        hide Step, KeyInv;
        SpecsStep(w, acts[0], k);
      }
      NoDeleteStays(w', acts[1..]);
    }
  }
}
