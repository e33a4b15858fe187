/** Reconciling again changes nothing, and a bounded number of faults delays the goal by as many attempts. */
module Convergence {
  import opened Base
  import opened Api
  import opened Protocol
  import opened Promises
  import opened Attempts
  import opened Undisturbed
  import opened Safety
  import Runs
  import PG = Postgres
  import Statements
  import Literals
  import Grants

  // ---------- idempotence ----------

  /** What a status patch of the live resource leaves. */
  lemma Patched(c: Cluster, key: Key, o: Object, ok: bool, m: Message)
    requires Live(c, key) == Some(o)
    ensures var c' := PatchStatus(c, key, o, ok, m);
            var cs := SetCondition(o.conditions, NewCondition(c, o, ok, m));
            && Live(c', key).Some?
            && Live(c', key) == Some(o.(conditions := cs, rv := Live(c', key).value.rv))
            && c'.server == c.server && c'.pgs == c.pgs && c'.secrets == c.secrets && c'.clock == c.clock
  {
  }

  lemma PatchTwice(c: Cluster, key: Key, o: Object, ok: bool, m: Message, c2: Cluster)
    requires Live(c, key) == Some(o) && Live(c2, key) == Live(PatchStatus(c, key, o, ok, m), key)
    ensures PatchStatus(c2, key, Live(c2, key).value, ok, m) == c2
  {
    Patched(c, key, o, ok, m);
    SetTwice(o.conditions, NewCondition(c, o, ok, m), c2.clock);
    var o2 := Live(c2, key).value;
    assert NewCondition(c2, o2, ok, m) == NewCondition(c, o, ok, m).(transition := c2.clock);
  }

  /** The state a second reconcile starts from: the same stores, the cache caught up, some time later. */
  function Later(c: Cluster, key: Key, time: nat): Cluster {
    Sync(c.(clock := time), key)
  }

  lemma LaterKeeps(c: Cluster, key: Key, time: nat)
    ensures var c2 := Later(c, key, time);
            && Versions(c2, key) == [Live(c, key)] && Cached(c2, key) == Live(c2, key) == Live(c, key)
            && c2.server == c.server && c2.pgs == c.pgs && c2.secrets == c.secrets
  {
  }

  /** A reconcile that finds its statements absorbed and its report in place changes nothing. */
  lemma NothingToApply(c: Cluster, key: Key, o: Object, conn: PG.Conn, password: Bytes, ok: bool)
    requires Cached(c, key) == Some(o) && !o.deleted
    requires Connect(c, key, o.spec) == Connected(conn) && LookUp(c, key, o.spec) == Found(password)
    requires Execute(c.server, conn, ApplyProgram(key, o.spec, password)) == (c.server, ok)
    requires ok ==> o.fin
    requires PatchStatus(c, key, o, ok, if ok then SuccessMessage(key, o.spec) else Failed(SqlFailed)) == c
    ensures Reconciled(c, key) == c
  {
    assert c.(server := c.server) == c;
  }

  lemma ExecuteKeepsSession(s: PG.Server, conn: PG.Conn, p: Program)
    ensures conn.database in s.databases ==> conn.database in Execute(s, conn, p).0.databases
  {
    if conn.database in s.databases {
      Statements.RunKeepsSession(s, conn, if p.Run? then p.stmts else if PG.Answer(s, p.question) then p.yes else p.no);
    }
  }

  /** What a reconcile leaves whose statements have been run. */
  lemma ExecutedLeaves(c: Cluster, key: Key, cr: Object, conn: PG.Conn, password: Bytes)
    requires Live(c, key) == Some(cr) && !cr.deleted
    requires Connect(c, key, cr.spec) == Connected(conn) && LookUp(c, key, cr.spec) == Found(password)
    ensures var (s, ok) := Execute(c.server, conn, ApplyProgram(key, cr.spec, password));
            var m := if ok then SuccessMessage(key, cr.spec) else Failed(SqlFailed);
            var d := WithFinalizer(c.(server := s), key, cr, ok);
            && Live(d, key).Some? && Live(d, key).value.spec == cr.spec && !Live(d, key).value.deleted
            && Live(d, key).value.generation == cr.generation
            && (ok ==> Live(d, key).value.fin)
            && d.server == s && d.pgs == c.pgs && d.secrets == c.secrets
            && ApplyRun(c, key, cr) == PatchStatus(d, key, Live(d, key).value, ok, m)
  {
    hide Execute, PatchStatus, ApplyProgram;
  }

  /** The finalizer is stored, before the report. */
  function WithFinalizer(c: Cluster, key: Key, cr: Object, ok: bool): Cluster
    requires Live(c, key).Some?
  {
    if ok && !cr.fin then StoreFinalizer(c, key, cr) else c
  }

  lemma ExecutedTwice(c: Cluster, key: Key, cr: Object, conn: PG.Conn, password: Bytes, time: nat)
    requires Live(c, key) == Some(cr) && !cr.deleted
    requires Connect(c, key, cr.spec) == Connected(conn) && LookUp(c, key, cr.spec) == Found(password)
    ensures var c2 := Later(ApplyRun(c, key, cr), key, time); Reconciled(c2, key) == c2
  {
    hide ApplyRun, Execute, PatchStatus, ApplyProgram, WithFinalizer, Reconciled, Later;
    var c1 := ApplyRun(c, key, cr);
    var c2 := Later(c1, key, time);
    LaterKeeps(c1, key, time);
    var p := ApplyProgram(key, cr.spec, password);
    ExecuteTwice(c.server, conn, key, cr.spec, p);
    ExecuteKeepsSession(c.server, conn, p);
    var (s, ok) := Execute(c.server, conn, p);
    var m := if ok then SuccessMessage(key, cr.spec) else Failed(SqlFailed);
    ExecutedLeaves(c, key, cr, conn, password);
    var d := WithFinalizer(c.(server := s), key, cr, ok);
    var o := Live(d, key).value;
    Patched(d, key, o, ok, m);
    PatchTwice(d, key, o, ok, m, c2);
    NothingToApply(c2, key, Live(c2, key).value, conn, password, ok);
  }

  lemma ReportedTwice(c: Cluster, key: Key, cr: Object, e: Error, time: nat)
    requires Live(c, key) == Some(cr) && !cr.deleted
    requires Connect(c, key, cr.spec) == NotConnected(e)
          || (Connect(c, key, cr.spec).Connected? && LookUp(c, key, cr.spec) == NotFound(e))
    ensures var c2 := Later(ApplyRun(c, key, cr), key, time); Reconciled(c2, key) == c2
  {
    var c1 := ApplyRun(c, key, cr);
    var c2 := Later(c1, key, time);
    LaterKeeps(c1, key, time);
    Patched(c, key, cr, false, Failed(e));
    PatchTwice(c, key, cr, false, Failed(e), c2);
  }

  lemma ApplyTwice(c: Cluster, key: Key, cr: Object, time: nat)
    requires Live(c, key) == Some(cr) && !cr.deleted
    ensures var c2 := Later(ApplyRun(c, key, cr), key, time); Reconciled(c2, key) == c2
  {
    match Connect(c, key, cr.spec)
    case NotConnected(e) => ReportedTwice(c, key, cr, e, time);
    case Connected(conn) =>
      match LookUp(c, key, cr.spec)
      case NotFound(e) => ReportedTwice(c, key, cr, e, time);
      case Found(password) => ExecutedTwice(c, key, cr, conn, password, time);
  }

  /** Once released, or without the operator's finalizer, a deleted resource is left alone. */
  lemma NothingToClean(c: Cluster, key: Key)
    requires Cached(c, key).Some? ==> Cached(c, key).value.deleted && !Cached(c, key).value.fin
    ensures Reconciled(c, key) == c
  {
  }

  lemma RemovedIsGone(c: Cluster, key: Key, cr: Object)
    requires Live(c, key) == Some(cr) && cr.deleted
    ensures var o := Live(Removed(c, key, cr), key); o.Some? ==> o.value.deleted && !o.value.fin
  {
  }

  lemma CleanupFailedTwice(c: Cluster, key: Key, cr: Object, conn: PG.Conn, time: nat)
    requires Live(c, key) == Some(cr) && cr.deleted && cr.fin && cr.spec.policy == Delete
    requires Connect(c, key, cr.spec) == Connected(conn)
    requires !Execute(c.server, conn, CleanupProgram(key, cr.spec)).1
    ensures var c2 := Later(CleanupRun(c, key, cr), key, time); Reconciled(c2, key) == c2
  {
    var c1 := CleanupRun(c, key, cr);
    var c2 := Later(c1, key, time);
    LaterKeeps(c1, key, time);
    var p := CleanupProgram(key, cr.spec);
    ExecuteTwice(c.server, conn, key, cr.spec, p);
    ExecuteKeepsSession(c.server, conn, p);
    assert c2.(server := c2.server) == c2;
  }

  /** A cleanup that cannot connect, or is not called for. */
  lemma CleanupWithoutSql(c: Cluster, key: Key, cr: Object, time: nat)
    requires Live(c, key) == Some(cr) && cr.deleted
    requires cr.fin && cr.spec.policy == Delete ==> Connect(c, key, cr.spec).NotConnected?
    ensures var c2 := Later(CleanupRun(c, key, cr), key, time); Reconciled(c2, key) == c2
  {
    var c1 := CleanupRun(c, key, cr);
    LaterKeeps(c1, key, time);
    RemovedIsGone(c, key, cr);
    if cr.fin && cr.spec.policy == Delete && !IsNotFound(Connect(c, key, cr.spec).error) {
      assert Connect(Later(c1, key, time), key, cr.spec) == Connect(c, key, cr.spec);
    } else {
      NothingToClean(Later(c1, key, time), key);
    }
  }

  lemma CleanupTwice(c: Cluster, key: Key, cr: Object, time: nat)
    requires Live(c, key) == Some(cr) && cr.deleted
    ensures var c2 := Later(CleanupRun(c, key, cr), key, time); Reconciled(c2, key) == c2
  {
    hide Connect, Execute, Removed, Later, Reconciled, CleanupProgram;
    if cr.fin && cr.spec.policy == Delete && Connect(c, key, cr.spec).Connected? {
      var conn := Connect(c, key, cr.spec).conn;
      var (s, ok) := Execute(c.server, conn, CleanupProgram(key, cr.spec));
      if ok {
        LaterKeeps(CleanupRun(c, key, cr), key, time);
        RemovedIsGone(c.(server := s), key, cr);
        NothingToClean(Later(CleanupRun(c, key, cr), key, time), key);
      } else {
        CleanupFailedTwice(c, key, cr, conn, time);
      }
    } else {
      CleanupWithoutSql(c, key, cr, time);
    }
  }

  /** A second undisturbed reconcile, with nothing changed in between but the time, changes nothing at all: not the
      server, not the finalizer, not the conditions with their transition times, not even a resource version. It
      makes no difference whether the first one succeeded. */
  lemma ReconcileTwice(c: Cluster, key: Key, time: nat)
    requires |Versions(c, key)| == 1
    ensures var c2 := Later(Reconciled(c, key), key, time); Reconciled(c2, key) == c2
  {
    match Live(c, key)
    case None => LaterKeeps(c, key, time);
    case Some(cr) =>
      if cr.deleted {
        CleanupTwice(c, key, cr, time);
      } else {
        ApplyTwice(c, key, cr, time);
      }
  }

  // ---------- smooth reconciles ----------

  /** Without faults, this apply goes through. */
  predicate ApplyFeasible(c: Cluster, key: Key, spec: Spec) {
    && CanConnect(c, key, spec) && CanRead(c, key, spec)
    && match spec.body
       case DatabaseBody(_) => NameOf(key, spec.body) in c.server.databases || PG.TEMPLATE in c.server.databases
       case UserBody(_, _) => true
       case GrantBody(g) => Grants.Applicable(c.server, g)
  }

  /** What a completed apply is for: the database or role has its own name, or the resource's. */
  predicate IsPresent(s: PG.Server, key: Key, spec: Spec, password: Bytes) {
    match spec.body
    case DatabaseBody(name) => (if name == "" then key.name else name) in s.databases
    case UserBody(name, _) =>
      var r := if name == "" then key.name else name;
      r in s.roles && s.roles[r] == Literals.Stored(s.scs, password)
    case GrantBody(g) => Grants.Applicable(s, g) && Grants.Granted(s, g) == s
  }

  lemma FeasibleApplies(c: Cluster, key: Key, spec: Spec)
    requires ApplyFeasible(c, key, spec)
    ensures CanRead(c, key, spec)
    ensures Connect(c, key, spec).Connected? && LookUp(c, key, spec) == Found(PasswordOf(c, key, spec))
    ensures var conn := Connect(c, key, spec).conn;
            var password := PasswordOf(c, key, spec);
            var (s, ok) := Execute(c.server, conn, ApplyProgram(key, spec, password));
            ok && IsPresent(s, key, spec, password)
  {
    ConnectIs(c, key, spec);
    var conn := Connect(c, key, spec).conn;
    var password := LookUp(c, key, spec).password;
    var p := ApplyProgram(key, spec, password);
    match spec.body
    case GrantBody(g) =>
      Grants.GrantSucceedsExactly(c.server, g);
      var s := Grants.Granted(c.server, g);
      ExecuteTwice(c.server, conn, key, spec, p);
      Grants.GrantSucceedsExactly(s, g);
    case _ =>
      Literals.StoredExactly(c.server.scs, password);
      var stmts := if PG.Answer(c.server, p.question) then p.yes else p.no;
      if stmts != [] {
        Statements.RunOne(c.server, conn, stmts[0]);
        assert stmts == [stmts[0]];
      }
  }

  /** The goal for a live resource. */
  predicate Reached(c: Cluster, key: Key) {
    && Live(c, key).Some?
    && var o := Live(c, key).value;
    && !o.deleted && o.fin
    && IsReady(o) && Find(o.conditions, Ready).value.observedGeneration == o.generation
    && Find(o.conditions, Ready).value.message == SuccessText(key, o.spec)
    && CanRead(c, key, o.spec) && IsPresent(c.server, key, o.spec, PasswordOf(c, key, o.spec))
  }

  lemma FeasibleReaches(c: Cluster, key: Key)
    requires Live(c, key).Some? && Cached(c, key) == Live(c, key) && !Live(c, key).value.deleted
    requires ApplyFeasible(c, key, Live(c, key).value.spec)
    ensures Reached(Reconciled(c, key), key)
  {
    hide ApplyRun, Execute, PatchStatus, ApplyProgram, WithFinalizer, ApplyFeasible, IsPresent, Connect, LookUp, SetCondition;
    var cr := Live(c, key).value;
    FeasibleApplies(c, key, cr.spec);
    var conn := Connect(c, key, cr.spec).conn;
    var password := PasswordOf(c, key, cr.spec);
    ExecutedLeaves(c, key, cr, conn, password);
    var s := Execute(c.server, conn, ApplyProgram(key, cr.spec, password)).0;
    var d := WithFinalizer(c.(server := s), key, cr, true);
    var o := Live(d, key).value;
    var m := SuccessMessage(key, cr.spec);
    Patched(d, key, o, true, m);
    SetThenFind(o.conditions, NewCondition(d, o, true, m));
  }

  // ---------- rounds of reconciles, with faults and others at work ----------

  /** Nobody comes in between, and nothing fails. */
  predicate Smooth(script: seq<Turn>) {
    forall t :: t in script ==> t.before == [] && t.reply == Normal
  }

  /** Others act; then the cache catches up, and the worker reconciles. */
  datatype Round = Round(before: seq<Action>, script: seq<Turn>)

  function SyncWorld(w: World, key: Key): World {
    w.(c := Sync(w.c, key))
  }

  function Begin(w: World, key: Key, r: Round): Play {
    Play(SyncWorld(Meanwhile(w, key, r.before), key), r.script)
  }

  function Tries(w: World, key: Key, rounds: seq<Round>): World
    decreases |rounds|
  {
    if rounds == [] then w else Tries(Attempt(Begin(w, key, rounds[0]), key).w, key, rounds[1..])
  }

  function RoughCount(rounds: seq<Round>): nat {
    if rounds == [] then 0 else (if Smooth(rounds[0].script) then 0 else 1) + RoughCount(rounds[1..])
  }

  lemma {:induction false} DriveSmoothly(p: Play, key: Key)
    requires Smooth(p.script)
    ensures Drive(p, key).w == Settle(p.w, key)
    decreases Rank(PhaseOf(p.w, key)), Left(PhaseOf(p.w, key))
  {
    if !PhaseOf(p.w, key).Idle? {
      SmoothEffect(p, key);
      Descends(p.w, key, Normal);
      hide Effect, WorkStep, Rank, Left;
      SettleStep(p.w, key);
      DriveSmoothly(Effect(p, key), key);
    }
  }

  lemma SmoothEffect(p: Play, key: Key)
    requires Smooth(p.script)
    ensures Effect(p, key).w == WorkStep(p.w, key, Normal) && Smooth(Effect(p, key).script)
  {
    hide WorkStep;
    if p.script != [] {
      assert p.script[0] in p.script;
    }
  }

  lemma SmoothAttempt(p: Play, key: Key)
    requires Smooth(p.script) && PhaseOf(p.w, key).Idle?
    ensures Attempt(p, key).w.c == Reconciled(p.w.c, key)
  {
    hide Reconciled, WorkStep, Effect, Drive, Settle;
    SmoothEffect(p, key);
    SmoothEffect(Play(p.w, []), key);
    DriveSmoothly(Effect(p, key), key);
    DriveSmoothly(Effect(Play(p.w, []), key), key);
    AttemptIsReconciled(p.w, key);
  }

  // ---------- what is wanted of the surroundings ----------

  predicate HasFinalizer(c: Cluster, key: Key) {
    Live(c, key).Some? && Live(c, key).value.fin
  }

  /** Without faults, this cleanup goes through or is skipped. */
  predicate CleanupFeasible(c: Cluster, key: Key, spec: Spec) {
    || spec.policy != Delete
    || IsMissing(c, key, spec)
    || (CanConnect(c, key, spec)
        && match spec.body
           case DatabaseBody(_) =>
             var n := NameOf(key, spec.body);
             n in c.server.databases ==> n != PgOf(c, key, spec).database && n !in PG.TEMPLATES
           case UserBody(_, _) =>
             var r := NameOf(key, spec.body);
             r in c.server.roles ==> r != c.server.superuser && !PG.HasDependents(c.server, r)
           case GrantBody(g) => Grants.Applicable(c.server, g))
  }

  predicate Feasible(c: Cluster, key: Key, spec: Spec, leaving: bool) {
    if leaving then CleanupFeasible(c, key, spec) else ApplyFeasible(c, key, spec)
  }

  /** A live resource with this spec whose apply is feasible, or a deleted one, if it is still there, whose cleanup is. */
  predicate Favours(c: Cluster, key: Key, spec: Spec, leaving: bool) {
    && (!leaving ==> Live(c, key).Some?)
    && (Live(c, key).Some? ==> Live(c, key).value.deleted == leaving && Live(c, key).value.spec == spec)
    && Feasible(c, key, spec, leaving)
  }

  /** Whatever these actions of others do, it is so after each of them. */
  ghost predicate Spares(w: World, key: Key, spec: Spec, leaving: bool, acts: seq<Action>)
    decreases |acts|
  {
    Favours(w.c, key, spec, leaving) && (acts == [] || Spares(Aside(w, key, acts[0]), key, spec, leaving, acts[1..]))
  }

  ghost predicate SparesReconcile(p: Play, key: Key, spec: Spec, leaving: bool)
    decreases |p.script|
  {
    p.script == []
    || (Spares(p.w, key, spec, leaving, p.script[0].before)
        && (PhaseOf(Effect(p, key).w, key).Idle? || SparesReconcile(Effect(p, key), key, spec, leaving)))
  }

  /** Others may do anything between the reconciles and within them that leaves them feasible. */
  ghost predicate SparesAll(w: World, key: Key, spec: Spec, leaving: bool, rounds: seq<Round>)
    decreases |rounds|
  {
    rounds == []
    || (Spares(w, key, spec, leaving, rounds[0].before)
        && SparesReconcile(Begin(w, key, rounds[0]), key, spec, leaving)
        && SparesAll(Attempt(Begin(w, key, rounds[0]), key).w, key, spec, leaving, rounds[1..]))
  }

  /** The worker is at work on this spec, if at all. */
  ghost predicate Steady(w: World, key: Key, spec: Spec, leaving: bool) {
    && KeyInv(w, key) && Favours(w.c, key, spec, leaving)
    && (!PhaseOf(w, key).Idle? ==> PhaseOf(w, key).cr.deleted == leaving && PhaseOf(w, key).cr.spec == spec)
  }

  /** The cache may lag, but not as far back as to another spec. */
  predicate Fresh(c: Cluster, key: Key, spec: Spec, leaving: bool) {
    forall i :: 0 <= i < |Versions(c, key)| && Versions(c, key)[i].Some? ==>
      Versions(c, key)[i].value.deleted == leaving && Versions(c, key)[i].value.spec == spec
  }

  /** What the reconciles are for, as far as it stays. */
  predicate Secured(c: Cluster, key: Key, leaving: bool) {
    if leaving then !HasFinalizer(c, key) else HasFinalizer(c, key)
  }

  lemma FeasibleCleans(c: Cluster, key: Key, spec: Spec)
    requires CleanupFeasible(c, key, spec) && spec.policy == Delete && Connect(c, key, spec).Connected?
    ensures Execute(c.server, Connect(c, key, spec).conn, CleanupProgram(key, spec)).1
  {
    ConnectIs(c, key, spec);
    var conn := Connect(c, key, spec).conn;
    var p := CleanupProgram(key, spec);
    match spec.body
    case GrantBody(g) =>
      Grants.RevokeSucceedsExactly(c.server, g);
    case _ =>
      var stmts := if PG.Answer(c.server, p.question) then p.yes else p.no;
      if stmts != [] {
        Statements.RunOne(c.server, conn, stmts[0]);
        assert stmts == [stmts[0]];
      }
  }

  lemma FeasibleReleases(c: Cluster, key: Key)
    requires Cached(c, key) == Live(c, key)
    requires Live(c, key).Some? ==>
               Live(c, key).value.deleted && CleanupFeasible(c, key, Live(c, key).value.spec)
    ensures !HasFinalizer(Reconciled(c, key), key)
  {
    if Live(c, key).Some? {
      var cr := Live(c, key).value;
      ConnectIs(c, key, cr.spec);
      RemovedIsGone(c, key, cr);
      if cr.fin && cr.spec.policy == Delete && Connect(c, key, cr.spec).Connected? {
        FeasibleCleans(c, key, cr.spec);
        var s := Execute(c.server, Connect(c, key, cr.spec).conn, CleanupProgram(key, cr.spec)).0;
        RemovedIsGone(c.(server := s), key, cr);
      }
    }
  }

  // ---------- others keep it ----------

  /** A step of anybody leaves the versions, adds one, or drops the first. */
  predicate VersionsMove(vs: seq<Option<Object>>, vs': seq<Option<Object>>) {
    || vs' == vs
    || (vs' != [] && vs' == vs + [vs'[|vs'| - 1]])
    || (|vs| > 1 && vs' == vs[1..])
  }

  lemma MovedFresh(c: Cluster, c': Cluster, key: Key, spec: Spec, leaving: bool)
    requires Fresh(c, key, spec, leaving) && Favours(c', key, spec, leaving)
    requires VersionsMove(Versions(c, key), Versions(c', key))
    ensures Fresh(c', key, spec, leaving)
  {
    hide ApplyFeasible, CleanupFeasible;
    var (vs, vs') := (Versions(c, key), Versions(c', key));
    if vs' != vs && |vs| > 1 && vs' == vs[1..] {
      assert forall i :: 0 <= i < |vs'| ==> vs'[i] == vs[i + 1];
    } else if vs' != vs {
      assert forall i :: 0 <= i < |vs'| ==> vs'[i] == if i < |vs| then vs[i] else Live(c', key);
    }
  }

  lemma UserMoves(w: World, a: Action)
    requires IsWrite(a)
    ensures VersionsMove(Versions(w.c, a.key), Versions(UserStep(w, a).c, a.key))
    ensures HasFinalizer(UserStep(w, a).c, a.key) ==> HasFinalizer(w.c, a.key)
  {
    assert UserStep(w, a) == w || Versions(UserStep(w, a).c, a.key) == Versions(w.c, a.key) + [Live(UserStep(w, a).c, a.key)];
  }

  lemma EnvMoves(w: World, a: Action, key: Key)
    requires !a.Work?
    ensures VersionsMove(Versions(w.c, key), Versions(EnvStep(w, a).c, key))
    ensures HasFinalizer(EnvStep(w, a).c, key) ==> HasFinalizer(w.c, key)
  {
    hide UserStep;
    if IsWrite(a) && a.key == key {
      UserMoves(w, a);
    } else if IsWrite(a) {
      WriteFrame(w, a, key);
    }
  }

  lemma AsideKeeps(w: World, key: Key, a: Action, spec: Spec, leaving: bool)
    requires Steady(w, key, spec, leaving) && Favours(Aside(w, key, a).c, key, spec, leaving)
    ensures Steady(Aside(w, key, a), key, spec, leaving)
    ensures VersionsMove(Versions(w.c, key), Versions(Aside(w, key, a).c, key))
    ensures Secured(w.c, key, leaving) ==> Secured(Aside(w, key, a).c, key, leaving)
  {
    hide ApplyFeasible, CleanupFeasible, WorkStep, EnvStep, KeyInv;
    if !(a.Work? && a.key == key) {
      ForeignKeeps(w, a, key);
      if a.Work? {
        WorkFrame(w, a.key, a.reply, key);
      } else {
        EnvMoves(w, a, key);
        if !leaving {
          Runs.EnvKeepsFinalizer(w, a, key);
        }
      }
    }
  }

  lemma {:induction false} MeanwhileKeeps(w: World, key: Key, acts: seq<Action>, spec: Spec, leaving: bool)
    requires Steady(w, key, spec, leaving) && Spares(w, key, spec, leaving, acts)
    ensures var u := Meanwhile(w, key, acts);
            && Steady(u, key, spec, leaving)
            && (Fresh(w.c, key, spec, leaving) ==> Fresh(u.c, key, spec, leaving))
            && (Secured(w.c, key, leaving) ==> Secured(u.c, key, leaving))
    decreases |acts|
  {
    hide Favours, Steady, Fresh, Secured, VersionsMove, Aside;
    if acts != [] {
      var u := Aside(w, key, acts[0]);
      assert Spares(u, key, spec, leaving, acts[1..]);
      assert Favours(u.c, key, spec, leaving);
      AsideKeeps(w, key, acts[0], spec, leaving);
      if Fresh(w.c, key, spec, leaving) {
        MovedFresh(w.c, u.c, key, spec, leaving);
      }
      MeanwhileKeeps(u, key, acts[1..], spec, leaving);
    }
  }

  // ---------- the worker keeps it ----------

  /** The worker's own step, as seen from its resource. */
  lemma OwnMoves(w: World, key: Key, reply: Reply)
    requires KeyInv(w, key)
    ensures var (before, after) := (Live(w.c, key), Live(WorkStep(w, key, reply).c, key));
            && (after.Some? ==> before.Some? && after.value.spec == before.value.spec && after.value.deleted == before.value.deleted)
            && (before.Some? && !before.value.deleted ==> after.Some? && (before.value.fin ==> after.value.fin))
            && (after.Some? && before.value.deleted && after.value.fin ==> before.value.fin)
    ensures VersionsMove(Versions(w.c, key), Versions(WorkStep(w, key, reply).c, key))
  {
    hide KeyInv, WorkStep, ReadOk, VersionsMove;
    PhaseIsOk(w, key);
    OwnVersions(w, key, reply);
    if Live(w.c, key).Some? {
      Runs.OnlyReleaseWrites(w, key, reply);
    } else {
      NothingToWrite(w, key, reply);
    }
  }

  lemma WriteMoves(c: Cluster, key: Key, v: Option<Object>)
    ensures VersionsMove(Versions(c, key), Versions(Write(c, key, v), key))
  {
  }

  lemma StoreMoves(w: World, key: Key, cr: Object, reply: Reply)
    ensures VersionsMove(Versions(w.c, key), Versions(StoreStep(w, key, cr, reply).c, key))
  {
    hide VersionsMove, Write;
    if Guarded(w.c, key, cr) {
      WriteMoves(w.c, key, Some(cr.(fin := true, conditions := Live(w.c, key).value.conditions)));
    }
    MovesNowhere(Versions(w.c, key));
  }

  lemma ReleaseMoves(w: World, key: Key, cr: Object, reply: Reply)
    ensures VersionsMove(Versions(w.c, key), Versions(ReleaseStep(w, key, cr, reply).c, key))
  {
    hide VersionsMove, Write;
    if Guarded(w.c, key, cr) {
      WriteMoves(w.c, key, OrGone(cr.(fin := false, conditions := Live(w.c, key).value.conditions)));
    }
    MovesNowhere(Versions(w.c, key));
  }

  lemma ReportMoves(w: World, key: Key, cr: Object, ok: bool, m: Message, reply: Reply)
    ensures VersionsMove(Versions(w.c, key), Versions(ReportStep(w, key, cr, ok, m, reply).c, key))
  {
    hide VersionsMove, Write;
    if Live(w.c, key).Some? {
      WriteMoves(w.c, key, Some(Live(w.c, key).value.(conditions := SetCondition(cr.conditions, NewCondition(w.c, cr, ok, m)))));
    }
    MovesNowhere(Versions(w.c, key));
  }

  lemma MovesNowhere(vs: seq<Option<Object>>)
    ensures VersionsMove(vs, vs)
  {
  }

  lemma OwnVersions(w: World, key: Key, reply: Reply)
    ensures VersionsMove(Versions(w.c, key), Versions(WorkStep(w, key, reply).c, key))
  {
    hide SqlStep, ReadStep, ResolveStep, CredentialsStep, DialStep, PasswordStep, StoreStep, ReleaseStep, ReportStep, VersionsMove;
    MovesNowhere(Versions(w.c, key));
    if reply != Crashed {
      match PhaseOf(w, key)
      case Store(cr) => StoreMoves(w, key, cr, reply);
      case Release(cr, _) => ReleaseMoves(w, key, cr, reply);
      case Report(cr, ok, m) => ReportMoves(w, key, cr, ok, m, reply);
      case Sql(_, _, _, _) => Runs.SqlKeepsStore(w, key, reply);
      case _ => ConnectingMoves(w, key, reply);
    }
  }

  lemma NothingToWrite(w: World, key: Key, reply: Reply)
    requires Live(w.c, key).None?
    ensures Live(WorkStep(w, key, reply).c, key).None?
  {
    hide SqlStep, ReadStep, ResolveStep, CredentialsStep, DialStep, PasswordStep;
    if PhaseOf(w, key).Sql? {
      Runs.SqlKeepsStore(w, key, reply);
    } else if IsConnecting(PhaseOf(w, key)) {
      ConnectingMoves(w, key, reply);
    }
  }

  /** The worker stays with the resource that it has read, but for the finalizer it has just stored. */
  lemma PhaseStays(w: World, key: Key, reply: Reply)
    requires PhaseOk(w, key, PhaseOf(w, key)) && !PhaseOf(w, key).Idle?
    ensures SameResource(PhaseOf(w, key), PhaseOf(WorkStep(w, key, reply), key))
  {
    hide SqlStep, ReadStep, ResolveStep, CredentialsStep, DialStep, PasswordStep, StoreStep, ReadOk;
    if reply != Crashed {
      match PhaseOf(w, key)
      case Sql(_, _, _, _) => SqlStays(w, key, reply);
      case Store(cr) => StoreStays(w, key, cr, reply);
      case Release(_, _) =>
      case Report(_, _, _) =>
      case _ => ConnectingStays(w, key, reply);
    }
  }

  predicate SameResource(ph: Phase, ph': Phase)
    requires !ph.Idle?
  {
    !ph'.Idle? ==> ph'.cr.deleted == ph.cr.deleted && ph'.cr.spec == ph.cr.spec
  }

  lemma SqlStays(w: World, key: Key, reply: Reply)
    requires PhaseOf(w, key).Sql?
    ensures SameResource(PhaseOf(w, key), PhaseOf(WorkStep(w, key, reply), key))
  {
    hide PG.Exec, PG.Answer, Next;
  }

  lemma StoreStays(w: World, key: Key, cr: Object, reply: Reply)
    requires PhaseOf(w, key) == Store(cr) && ReadOk(w, key, cr)
    ensures SameResource(PhaseOf(w, key), PhaseOf(StoreStep(w, key, cr, reply), key))
  {
    if Guarded(w.c, key, cr) {
      GuardedIsLive(w, key, cr);
    }
  }

  lemma ConnectingStays(w: World, key: Key, reply: Reply)
    requires IsConnecting(PhaseOf(w, key)) && !PhaseOf(w, key).Idle?
    ensures SameResource(PhaseOf(w, key), PhaseOf(WorkStep(w, key, reply), key))
  {
    hide SqlStep, ReadStep, StoreStep, ReleaseStep, ReportStep, ApplyProgram, CleanupProgram, PgId, SecretId, DialTarget;
  }

  predicate SameSurroundings(c: Cluster, c': Cluster) {
    c'.pgs == c.pgs && c'.secrets == c.secrets && c'.server == c.server
  }

  lemma WritingKeeps(w: World, key: Key, reply: Reply)
    requires var ph := PhaseOf(w, key); ph.Store? || ph.Release? || ph.Report?
    ensures SameSurroundings(w.c, WorkStep(w, key, reply).c)
  {
    hide SqlStep, ReadStep, ResolveStep, CredentialsStep, DialStep, PasswordStep, Guarded, SetCondition, NewCondition;
  }

  lemma OnlyStoreChanges(w: World, key: Key, reply: Reply)
    requires PhaseOf(w, key).Sql? ==> reply == Crashed
    ensures SameSurroundings(w.c, WorkStep(w, key, reply).c)
  {
    hide SqlStep, ReadStep, ResolveStep, CredentialsStep, DialStep, PasswordStep, StoreStep, ReleaseStep, ReportStep;
    if IsConnecting(PhaseOf(w, key)) {
      ConnectingMoves(w, key, reply);
    } else if !PhaseOf(w, key).Sql? {
      WritingKeeps(w, key, reply);
    }
  }

  lemma FeasibleAlike(c: Cluster, c': Cluster, key: Key, spec: Spec, leaving: bool)
    requires SameSurroundings(c, c') && Feasible(c, key, spec, leaving)
    ensures Feasible(c', key, spec, leaving)
  {
  }

  lemma FeasibleGrows(c: Cluster, key: Key, spec: Spec, s: PG.Server)
    requires ApplyFeasible(c, key, spec) && PG.Grows(c.server, s)
    ensures ApplyFeasible(c.(server := s), key, spec)
  {
  }

  lemma CleanupStays(c: Cluster, key: Key, spec: Spec, conn: PG.Conn, log: seq<Event>, s: PG.Server)
    requires CleanupFeasible(c, key, spec) && Next(CleanupProgram(key, spec), log).RunOp?
    requires PG.Exec(c.server, conn, Next(CleanupProgram(key, spec), log).stmt) == Some(s)
    requires spec.body.GrantBody? ==> conn.database == spec.body.opts.database
    ensures CleanupFeasible(c.(server := s), key, spec)
  {
    var stmt := Next(CleanupProgram(key, spec), log).stmt;
    match spec.body
    case GrantBody(g) =>
      assert stmt in Grants.RevokeStmts(g);
      Grants.Succeeded(c.server, g, stmt, s);
      assert s.databases.Keys == c.server.databases.Keys;
    case _ =>
  }

  lemma ApplyStays(c: Cluster, key: Key, spec: Spec, conn: PG.Conn, password: Bytes, log: seq<Event>, s: PG.Server)
    requires ApplyFeasible(c, key, spec) && Next(ApplyProgram(key, spec, password), log).RunOp?
    requires PG.Exec(c.server, conn, Next(ApplyProgram(key, spec, password), log).stmt) == Some(s)
    ensures ApplyFeasible(c.(server := s), key, spec)
  {
    hide ApplyFeasible, PG.Exec;
    Runs.ApplyNeverDestroys(key, spec, password, log);
    PG.OthersGrow(c.server, conn, Next(ApplyProgram(key, spec, password), log).stmt);
    FeasibleGrows(c, key, spec, s);
  }

  lemma SqlStaysFeasible(w: World, key: Key, spec: Spec, leaving: bool, reply: Reply)
    requires Steady(w, key, spec, leaving) && PhaseOf(w, key).Sql? && reply != Crashed
    ensures Feasible(WorkStep(w, key, reply).c, key, spec, leaving)
  {
    hide KeyInv, ReadOk, WorkStep, ApplyFeasible, CleanupFeasible, PG.Exec, Next, ApplyProgram, CleanupProgram, Conforms;
    PhaseIsOk(w, key);
    var Sql(cr, conn, p, log) := PhaseOf(w, key);
    Runs.SqlOutcome(w, key, reply);
    if Next(p, log).RunOp? {
      var r := PG.Exec(w.c.server, conn, Next(p, log).stmt);
      if r.Some? && leaving {
        CleanupStays(w.c, key, spec, conn, log, r.value);
      } else if r.Some? {
        var password: Bytes :| p == ApplyProgram(key, cr.spec, password);
        ApplyStays(w.c, key, spec, conn, password, log, r.value);
      }
    }
  }

  lemma OwnStaysFeasible(w: World, key: Key, spec: Spec, leaving: bool, reply: Reply)
    requires Steady(w, key, spec, leaving)
    ensures Feasible(WorkStep(w, key, reply).c, key, spec, leaving)
  {
    hide WorkStep, KeyInv, ApplyFeasible, CleanupFeasible;
    if PhaseOf(w, key).Sql? && reply != Crashed {
      SqlStaysFeasible(w, key, spec, leaving, reply);
    } else {
      OnlyStoreChanges(w, key, reply);
      FeasibleAlike(w.c, WorkStep(w, key, reply).c, key, spec, leaving);
    }
  }

  lemma ReadIsFresh(w: World, key: Key, spec: Spec, leaving: bool, reply: Reply)
    requires PhaseOf(w, key).Idle? && Fresh(w.c, key, spec, leaving)
    ensures var ph := PhaseOf(WorkStep(w, key, reply), key); !ph.Idle? ==> ph.cr.deleted == leaving && ph.cr.spec == spec
  {
  }

  lemma StepKeepsSteady(w: World, key: Key, spec: Spec, leaving: bool, reply: Reply)
    requires Steady(w, key, spec, leaving) && Fresh(w.c, key, spec, leaving)
    ensures var w' := WorkStep(w, key, reply);
            && Steady(w', key, spec, leaving) && Fresh(w'.c, key, spec, leaving)
            && (Secured(w.c, key, leaving) ==> Secured(w'.c, key, leaving))
  {
    hide WorkStep, KeyInv, ApplyFeasible, CleanupFeasible, VersionsMove, Fresh, PhaseOk;
    var w' := WorkStep(w, key, reply);
    OwnKeeps(w, key, reply);
    OwnMoves(w, key, reply);
    OwnStaysFeasible(w, key, spec, leaving, reply);
    if PhaseOf(w, key).Idle? {
      ReadIsFresh(w, key, spec, leaving, reply);
    } else {
      PhaseIsOk(w, key);
      PhaseStays(w, key, reply);
    }
    MovedFresh(w.c, w'.c, key, spec, leaving);
  }

  // ---------- reconciles keep it ----------

  lemma EffectKeeps(p: Play, key: Key, spec: Spec, leaving: bool)
    requires Steady(p.w, key, spec, leaving) && Fresh(p.w.c, key, spec, leaving) && SparesReconcile(p, key, spec, leaving)
    ensures var q := Effect(p, key);
            && Steady(q.w, key, spec, leaving) && Fresh(q.w.c, key, spec, leaving)
            && (PhaseOf(q.w, key).Idle? || SparesReconcile(q, key, spec, leaving))
            && (Secured(p.w.c, key, leaving) ==> Secured(q.w.c, key, leaving))
  {
    hide WorkStep, Steady, Fresh, Secured, Spares, Meanwhile;
    if p.script != [] {
      MeanwhileKeeps(p.w, key, p.script[0].before, spec, leaving);
    }
    StepKeepsSteady(Scene(p, key), key, spec, leaving, ReplyTo(p));
  }

  lemma {:induction false} DriveKeeps(p: Play, key: Key, spec: Spec, leaving: bool)
    requires Steady(p.w, key, spec, leaving) && Fresh(p.w.c, key, spec, leaving)
    requires PhaseOf(p.w, key).Idle? || SparesReconcile(p, key, spec, leaving)
    ensures var q := Drive(p, key);
            && Steady(q.w, key, spec, leaving) && Fresh(q.w.c, key, spec, leaving)
            && (Secured(p.w.c, key, leaving) ==> Secured(q.w.c, key, leaving))
    decreases Rank(PhaseOf(p.w, key)), Left(PhaseOf(p.w, key))
  {
    if !PhaseOf(p.w, key).Idle? {
      EffectDescends(p, key);
      hide Effect, Steady, Fresh, Secured, SparesReconcile, Rank, Left;
      EffectKeeps(p, key, spec, leaving);
      DriveKeeps(Effect(p, key), key, spec, leaving);
    }
  }

  lemma EffectDescends(p: Play, key: Key)
    requires !PhaseOf(p.w, key).Idle?
    ensures var (after, before) := (PhaseOf(Effect(p, key).w, key), PhaseOf(p.w, key));
            Rank(after) < Rank(before) || (Rank(after) == Rank(before) && Left(after) < Left(before))
  {
    hide WorkStep;
    Descends(Scene(p, key), key, ReplyTo(p));
  }

  lemma {:induction false} DeliveriesKeep(w: World, acts: seq<Action>, key: Key)
    requires KeyInv(w, key) && forall a :: a in acts ==> a == Deliver(key)
    ensures KeyInv(Replay(w, acts), key)
    decreases |acts|
  {
    if acts != [] {
      assert acts[0] in acts;
      hide KeyInv, EnvStep;
      EnvKeeps(w, acts[0], key);
      assert forall a :: a in acts[1..] ==> a in acts;
      DeliveriesKeep(Step(w, acts[0]), acts[1..], key);
    }
  }

  lemma Synced(c: Cluster, key: Key)
    ensures Versions(Sync(c, key), key) == [Live(c, key)] && SameSurroundings(c, Sync(c, key))
  {
  }

  lemma SyncKeeps(w: World, key: Key, spec: Spec, leaving: bool)
    requires Steady(w, key, spec, leaving)
    ensures var u := SyncWorld(w, key);
            && Steady(u, key, spec, leaving) && Fresh(u.c, key, spec, leaving) && PhaseOf(u, key) == PhaseOf(w, key)
            && Versions(u.c, key) == [Live(w.c, key)] && Cached(u.c, key) == Live(u.c, key) == Live(w.c, key)
  {
    hide KeyInv, Replay, ApplyFeasible, CleanupFeasible, Sync;
    var u := SyncWorld(w, key);
    var acts := SyncByDelivery(w, key);
    DeliveriesKeep(w, acts, key);
    Synced(w.c, key);
    FeasibleAlike(w.c, u.c, key, spec, leaving);
  }

  /** One round: what was secured stays so, and a smooth reconcile does what it is for. */
  lemma RoundKeeps(w: World, key: Key, spec: Spec, leaving: bool, r: Round)
    requires Steady(w, key, spec, leaving) && PhaseOf(w, key).Idle?
    requires Spares(w, key, spec, leaving, r.before) && SparesReconcile(Begin(w, key, r), key, spec, leaving)
    ensures var u := Attempt(Begin(w, key, r), key).w;
            && Steady(u, key, spec, leaving) && PhaseOf(u, key).Idle?
            && (Secured(w.c, key, leaving) ==> Secured(u.c, key, leaving))
            && (Smooth(r.script) ==> if leaving then !HasFinalizer(u.c, key) else Reached(u.c, key))
  {
    hide Effect, Drive, Sync, Fresh, Secured, Spares, SparesReconcile, KeyInv, Reached, HasFinalizer, Reconciled, ApplyFeasible, CleanupFeasible;
    var v := Meanwhile(w, key, r.before);
    MeanwhileKeeps(w, key, r.before, spec, leaving);
    SyncKeeps(v, key, spec, leaving);
    var p := Begin(w, key, r);
    SecuredSame(v.c, p.w.c, key, leaving);
    EffectKeeps(p, key, spec, leaving);
    DriveKeeps(Effect(p, key), key, spec, leaving);
    if Smooth(r.script) {
      SmoothAttempt(p, key);
      if leaving {
        FeasibleReleases(p.w.c, key);
      } else {
        FeasibleReaches(p.w.c, key);
      }
    }
  }

  lemma SecuredSame(c: Cluster, c': Cluster, key: Key, leaving: bool)
    requires Live(c, key) == Live(c', key)
    ensures Secured(c, key, leaving) == Secured(c', key, leaving)
  {
  }

  lemma {:induction false} RoundsKeep(w: World, key: Key, spec: Spec, leaving: bool, rounds: seq<Round>)
    requires Steady(w, key, spec, leaving) && PhaseOf(w, key).Idle? && SparesAll(w, key, spec, leaving, rounds)
    requires Secured(w.c, key, leaving)
    ensures Secured(Tries(w, key, rounds).c, key, leaving)
    decreases |rounds|
  {
    hide Steady, Secured, Attempt, Begin, Spares, SparesReconcile, Smooth, Reached, HasFinalizer;
    if rounds != [] {
      RoundKeeps(w, key, spec, leaving, rounds[0]);
      RoundsKeep(Attempt(Begin(w, key, rounds[0]), key).w, key, spec, leaving, rounds[1..]);
    }
  }

  lemma {:induction false} SparesFewer(w: World, key: Key, spec: Spec, leaving: bool, rounds: seq<Round>, n: nat)
    requires SparesAll(w, key, spec, leaving, rounds) && n <= |rounds|
    ensures SparesAll(w, key, spec, leaving, rounds[..n])
    decreases n
  {
    hide Attempt, Begin, Spares, SparesReconcile;
    if n > 0 {
      SparesFewer(Attempt(Begin(w, key, rounds[0]), key).w, key, spec, leaving, rounds[1..], n - 1);
      assert rounds[..n][1..] == rounds[1..][..n - 1];
    }
  }

  lemma TriesNext(w: World, key: Key, rounds: seq<Round>, n: nat)
    requires 1 <= n <= |rounds|
    ensures Tries(w, key, rounds[..n]) == Tries(Attempt(Begin(w, key, rounds[0]), key).w, key, rounds[1..][..n - 1])
  {
    hide Attempt, Begin;
    assert rounds[..n][1..] == rounds[1..][..n - 1];
  }

  lemma ReachedIsSecured(c: Cluster, key: Key)
    requires Reached(c, key)
    ensures Secured(c, key, false)
  {
  }

  /** A live resource: of any k + 1 reconciles with at most k that are not smooth, whatever the faults, the crashes and
      the others do that leaves its apply feasible, one ends with the resource present, the finalizer stored and
      Ready=True for the current generation; from then on the finalizer stays. */
  lemma {:induction false} LiveConverges(w: World, key: Key, spec: Spec, rounds: seq<Round>, k: nat) returns (i: nat)
    requires Steady(w, key, spec, false) && PhaseOf(w, key).Idle? && SparesAll(w, key, spec, false, rounds)
    requires |rounds| == k + 1 && RoughCount(rounds) <= k
    ensures 1 <= i <= |rounds| && Reached(Tries(w, key, rounds[..i]).c, key)
    ensures forall j :: i <= j <= |rounds| ==> HasFinalizer(Tries(w, key, rounds[..j]).c, key)
    decreases k
  {
    hide Steady, Attempt, Begin, Spares, SparesReconcile, Smooth, Reached, HasFinalizer, Tries;
    var u := Attempt(Begin(w, key, rounds[0]), key).w;
    RoundKeeps(w, key, spec, false, rounds[0]);
    if Smooth(rounds[0].script) {
      i := 1;
      ReachedIsSecured(u.c, key);
      TriesNext(w, key, rounds, 1);
      TriesNone(u, key);
      assert rounds[1..][..0] == [];
      forall j | 1 <= j <= |rounds|
        ensures HasFinalizer(Tries(w, key, rounds[..j]).c, key)
      {
        TriesNext(w, key, rounds, j);
        SparesFewer(u, key, spec, false, rounds[1..], j - 1);
        RoundsKeep(u, key, spec, false, rounds[1..][..j - 1]);
      }
    } else {
      var i' := LiveConverges(u, key, spec, rounds[1..], k - 1);
      i := i' + 1;
      TriesNext(w, key, rounds, i);
      forall j | i <= j <= |rounds|
        ensures HasFinalizer(Tries(w, key, rounds[..j]).c, key)
      {
        TriesNext(w, key, rounds, j);
        assert i' <= j - 1 <= |rounds[1..]|;
      }
    }
  }

  lemma TriesNone(w: World, key: Key)
    ensures Tries(w, key, []) == w
  {
  }

  /** A deleted resource: after k + 1 reconciles with at most k that are not smooth, whatever the faults, the crashes and
      the others did that left its cleanup feasible, its finalizer is gone. */
  lemma {:induction false} DeletedConverges(w: World, key: Key, spec: Spec, rounds: seq<Round>, k: nat)
    requires Steady(w, key, spec, true) && PhaseOf(w, key).Idle? && SparesAll(w, key, spec, true, rounds)
    requires |rounds| == k + 1 && RoughCount(rounds) <= k
    ensures !HasFinalizer(Tries(w, key, rounds).c, key)
    decreases |rounds|
  {
    hide Steady, Attempt, Begin, Spares, SparesReconcile, Smooth, Reached, HasFinalizer;
    var u := Attempt(Begin(w, key, rounds[0]), key).w;
    RoundKeeps(w, key, spec, true, rounds[0]);
    if Smooth(rounds[0].script) {
      RoundsKeep(u, key, spec, true, rounds[1..]);
    } else {
      DeletedConverges(u, key, spec, rounds[1..], k - 1);
    }
  }
}
