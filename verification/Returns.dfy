/** What a reconciler may return, and that no return loses the next wake-up. */
module Returns {
  import opened Base
  import opened Api
  import opened Protocol
  import opened Promises
  import opened Attempts
  import opened Operators
  import Runs
  import Literals
  import PG = Postgres

  /** The call's last step took the finalizer off the stored resource. */
  ghost predicate Released(op: Operator, key: Key)
    reads op
  {
    |op.trace| > 0 && Runs.LosesFinalizer(op.After(|op.trace| - 1), op.w, key)
  }

  lemma UpdateReleases(op: Operator, key: Key, cr: Object, updated: Object)
    requires |op.trace| > 0 && cr.fin && !updated.fin
    requires Live(op.After(|op.trace| - 1).c, key) == Some(cr) && Live(op.w.c, key) == OrGone(updated)
    ensures Released(op, key)
  {
  }

  /** The call took the reconcile that had come to p to its end, and returned what that end calls for. */
  ghost predicate Ends(op: Operator, p: Play, key: Key, jitter: int, r: Result)
    reads op
  {
    op.Now() == Effect(Goal(p, key), key) && r == Verdict(Goal(p, key), key, jitter)
  }

  /** What is left after the first effect ends where the whole ends. */
  lemma EndsWhole(op: Operator, p: Play, key: Key, jitter: int, r: Result)
    requires if PhaseOf(Effect(p, key).w, key).Idle? then op.Now() == Effect(p, key) && r == Verdict(p, key, jitter)
             else Ends(op, Effect(p, key), key, jitter, r)
    ensures Ends(op, p, key, jitter, r) && op.Now() == Attempt(p, key)
    ensures Goal(p, key) == if PhaseOf(Effect(p, key).w, key).Idle? then p else Goal(Effect(p, key), key)
  {
    hide Effect, Verdict, Attempt;
    GoalNext(p, key);
    AttemptEndsLast(p, key);
  }

  // ---------- what the calls have brought about ----------

  /** At some moment since step `from` the database of this resource was there, or was gone. */
  ghost predicate DatabaseWas(op: Operator, from: nat, key: Key, db: Object, there: bool)
    requires db.spec.body.DatabaseBody?
    reads op
  {
    var n := if db.spec.body.name == "" then key.name else db.spec.body.name;
    exists k: nat :: from <= k <= |op.trace| && (n in op.After(k).c.server.databases) == there
  }

  ghost predicate RoleIsGone(op: Operator, from: nat, key: Key, user: Object)
    requires user.spec.body.UserBody?
    reads op
  {
    var r := if user.spec.body.name == "" then key.name else user.spec.body.name;
    exists k: nat :: from <= k <= |op.trace| && r !in op.After(k).c.server.roles
  }

  /** At some moment since step `from` the role had the password that its Secret held at a moment before. */
  ghost predicate RoleWasSet(op: Operator, from: nat, key: Key, user: Object)
    requires user.spec.body.UserBody?
    reads op
  {
    exists j: nat, k: nat :: from <= j <= k <= |op.trace| && HasSecretPassword(op.After(j).c, op.After(k).c, key, user)
  }

  predicate HasSecretPassword(c: Cluster, c': Cluster, key: Key, user: Object)
    requires user.spec.body.UserBody?
  {
    var r := if user.spec.body.name == "" then key.name else user.spec.body.name;
    && CanRead(c, key, user.spec) && r in c'.server.roles
    && c'.server.roles[r] == Literals.Stored(c'.server.scs, PasswordOf(c, key, user.spec))
  }

  /** Since step `from` the server executed these statements in a session on this database, one after the other. */
  ghost predicate Executed(op: Operator, from: nat, key: Key, database: PG.Name, stmts: seq<PG.Stmt>)
    reads op
  {
    exists at: seq<nat> :: RanAt(op.start, op.trace, from, key, PG.Conn(database), stmts, at)
  }

  lemma ExecutedSooner(op: Operator, from: nat, earlier: nat, key: Key, database: PG.Name, stmts: seq<PG.Stmt>)
    requires earlier <= from
    ensures Executed(op, from, key, database, stmts) ==> Executed(op, earlier, key, database, stmts)
  {
    if Executed(op, from, key, database, stmts) {
      var at: seq<nat> :| RanAt(op.start, op.trace, from, key, PG.Conn(database), stmts, at);
      assert RanAt(op.start, op.trace, earlier, key, PG.Conn(database), stmts, at);
    }
  }

  /** What was executed within a part of the run was executed within the run. */
  lemma ExecutedStill(op: Operator, from: nat, past: seq<Action>, since: nat, key: Key, database: PG.Name, stmts: seq<PG.Stmt>, at: seq<nat>)
    requires RanAt(op.start, past, from, key, PG.Conn(database), stmts, at) && past <= op.trace && since <= from
    ensures Executed(op, since, key, database, stmts)
  {
    hide Executed, RanAt;
    RanAtStill(op.start, past, op.trace, from, key, PG.Conn(database), stmts, at);
    ExecutedBy(op, from, key, database, stmts, at);
    ExecutedSooner(op, from, since, key, database, stmts);
  }

  lemma ExecutedBy(op: Operator, from: nat, key: Key, database: PG.Name, stmts: seq<PG.Stmt>, at: seq<nat>)
    requires RanAt(op.start, op.trace, from, key, PG.Conn(database), stmts, at)
    ensures Executed(op, from, key, database, stmts)
  {
  }

  ghost predicate DoesConnect(p: Play, key: Key, spec: Spec) {
    exists conn: PG.Conn :: Connects(p, key, spec, Some(conn), SqlFailed)
  }

  lemma Connected(p: Play, key: Key, spec: Spec, conn: PG.Conn, e: Error)
    requires Connects(p, key, spec, Some(conn), e)
    ensures DoesConnect(p, key, spec)
  {
    hide Scene, Effect;
    assert Connects(p, key, spec, Some(conn), SqlFailed);
  }

  /** Why an apply fails: connecting does, with this error, or what comes after it. */
  ghost predicate Fails(p: Play, key: Key, spec: Spec, e: Error) {
    || Connects(p, key, spec, None, e)
    || (DoesConnect(p, key, spec)
        && (e == SqlFailed || (spec.body.UserBody? && (e == Unavailable || e == PasswordSecretNotFound || e == PasswordKeyMissing))))
  }

  /** Connecting fails for want of the PostgreSQL resource or its superuser Secret exactly when it finds one missing. */
  lemma ConnectsOrMissing(p: Play, key: Key, spec: Spec, conn: Option<PG.Conn>, e: Error)
    requires Connects(p, key, spec, conn, e)
    ensures conn.None? ==> (IsNotFound(e) <==> FindsMissing(p, key, spec))
    ensures conn.Some? ==> !FindsMissing(p, key, spec)
  {
    hide Scene, Effect;
  }

  // ---------- what they return ----------

  /** The report that ends an apply: it says what is there, or that it failed. */
  predicate Reports(key: Key, last: Phase, cr: Object) {
    && last.Report? && last.cr.spec == cr.spec && last.cr.generation == cr.generation
    && (if last.ok then last.message == SuccessText(key, cr.spec) else last.message.Failed?)
  }

  /** `seen` is the resource as it was read, `last` where the worker was before its last effect. */
  predicate Returned(key: Key, r: Result, seen: Option<Object>, last: Phase, jitter: int) {
    || r.failed
    || (seen.None? && r == Result(false, 0))
    || (seen.Some? && seen.value.deleted && (r == Result(false, 0) || r == Result(false, 5_000_000_000)))
    || (seen.Some? && !seen.value.deleted && Reports(key, last, seen.value) && IsScheduled(r, seen.value.spec, last.ok, jitter))
  }

  /** What follows a failed effect of an apply: the report, and the retry. */
  method ReportFailure(op: Operator, key: Key, cr: Object, e: Error, jitter: int) returns (r: Result)
    requires op.Valid() && PhaseOf(op.w, key) == Report(cr, false, Failed(e))
    modifies op
    ensures op.Valid() && op.since == old(op.since) && PhaseOf(op.w, key).Idle?
    ensures Ends(op, old(op.Now()), key, jitter, r) && Goal(old(op.Now()), key) == old(op.Now())
    ensures IsScheduled(r, cr.spec, false, jitter)
  {
    hide Effect, Verdict, Goal, StateAt, Replay, Init, RetryResult, RequeueResult, IsScheduled, Operators.IsPatched, Scene;
    op.PatchCondition(key, cr, false, Failed(e));
    ResultsAreScheduled(cr.spec, jitter);
    r := RetryResult(cr.spec, jitter);
  }

  /** What follows a completed apply: the finalizer, if it is not there yet, then the report. */
  method Conclude(op: Operator, key: Key, cr: Object, jitter: int) returns (r: Result)
    requires op.Valid() && !cr.deleted && PhaseOf(op.w, key) == AfterApply(key, cr)
    modifies op
    ensures op.Valid() && op.since == old(op.since) && old(op.trace) <= op.trace && PhaseOf(op.w, key).Idle?
    ensures Ends(op, old(op.Now()), key, jitter, r)
    ensures !r.failed ==>
              var last := PhaseOf(Goal(old(op.Now()), key).w, key);
              Reports(key, last, cr) && last.ok && IsScheduled(r, cr.spec, true, jitter)
  {
    hide Effect, Verdict, Goal, StateAt, Replay, Init, RetryResult, RequeueResult, IsScheduled, Operators.IsPatched, Scene, Rejects;
    var updated := cr;
    if !cr.fin {
      var err;
      updated, err := op.Update(key, cr, cr.(fin := true));
      if err {
        return Err;
      }
    }
    op.PatchCondition(key, updated, true, SuccessMessage(key, cr.spec));
    ResultsAreScheduled(cr.spec, jitter);
    r := RequeueResult(cr.spec, jitter);
  }

  predicate GoodInterval(i: Option<int>) {
    i.Some? ==> 1 <= i.value <= 0x7fff_ffff_ffff_ffff - 4_999_999_999
  }

  /** With intervals in range, a return without an error and without a positive delay has seen the resource gone
      or marked deleted. A deleted one comes back after five seconds flat when its cleanup failed. A live one comes back
      within five seconds after its requeue interval when it succeeded, and after its retry interval when it failed. */
  lemma NoLostWakeup(key: Key, r: Result, seen: Option<Object>, last: Phase, jitter: int)
    requires Returned(key, r, seen, last, jitter) && 0 <= jitter < 5_000_000_000 && !r.failed
    requires seen.Some? ==> GoodInterval(seen.value.spec.requeueInterval) && GoodInterval(seen.value.spec.retryInterval)
    ensures r.after <= 0 ==> r.after == 0 && (seen.None? || seen.value.deleted)
    ensures r.after > 0 ==> seen.Some?
    ensures r.after > 0 && seen.value.deleted ==> r.after == 5_000_000_000
    ensures seen.Some? && !seen.value.deleted ==>
              && last.Report?
              && var (interval, default) := if last.ok then (seen.value.spec.requeueInterval, 30_000_000_000)
                                            else (seen.value.spec.retryInterval, 5_000_000_000);
              var d := if interval.Some? then interval.value else default;
              0 < d <= r.after < d + 5_000_000_000
  {
  }
}
