/** internal/controller/postgresqlgrant_controller.go */
module GrantController {
  import opened Base
  import opened Api
  import opened Protocol
  import opened Promises
  import opened Operators
  import opened Attempts
  import opened Returns
  import Requeue
  import Grants

  /** For every script of interference and faults: the protocol's own steps from the first effect to the last, and the
      return that the last one calls for. What has been read decides what may be returned, a live resource comes back after
      the delay for its outcome, and a finalizer goes when it should. */
  method Reconcile(op: Operator, key: Key, jitter: int) returns (r: Result, seen: Option<Object>)
    requires op.Valid() && PhaseOf(op.w, key).Idle? && key.kind == GrantKind
    modifies op
    ensures op.Valid() && old(op.trace) <= op.trace && PhaseOf(op.w, key).Idle?
    ensures op.Now() == Attempt(old(op.Now()), key)
    ensures r == Verdict(Goal(old(op.Now()), key), key, jitter)
    ensures seen == Cached(Scene(old(op.Now()), key).c, key)
    ensures ReplyTo(old(op.Now())) != Normal ==> r == Result(true, 0)
    ensures Returned(key, r, seen, PhaseOf(Goal(old(op.Now()), key).w, key), jitter)
    ensures !r.failed && seen.Some? && !seen.value.deleted ==>
              seen.value.spec.body.GrantBody?
              && Applied(op, Effect(old(op.Now()), key), old(|op.trace|), key, seen.value, PhaseOf(Goal(old(op.Now()), key).w, key))
    ensures !r.failed && seen.Some? && seen.value.deleted && seen.value.fin ==>
              seen.value.spec.body.GrantBody? && CleanedUp(op, Effect(old(op.Now()), key), old(|op.trace|), key, seen.value, r)
  {
    hide Effect, Verdict, Attempt, Goal, StateAt, Replay, Init, Cached, RetryResult, RequeueResult, Applied, CleanedUp, IsScheduled;
    hide Reports;
    ghost var p := op.Now();
    var err;
    seen, err := op.Get(key);
    VerdictByPhase(p, key, jitter);
    if err || seen.None? {
      r := if err then Err else Done;
    } else {
      var grant := seen.value;
      if grant.deleted {
        r := HandleDeletion(op, key, grant, jitter);
      } else {
        r := Apply(op, key, grant, jitter);
      }
    }
    EndsWhole(op, p, key, jitter, r);
    if !r.failed && seen.Some? {
      Sooner(op, Effect(p, key), |op.since|, old(|op.trace|), key, seen.value, PhaseOf(Goal(p, key).w, key), r);
    }
  }

  /** What a live resource's reconcile has brought about, by the report it ended with. */
  ghost predicate Applied(op: Operator, p: Play, from: nat, key: Key, grant: Object, last: Phase)
    requires grant.spec.body.GrantBody?
    reads op
  {
    && last.Report? && (last.ok ==> Executed(op, from, key, grant.spec.body.opts.database, Grants.GrantStmts(grant.spec.body.opts)))
    && (!last.ok ==> last.message.Failed? && Fails(p, key, grant.spec, last.message.error))
  }

  /** What a deleted resource's reconcile that holds the finalizer has brought about, by what it returned: the finalizer
      goes if the policy is not Delete, if the PostgreSQL resource or its superuser Secret is missing, or after the
      cleanup; it comes back in five seconds if the cleanup failed. */
  ghost predicate CleanedUp(op: Operator, p: Play, from: nat, key: Key, grant: Object, r: Result)
    requires grant.spec.body.GrantBody?
    reads op
  {
    && (r == Result(false, 0) || r == Result(false, 5_000_000_000))
    && (grant.spec.policy != Delete || FindsMissing(p, key, grant.spec) ==> r == Result(false, 0))
    && (r == Result(false, 0) ==> Released(op, key))
    && (r == Result(false, 0) && grant.spec.policy == Delete && !FindsMissing(p, key, grant.spec) ==>
          Executed(op, from, key, grant.spec.body.opts.database, Grants.RevokeStmts(grant.spec.body.opts)))
  }

  /** What has happened since a step has happened since an earlier one. */
  lemma Sooner(op: Operator, p: Play, from: nat, earlier: nat, key: Key, grant: Object, last: Phase, r: Result)
    requires earlier <= from && grant.spec.body.GrantBody?
    ensures Applied(op, p, from, key, grant, last) ==> Applied(op, p, earlier, key, grant, last)
    ensures CleanedUp(op, p, from, key, grant, r) ==> CleanedUp(op, p, earlier, key, grant, r)
  {
    ExecutedSooner(op, from, earlier, key, grant.spec.body.opts.database, Grants.GrantStmts(grant.spec.body.opts));
    ExecutedSooner(op, from, earlier, key, grant.spec.body.opts.database, Grants.RevokeStmts(grant.spec.body.opts));
  }

  /** The rest of Reconcile for a resource that is not marked deleted. */
  method Apply(op: Operator, key: Key, grant: Object, jitter: int) returns (r: Result)
    requires op.Valid() && !grant.deleted && PhaseOf(op.w, key) == Resolve(grant) && Fits(GrantKind, grant.spec.body)
    modifies op
    ensures op.Valid() && op.since == old(op.since) && PhaseOf(op.w, key).Idle?
    ensures Ends(op, old(op.Now()), key, jitter, r)
    ensures !r.failed ==>
              var last := PhaseOf(Goal(old(op.Now()), key).w, key);
              && Reports(key, last, grant) && IsScheduled(r, grant.spec, last.ok, jitter)
              && Applied(op, old(op.Now()), |op.since|, key, grant, last)
  {
    hide Effect, Verdict, Goal, StateAt, Replay, Init, IsScheduled, Connects, DoesConnect, Scene, RanAt, Executed, Grants.GrantStmts, Grants.RevokeStmts;
    var conn, e := op.ConnectToDatabase(key, grant, grant.spec.body.opts.database);
    if conn.None? {
      r := ReportFailure(op, key, grant, e, jitter);
      return;
    }
    Connected(old(op.Now()), key, grant.spec, conn.value, e);

    ghost var from := |op.trace|;
    var err, at := op.GrantPrivileges(key, grant, conn.value, grant.spec.body.opts);
    if err {
      r := ReportFailure(op, key, grant, SqlFailed, jitter);
      return;
    }
    ghost var past := op.trace;

    r := Conclude(op, key, grant, jitter);
    if !r.failed {
      ExecutedStill(op, from, past, |op.since|, key, grant.spec.body.opts.database, Grants.GrantStmts(grant.spec.body.opts), at);
    }
  }

  method HandleDeletion(op: Operator, key: Key, grant: Object, ghost jitter: int) returns (r: Result)
    requires op.Valid() && grant.deleted && PhaseOf(op.w, key) == AfterRead(grant) && Fits(GrantKind, grant.spec.body)
    modifies op
    ensures op.Valid() && op.since == old(op.since) && PhaseOf(op.w, key).Idle?
    ensures if grant.fin then Ends(op, old(op.Now()), key, jitter, r) else op.Now() == old(op.Now()) && r == Result(false, 0)
    ensures grant.fin ==> r.failed || CleanedUp(op, old(op.Now()), |op.since|, key, grant, r)
    ensures r.failed ==> Rejects(Goal(old(op.Now()), key), key, grant)
  {
    hide Effect, Verdict, Goal, StateAt, Replay, Init, OrGone, Released, Guarded, Rejects, Connects, FindsMissing, RanAt, Executed, Grants.GrantStmts, Grants.RevokeStmts;
    if !grant.fin {
      return Done;
    }
    VerdictByPhase(Goal(op.Now(), key), key, jitter);
    ghost var from, past, at := |op.since|, op.trace, [];
    if grant.spec.policy == Delete {
      var conn, e := op.ConnectToDatabase(key, grant, grant.spec.body.opts.database);
      ConnectsOrMissing(old(op.Now()), key, grant.spec, conn, e);
      if conn.None? {
        if !IsNotFound(e) {
          return Result(false, Requeue.DEFAULT_RETRY);
        }
      } else {
        from := |op.trace|;
        var err;
        err, at := op.RevokePrivileges(key, grant, conn.value, grant.spec.body.opts);
        if err {
          return Result(false, Requeue.DEFAULT_RETRY);
        }
        past := op.trace;
      }
    }
    var updated, err := op.Update(key, grant, grant.(fin := false));
    if err {
      return Err;
    }
    UpdateReleases(op, key, grant, updated);
    if grant.spec.policy == Delete && !FindsMissing(old(op.Now()), key, grant.spec) {
      ExecutedStill(op, from, past, |op.since|, key, grant.spec.body.opts.database, Grants.RevokeStmts(grant.spec.body.opts), at);
    }
    r := Done;
  }
}
