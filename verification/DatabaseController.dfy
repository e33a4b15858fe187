/** internal/controller/postgresqldatabase_controller.go */
module DatabaseController {
  import opened Base
  import opened Api
  import opened Protocol
  import opened Promises
  import opened Operators
  import opened Attempts
  import opened Returns
  import Requeue

  /** For every script of interference and faults: the protocol's own steps from the first effect to the last, and the
      return that the last one calls for. What has been read decides what may be returned, a live resource comes back after
      the delay for its outcome, and a finalizer goes when it should. */
  method Reconcile(op: Operator, key: Key, jitter: int) returns (r: Result, seen: Option<Object>)
    requires op.Valid() && PhaseOf(op.w, key).Idle? && key.kind == DatabaseKind
    modifies op
    ensures op.Valid() && old(op.trace) <= op.trace && PhaseOf(op.w, key).Idle?
    ensures op.Now() == Attempt(old(op.Now()), key)
    ensures r == Verdict(Goal(old(op.Now()), key), key, jitter)
    ensures seen == Cached(Scene(old(op.Now()), key).c, key)
    ensures ReplyTo(old(op.Now())) != Normal ==> r == Result(true, 0)
    ensures Returned(key, r, seen, PhaseOf(Goal(old(op.Now()), key).w, key), jitter)
    ensures !r.failed && seen.Some? && !seen.value.deleted ==>
              seen.value.spec.body.DatabaseBody?
              && Applied(op, Effect(old(op.Now()), key), old(|op.trace|), key, seen.value, PhaseOf(Goal(old(op.Now()), key).w, key))
    ensures !r.failed && seen.Some? && seen.value.deleted && seen.value.fin ==>
              seen.value.spec.body.DatabaseBody? && CleanedUp(op, Effect(old(op.Now()), key), old(|op.trace|), key, seen.value, r)
  {
    hide Effect, Verdict, Attempt, Goal, StateAt, Replay, Init, Cached, RetryResult, RequeueResult, Applied, CleanedUp, IsScheduled;
    hide Reports;
    ghost var p := op.Now();
    var err;
    seen, err := op.Get(key);
    VerdictByPhase(p, key, jitter);
    if err || seen.None? {
      r := if err then Err else Done;
    } else {
      var db := seen.value;
      if db.deleted {
        r := HandleDeletion(op, key, db, jitter);
      } else {
        r := Apply(op, key, db, jitter);
      }
    }
    EndsWhole(op, p, key, jitter, r);
    if !r.failed && seen.Some? {
      Sooner(op, Effect(p, key), |op.since|, old(|op.trace|), key, seen.value, PhaseOf(Goal(p, key).w, key), r);
    }
  }

  /** What a live resource's reconcile has brought about, by the report it ended with. */
  ghost predicate Applied(op: Operator, p: Play, from: nat, key: Key, db: Object, last: Phase)
    requires db.spec.body.DatabaseBody?
    reads op
  {
    && last.Report? && (last.ok ==> DatabaseWas(op, from, key, db, true))
    && (!last.ok ==> last.message.Failed? && Fails(p, key, db.spec, last.message.error))
  }

  /** What a deleted resource's reconcile that holds the finalizer has brought about, by what it returned: the finalizer
      goes if the policy is not Delete, if the PostgreSQL resource or its superuser Secret is missing, or after the
      cleanup; it comes back in five seconds if the cleanup failed. */
  ghost predicate CleanedUp(op: Operator, p: Play, from: nat, key: Key, db: Object, r: Result)
    requires db.spec.body.DatabaseBody?
    reads op
  {
    && (r == Result(false, 0) || r == Result(false, 5_000_000_000))
    && (db.spec.policy != Delete || FindsMissing(p, key, db.spec) ==> r == Result(false, 0))
    && (r == Result(false, 0) ==> Released(op, key))
    && (r == Result(false, 0) && db.spec.policy == Delete && !FindsMissing(p, key, db.spec) ==>
          DatabaseWas(op, from, key, db, false))
  }

  /** What has happened since a step has happened since an earlier one. */
  lemma Sooner(op: Operator, p: Play, from: nat, earlier: nat, key: Key, db: Object, last: Phase, r: Result)
    requires earlier <= from && db.spec.body.DatabaseBody?
    ensures Applied(op, p, from, key, db, last) ==> Applied(op, p, earlier, key, db, last)
    ensures CleanedUp(op, p, from, key, db, r) ==> CleanedUp(op, p, earlier, key, db, r)
  {
  }

  /** The rest of Reconcile for a resource that is not marked deleted. */
  method Apply(op: Operator, key: Key, db: Object, jitter: int) returns (r: Result)
    requires op.Valid() && !db.deleted && PhaseOf(op.w, key) == Resolve(db) && Fits(DatabaseKind, db.spec.body)
    modifies op
    ensures op.Valid() && op.since == old(op.since) && PhaseOf(op.w, key).Idle?
    ensures Ends(op, old(op.Now()), key, jitter, r)
    ensures !r.failed ==>
              var last := PhaseOf(Goal(old(op.Now()), key).w, key);
              && Reports(key, last, db) && IsScheduled(r, db.spec, last.ok, jitter)
              && Applied(op, old(op.Now()), |op.since|, key, db, last)
  {
    hide Effect, Verdict, Goal, StateAt, Replay, Init, IsScheduled, Connects, DoesConnect, Scene;
    var conn, e := op.ConnectToPostgres(key, db);
    if conn.None? {
      r := ReportFailure(op, key, db, e, jitter);
      return;
    }
    Connected(old(op.Now()), key, db.spec, conn.value, e);

    var dbName := TargetName(key, db.spec.body);
    var err := op.CreateDatabase(key, db, conn.value, dbName);
    if err {
      r := ReportFailure(op, key, db, SqlFailed, jitter);
      return;
    }
    ghost var there := |op.trace|;
    op.AtPresent();
    label created:

    r := Conclude(op, key, db, jitter);
    op.Stable@created(there);
  }

  method HandleDeletion(op: Operator, key: Key, db: Object, ghost jitter: int) returns (r: Result)
    requires op.Valid() && db.deleted && PhaseOf(op.w, key) == AfterRead(db) && Fits(DatabaseKind, db.spec.body)
    modifies op
    ensures op.Valid() && op.since == old(op.since) && PhaseOf(op.w, key).Idle?
    ensures if db.fin then Ends(op, old(op.Now()), key, jitter, r) else op.Now() == old(op.Now()) && r == Result(false, 0)
    ensures db.fin ==> r.failed || CleanedUp(op, old(op.Now()), |op.since|, key, db, r)
    ensures r.failed ==> Rejects(Goal(old(op.Now()), key), key, db)
  {
    hide Effect, Verdict, Goal, StateAt, Replay, Init, OrGone, Released, Guarded, Rejects, Connects, FindsMissing;
    if !db.fin {
      return Done;
    }
    VerdictByPhase(Goal(op.Now(), key), key, jitter);
    ghost var gone := |op.since|;
    if db.spec.policy == Delete {
      var conn, e := op.ConnectToPostgres(key, db);
      ConnectsOrMissing(old(op.Now()), key, db.spec, conn, e);
      if conn.None? {
        if !IsNotFound(e) {
          return Result(false, Requeue.DEFAULT_RETRY);
        }
      } else {
        var err := op.DropDatabase(key, db, conn.value, TargetName(key, db.spec.body));
        if err {
          return Result(false, Requeue.DEFAULT_RETRY);
        }
        gone := |op.trace|;
        op.AtPresent();
      }
    }
    label cleaned:
    var updated, err := op.Update(key, db, db.(fin := false));
    if err {
      return Err;
    }
    UpdateReleases(op, key, db, updated);
    op.Stable@cleaned(gone);
    r := Done;
  }
}
