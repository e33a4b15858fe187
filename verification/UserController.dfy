/** internal/controller/postgresqluser_controller.go */
module UserController {
  import opened Base
  import opened Api
  import opened Protocol
  import opened Promises
  import opened Operators
  import opened Attempts
  import opened Returns
  import Requeue

  /** For every script of interference and faults: the protocol's own steps from the first effect to the last, and the
      return that the last one calls for. What has been read decides what may be returned, a live resource comes back after
      the delay for its outcome, and a finalizer goes when it should. */
  method Reconcile(op: Operator, key: Key, jitter: int) returns (r: Result, seen: Option<Object>)
    requires op.Valid() && PhaseOf(op.w, key).Idle? && key.kind == UserKind
    modifies op
    ensures op.Valid() && old(op.trace) <= op.trace && PhaseOf(op.w, key).Idle?
    ensures op.Now() == Attempt(old(op.Now()), key)
    ensures r == Verdict(Goal(old(op.Now()), key), key, jitter)
    ensures seen == Cached(Scene(old(op.Now()), key).c, key)
    ensures ReplyTo(old(op.Now())) != Normal ==> r == Result(true, 0)
    ensures Returned(key, r, seen, PhaseOf(Goal(old(op.Now()), key).w, key), jitter)
    ensures !r.failed && seen.Some? && !seen.value.deleted ==>
              seen.value.spec.body.UserBody?
              && Applied(op, Effect(old(op.Now()), key), old(|op.trace|), key, seen.value, PhaseOf(Goal(old(op.Now()), key).w, key))
    ensures !r.failed && seen.Some? && seen.value.deleted && seen.value.fin ==>
              seen.value.spec.body.UserBody? && CleanedUp(op, Effect(old(op.Now()), key), old(|op.trace|), key, seen.value, r)
  {
    hide Effect, Verdict, Attempt, Goal, StateAt, Replay, Init, Cached, RetryResult, RequeueResult, Applied, CleanedUp, IsScheduled;
    hide Reports;
    ghost var p := op.Now();
    var err;
    seen, err := op.Get(key);
    VerdictByPhase(p, key, jitter);
    if err || seen.None? {
      r := if err then Err else Done;
    } else {
      var user := seen.value;
      if user.deleted {
        r := HandleDeletion(op, key, user, jitter);
      } else {
        r := Apply(op, key, user, jitter);
      }
    }
    EndsWhole(op, p, key, jitter, r);
    if !r.failed && seen.Some? {
      Sooner(op, Effect(p, key), |op.since|, old(|op.trace|), key, seen.value, PhaseOf(Goal(p, key).w, key), r);
    }
  }

  /** What a live resource's reconcile has brought about, by the report it ended with. */
  ghost predicate Applied(op: Operator, p: Play, from: nat, key: Key, user: Object, last: Phase)
    requires user.spec.body.UserBody?
    reads op
  {
    && last.Report? && (last.ok ==> RoleWasSet(op, from, key, user))
    && (!last.ok ==> last.message.Failed? && Fails(p, key, user.spec, last.message.error))
  }

  /** What a deleted resource's reconcile that holds the finalizer has brought about, by what it returned: the finalizer
      goes if the policy is not Delete, if the PostgreSQL resource or its superuser Secret is missing, or after the
      cleanup; it comes back in five seconds if the cleanup failed. */
  ghost predicate CleanedUp(op: Operator, p: Play, from: nat, key: Key, user: Object, r: Result)
    requires user.spec.body.UserBody?
    reads op
  {
    && (r == Result(false, 0) || r == Result(false, 5_000_000_000))
    && (user.spec.policy != Delete || FindsMissing(p, key, user.spec) ==> r == Result(false, 0))
    && (r == Result(false, 0) ==> Released(op, key))
    && (r == Result(false, 0) && user.spec.policy == Delete && !FindsMissing(p, key, user.spec) ==>
          RoleIsGone(op, from, key, user))
  }

  /** What has happened since a step has happened since an earlier one. */
  lemma Sooner(op: Operator, p: Play, from: nat, earlier: nat, key: Key, user: Object, last: Phase, r: Result)
    requires earlier <= from && user.spec.body.UserBody?
    ensures Applied(op, p, from, key, user, last) ==> Applied(op, p, earlier, key, user, last)
    ensures CleanedUp(op, p, from, key, user, r) ==> CleanedUp(op, p, earlier, key, user, r)
  {
  }

  /** The rest of Reconcile for a resource that is not marked deleted. */
  method Apply(op: Operator, key: Key, user: Object, jitter: int) returns (r: Result)
    requires op.Valid() && !user.deleted && PhaseOf(op.w, key) == Resolve(user) && Fits(UserKind, user.spec.body)
    modifies op
    ensures op.Valid() && op.since == old(op.since) && PhaseOf(op.w, key).Idle?
    ensures Ends(op, old(op.Now()), key, jitter, r)
    ensures !r.failed ==>
              var last := PhaseOf(Goal(old(op.Now()), key).w, key);
              && Reports(key, last, user) && IsScheduled(r, user.spec, last.ok, jitter)
              && Applied(op, old(op.Now()), |op.since|, key, user, last)
  {
    hide Effect, Verdict, Goal, StateAt, Replay, Init, IsScheduled, Connects, DoesConnect, Scene;
    var conn, e := op.ConnectToPostgres(key, user);
    if conn.None? {
      r := ReportFailure(op, key, user, e, jitter);
      return;
    }
    Connected(old(op.Now()), key, user.spec, conn.value, e);

    var password;
    password, e := op.GetSecretValue(key, user, conn.value, key.ns, user.spec.body.password);
    if password.None? {
      r := ReportFailure(op, key, user, e, jitter);
      return;
    }
    ghost var read := |op.trace|;
    op.AtPresent();
    label passworded:
    var roleName := TargetName(key, user.spec.body);
    var err := op.CreateOrUpdateRole(key, user, conn.value, roleName, password.value);
    if err {
      r := ReportFailure(op, key, user, SqlFailed, jitter);
      return;
    }
    ghost var set_ := |op.trace|;
    op.AtPresent();
    label created:

    r := Conclude(op, key, user, jitter);
    op.Stable@passworded(read);
    op.Stable@created(set_);
  }

  method HandleDeletion(op: Operator, key: Key, user: Object, ghost jitter: int) returns (r: Result)
    requires op.Valid() && user.deleted && PhaseOf(op.w, key) == AfterRead(user) && Fits(UserKind, user.spec.body)
    modifies op
    ensures op.Valid() && op.since == old(op.since) && PhaseOf(op.w, key).Idle?
    ensures if user.fin then Ends(op, old(op.Now()), key, jitter, r) else op.Now() == old(op.Now()) && r == Result(false, 0)
    ensures user.fin ==> r.failed || CleanedUp(op, old(op.Now()), |op.since|, key, user, r)
    ensures r.failed ==> Rejects(Goal(old(op.Now()), key), key, user)
  {
    hide Effect, Verdict, Goal, StateAt, Replay, Init, OrGone, Released, Guarded, Rejects, Connects, FindsMissing;
    if !user.fin {
      return Done;
    }
    VerdictByPhase(Goal(op.Now(), key), key, jitter);
    ghost var gone := |op.since|;
    if user.spec.policy == Delete {
      var conn, e := op.ConnectToPostgres(key, user);
      ConnectsOrMissing(old(op.Now()), key, user.spec, conn, e);
      if conn.None? {
        if !IsNotFound(e) {
          return Result(false, Requeue.DEFAULT_RETRY);
        }
      } else {
        var err := op.DropRole(key, user, conn.value, TargetName(key, user.spec.body));
        if err {
          return Result(false, Requeue.DEFAULT_RETRY);
        }
        gone := |op.trace|;
        op.AtPresent();
      }
    }
    label cleaned:
    var updated, err := op.Update(key, user, user.(fin := false));
    if err {
      return Err;
    }
    UpdateReleases(op, key, user, updated);
    op.Stable@cleaned(gone);
    r := Done;
  }
}
