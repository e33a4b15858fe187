/**
 * The operator's effects: internal/controller/helpers.go, internal/sql and the calls of the Kubernetes client.
 * Each method performs one effect on the stores, after whatever the script lets happen before it, and records
 * it as one step of the protocol.
 */
module Operators {
  import opened Base
  import opened Api
  import opened Protocol
  import opened Promises
  import opened Safety
  import opened Origins
  import opened Attempts
  import PG = Postgres
  import Literals
  import Grants

  function Logged(stmts: seq<PG.Stmt>, n: nat): seq<Event>
    requires n <= |stmts|
  {
    seq(n, i requires 0 <= i < |stmts| => Ran(stmts[i]))
  }

  /** Step at[i] of the run, not before `from`, is this worker's, and the server executed statement i at it. */
  ghost predicate RanAt(start: World, trace: seq<Action>, from: nat, key: Key, conn: PG.Conn, stmts: seq<PG.Stmt>, at: seq<nat>) {
    && |at| == |stmts|
    && (forall i :: 0 <= i < |at| ==> from <= at[i] < |trace| && Happens(StateAt(start, trace, at[i]), trace[at[i]], key, conn, Ran(stmts[i])))
    && (forall i, j :: 0 <= i < j < |at| ==> at[i] < at[j])
  }

  lemma RanAtStill(start: World, trace: seq<Action>, more: seq<Action>, from: nat, key: Key, conn: PG.Conn, stmts: seq<PG.Stmt>, at: seq<nat>)
    requires RanAt(start, trace, from, key, conn, stmts, at) && trace <= more
    ensures RanAt(start, more, from, key, conn, stmts, at)
  {
    hide Happens;
    forall i | 0 <= i < |at|
      ensures from <= at[i] < |more| && Happens(StateAt(start, more, at[i]), more[at[i]], key, conn, Ran(stmts[i]))
    {
      assert more[..at[i]] == trace[..at[i]];
    }
  }

  lemma RanAtNext(start: World, trace: seq<Action>, more: seq<Action>, from: nat, key: Key, conn: PG.Conn, stmts: seq<PG.Stmt>, at: seq<nat>)
    requires |at| < |stmts| && RanAt(start, trace, from, key, conn, stmts[..|at|], at) && trace < more && from <= |trace|
    requires Happens(StateAt(start, more, |more| - 1), more[|more| - 1], key, conn, Ran(stmts[|at|]))
    ensures RanAt(start, more, from, key, conn, stmts[..|at| + 1], at + [|more| - 1])
  {
    RanAtStill(start, trace, more, from, key, conn, stmts[..|at|], at);
    hide Happens, StateAt;
    assert forall i :: 0 <= i < |at| ==> stmts[..|at|][i] == stmts[..|at| + 1][i];
  }

  /** What Update writes is what the protocol's step writes. */
  lemma UpdateIsStep(w: World, key: Key, cr: Object, obj: Object, reply: Reply)
    requires KeyInv(w, key) && reply != Crashed
    requires (PhaseOf(w, key) == Store(cr) && !cr.deleted && obj == cr.(fin := true))
          || (PhaseOf(w, key).Release? && PhaseOf(w, key).cr == cr && obj == cr.(fin := false))
    ensures var w' := WorkStep(w, key, reply);
            if reply != Refused && Guarded(w.c, key, cr) then
              var conditions := Live(w.c, key).value.conditions;
              && Live(w.c, key) == Some(cr) && w'.c == Write(w.c, key, OrGone(obj.(conditions := conditions)))
              && Live(w'.c, key) == OrGone(obj.(conditions := conditions, rv := w.c.rev))
              && (PhaseOf(w', key) == if reply == Lost || !obj.fin then Idle
                                      else Report(Live(w'.c, key).value, true, SuccessMessage(key, cr.spec)))
            else w'.c == w.c && PhaseOf(w', key) == Idle
  {
    assert PhaseOk(w, key, PhaseOf(w, key));
    hide KeyInv;
    if Guarded(w.c, key, cr) {
      GuardedIsLive(w, key, cr);
    }
  }

  /** The report puts the Ready condition into the list that was read, and the whole list into the live resource, whatever
      its version; it does nothing when the condition was there already, the resource is gone, or the patch is refused. */
  ghost predicate IsPatched(c: Cluster, c': Cluster, key: Key, cr: Object, ok: bool, message: Message, reply: Reply) {
    var (live, was) := (Live(c, key), Find(cr.conditions, Ready));
    var now := Condition(Ready, ok, cr.generation, if was.Some? && was.value.status == ok then was.value.transition else c.clock, message);
    if reply == Refused || live.None? || was == Some(now) then c' == c
    else
      && Live(c', key).Some?
      && var o := Live(c', key).value;
      && o == live.value.(conditions := o.conditions, rv := o.rv)
      && Find(o.conditions, Ready) == Some(now)
      && (forall t :: t != Ready ==> Find(o.conditions, t) == Find(cr.conditions, t))
      && c'.server == c.server && c'.pgs == c.pgs && c'.secrets == c.secrets && c'.clock == c.clock
  }

  /** What setting the condition does to the list that was read. */
  lemma SetIsReady(c: Cluster, cr: Object, ok: bool, message: Message)
    ensures var was := Find(cr.conditions, Ready);
            var now := Condition(Ready, ok, cr.generation, if was.Some? && was.value.status == ok then was.value.transition else c.clock, message);
            var conditions := SetCondition(cr.conditions, NewCondition(c, cr, ok, message));
            && Find(conditions, Ready) == Some(now)
            && (conditions == cr.conditions <==> was == Some(now))
            && (forall t :: t != Ready ==> Find(conditions, t) == Find(cr.conditions, t))
  {
    hide SetCondition, Find;
    var new_ := NewCondition(c, cr, ok, message);
    SetThenFind(cr.conditions, new_);
    SetSame(cr.conditions, new_);
    forall t | t != Ready
      ensures Find(SetCondition(cr.conditions, new_), t) == Find(cr.conditions, t)
    {
      SetKeepsOthers(cr.conditions, new_, t);
    }
  }

  /** What PatchCondition writes is what the protocol's step writes. */
  lemma PatchIsStep(w: World, key: Key, cr: Object, ok: bool, message: Message, reply: Reply)
    requires PhaseOf(w, key) == Report(cr, ok, message) && reply != Crashed
    ensures var conditions := SetCondition(cr.conditions, NewCondition(w.c, cr, ok, message));
            WorkStep(w, key, reply).c ==
            if reply != Refused && conditions != cr.conditions && Live(w.c, key).Some?
               && Live(w.c, key).value.conditions != conditions
            then Write(w.c, key, Some(Live(w.c, key).value.(conditions := conditions))) else w.c
    ensures PhaseOf(WorkStep(w, key, reply), key) == Idle
    ensures IsPatched(w.c, WorkStep(w, key, reply).c, key, cr, ok, message, reply)
  {
    hide SetCondition, NewCondition, Find;
    SetIsReady(w.c, cr, ok, message);
  }

  /** What a CREATE or ALTER ROLE with the quoted password leaves. */
  lemma RoleIsSet(s: PG.Server, u: PG.Server, conn: PG.Conn, name: PG.Name, password: Bytes, stmt: PG.Stmt)
    requires stmt == PG.CreateRole(name, Literals.QuoteLiteral(password)) || stmt == PG.AlterRole(name, Literals.QuoteLiteral(password))
    requires PG.Exec(s, conn, stmt) == Some(u)
    ensures name in u.roles && u.roles[name] == Literals.Stored(u.scs, password)
    ensures u.roles[name] == password <==> !u.scs || BACKSLASH !in password
  {
    Literals.StoredExactly(s.scs, password);
  }

  class Operator {
    var w: World
    var script: seq<Turn>
    ghost const start: World
    ghost var trace: seq<Action>
    ghost var since: seq<Action>  // the run up to the read of the present reconcile

    constructor (w: World, script: seq<Turn>)
      requires Init(w) && forall t :: t in script ==> t.reply != Crashed
      ensures Valid() && this.w == w && this.script == script && trace == []
    {
      this.w := w;
      this.script := script;
      start := w;
      trace := [];
      since := [];
    }

    /** The stores are in the state to which the protocol's own steps have brought them. */
    ghost predicate Valid()
      reads this
    {
      Init(start) && w == Replay(start, trace) && since <= trace && forall t :: t in script ==> t.reply != Crashed
    }

    function Now(): Play
      reads this
    {
      Play(w, script)
    }

    ghost function After(k: nat): World
      reads this
    {
      if k <= |trace| then StateAt(start, trace, k) else w
    }

    // ---------- steps ----------

    method Record(a: Action)
      requires Valid()
      modifies this
      ensures Valid() && w == Step(old(w), a) && trace == old(trace) + [a] && script == old(script) && since == old(since)
    {
      ReplayLast(start, trace, a);
      w := Step(w, a);
      trace := trace + [a];
    }

    /** Users, other sessions and other resources' workers go first. */
    method Interfere(key: Key) returns (reply: Reply)
      requires Valid()
      modifies this
      ensures Valid() && old(trace) <= trace && since == old(since)
      ensures w == Scene(old(Now()), key) && reply == ReplyTo(old(Now())) && reply != Crashed
      ensures script == (if old(Now()).script == [] then [] else old(Now()).script[1..]) && PhaseOf(w, key) == old(PhaseOf(w, key))
    {
      if script == [] {
        return Normal;
      }
      var t := script[0];
      script := script[1..];
      for i := 0 to |t.before|
        invariant Valid() && old(trace) <= trace && since == old(since) && script == old(script)[1..]
        invariant Meanwhile(w, key, t.before[i..]) == Meanwhile(old(w), key, t.before)
      {
        var a := t.before[i];
        assert t.before[i..][0] == a && t.before[i..][1..] == t.before[i + 1..];
        if !(a.Work? && a.key == key) {
          Record(a);
        }
      }
      assert t.before[|t.before|..] == [];
      reply := t.reply;
    }

    /** The effect that was next in p has turned the stores into c, as the protocol's step for this worker does. */
    method Commit(key: Key, reply: Reply, c: Cluster, ghost p: Play)
      requires Valid() && c == WorkStep(w, key, reply).c
      requires w == Scene(p, key) && reply == ReplyTo(p) && script == if p.script == [] then [] else p.script[1..]
      modifies this
      ensures Valid() && w == WorkStep(old(w), key, reply) && Now() == Effect(p, key)
      ensures trace == old(trace) + [Work(key, reply)] && script == old(script) && since == old(since)
      ensures After(|trace| - 1) == old(w) && After(|trace|) == w
    {
      Record(Work(key, reply));
      assert trace[..|old(trace)|] == old(trace) && trace[..|trace|] == trace;
    }

    /** The call is the next effect of this worker's reconcile. */
    twostate predicate Takes(key: Key)
      reads this
    {
      && Valid() && old(trace) < trace && Now() == Effect(old(Now()), key)
      && After(|trace| - 1) == Scene(old(Now()), key) && trace[|trace| - 1] == Work(key, ReplyTo(old(Now())))
    }

    /** The reconcile's last effect will be that of `goal`, or has just been. A call that connects or runs SQL takes the
        effects that come next, and stays on course. */
    ghost predicate OnCourse(key: Key, goal: Play)
      reads this
    {
      && Valid()
      && if PhaseOf(w, key).Idle? then Now() == Effect(goal, key) && Rank(PhaseOf(goal.w, key)) >= 3
         else Goal(Now(), key) == goal
    }

    /** The server has executed the first statements, and the worker is on its course. */
    ghost predicate Midway(key: Key, conn: PG.Conn, stmts: seq<PG.Stmt>, at: seq<nat>, past: seq<Action>, goal: Play)
      reads this
    {
      |at| <= |stmts| && past <= trace && RanAt(start, trace, |past|, key, conn, stmts[..|at|], at) && OnCourse(key, goal)
    }

    /** What the run has passed does not change. */
    twostate lemma Stable(k: nat)
      requires k <= |old(trace)| && old(trace) <= trace
      ensures After(k) == old(After(k))
    {
      assert trace[..k] == old(trace)[..k];
    }

    lemma AtPresent()
      requires Valid()
      ensures After(|trace|) == w
    {
      StateEnds(start, trace);
    }

    lemma KeyHolds(key: Key)
      requires Valid()
      ensures KeyInv(w, key)
    {
      RunKeeps(start, trace);
    }

    // ---------- the Kubernetes client ----------

    method Get(key: Key) returns (found: Option<Object>, err: bool)
      requires Valid() && PhaseOf(w, key).Idle?
      modifies this
      ensures Takes(key) && since == trace && (err <==> ReplyTo(old(Now())) != Normal)
      ensures found == Cached(Scene(old(Now()), key).c, key)
      ensures err ==> PhaseOf(w, key).Idle?
      ensures !err ==> PhaseOf(w, key) == (if found.None? then Idle else AfterRead(found.value))
      ensures !err ==> Cached(w.c, key) == found
      ensures found.Some? ==> Fits(key.kind, found.value.spec.body)
    {
      var reply := Interfere(key);
      KeyHolds(key);
      found := Cached(w.c, key);
      err := reply != Normal;
      Commit(key, reply, w.c, old(Now()));
      since := trace;
    }

    /** Update is guarded by the version that was read and leaves the status alone. */
    method Update(key: Key, cr: Object, obj: Object) returns (updated: Object, err: bool)
      requires Valid()
      requires (PhaseOf(w, key) == Store(cr) && !cr.deleted && obj == cr.(fin := true))
            || (PhaseOf(w, key).Release? && PhaseOf(w, key).cr == cr && obj == cr.(fin := false))
      modifies this
      ensures Takes(key) && since == old(since)
      ensures err <==> Rejects(old(Now()), key, cr)
      ensures old(Goal(Now(), key)) == if PhaseOf(w, key).Idle? then old(Now()) else Goal(Now(), key)
      ensures err ==> forall jitter :: Verdict(old(Now()), key, jitter) == Err
      ensures !err && !obj.fin ==> forall jitter :: Verdict(old(Now()), key, jitter) == Done
      ensures err || !obj.fin ==> PhaseOf(w, key).Idle?
      ensures !err ==> Live(After(|trace| - 1).c, key) == Some(cr) && Live(w.c, key) == OrGone(updated)
      ensures !err && obj.fin ==> PhaseOf(w, key) == Report(updated, true, SuccessMessage(key, cr.spec))
      ensures updated == obj.(conditions := updated.conditions, rv := updated.rv)
    {
      hide WorkStep, Write, Effect, Scene, Replay, StateAt, Init, Live, KeyInv, Goal, Verdict;
      ghost var p := Now();
      var reply := Interfere(key);
      KeyHolds(key);
      UpdateIsStep(w, key, cr, obj, reply);
      updated := obj;
      err := true;
      var c := w.c;
      var live := Live(w.c, key);
      if reply != Refused && live.Some? && live.value.rv == obj.rv {
        updated := obj.(conditions := live.value.conditions, rv := w.c.rev);
        c := Write(w.c, key, OrGone(obj.(conditions := live.value.conditions)));
        err := reply == Lost;
      }
      Commit(key, reply, c, p);
      GoalNext(p, key);
      forall jitter
        ensures err ==> Verdict(p, key, jitter) == Err
        ensures !err && !obj.fin ==> Verdict(p, key, jitter) == Done
      {
        VerdictByPhase(p, key, jitter);
      }
    }

    /** The whole list of conditions goes into the patch, unless it has not changed; the patch is not guarded. */
    method PatchCondition(key: Key, cr: Object, ok: bool, message: Message)
      requires Valid() && PhaseOf(w, key) == Report(cr, ok, message)
      modifies this
      ensures Takes(key) && PhaseOf(w, key).Idle? && since == old(since)
      ensures IsPatched(Scene(old(Now()), key).c, w.c, key, cr, ok, message, ReplyTo(old(Now())))
      ensures old(Goal(Now(), key)) == old(Now())
      ensures forall jitter :: Verdict(old(Now()), key, jitter) ==
                               if ok then RequeueResult(cr.spec, jitter) else RetryResult(cr.spec, jitter)
    {
      hide SetCondition, Write, WorkStep, Effect, Scene, Replay, StateAt, Init, Live, NewCondition, IsPatched, Goal, Verdict, RequeueResult, RetryResult;
      ghost var p := Now();
      var reply := Interfere(key);
      PatchIsStep(w, key, cr, ok, message, reply);
      var c := w.c;
      if reply != Refused {
        var conditions := SetCondition(cr.conditions, NewCondition(w.c, cr, ok, message));
        if conditions != cr.conditions && Live(w.c, key).Some? && Live(w.c, key).value.conditions != conditions {
          c := Write(w.c, key, Some(Live(w.c, key).value.(conditions := conditions)));
        }
      }
      Commit(key, reply, c, p);
      GoalNext(p, key);
      forall jitter
        ensures Verdict(p, key, jitter) == if ok then RequeueResult(cr.spec, jitter) else RetryResult(cr.spec, jitter)
      {
        VerdictByPhase(p, key, jitter);
      }
    }

    // ---------- connecting ----------

    method GetPostgres(key: Key, cr: Object) returns (pg: Option<PgSpec>, e: Error)
      requires Valid() && PhaseOf(w, key) == Resolve(cr)
      modifies this
      ensures since == old(since) && OnCourse(key, old(Goal(Now(), key)))
      ensures PhaseOf(w, key) == (if pg.Some? then Credentials(cr, pg.value) else ConnectFail(cr, e))
      ensures Now() == Effect(old(Now()), key)
      ensures ReadsPg(Scene(old(Now()), key).c, ReplyTo(old(Now())), key, cr.spec, pg, e)
    {
      var reply := Interfere(key);
      var id := PgId(key, cr.spec.ref);
      pg := None;
      e := Unavailable;
      if reply == Normal {
        if id in w.c.pgs {
          pg := Some(w.c.pgs[id]);
        } else {
          e := PgNotFound;
        }
      }
      Commit(key, reply, w.c, old(Now()));
    }

    method GetSuperuser(key: Key, cr: Object, pg: PgSpec) returns (ok: bool, e: Error)
      requires Valid() && PhaseOf(w, key) == Credentials(cr, pg)
      modifies this
      ensures since == old(since) && OnCourse(key, old(Goal(Now(), key)))
      ensures PhaseOf(w, key) == (if ok then Dial(cr, pg) else ConnectFail(cr, e))
      ensures Now() == Effect(old(Now()), key)
      ensures ReadsSuperuser(Scene(old(Now()), key).c, ReplyTo(old(Now())), key, cr.spec, pg, ok, e)
    {
      var reply := Interfere(key);
      var id := SecretId(key, cr.spec.ref, pg);
      ok := false;
      e := Unavailable;
      if reply == Normal {
        if id !in w.c.secrets {
          e := SecretNotFound;
        } else if pg.superuserSecret.key !in w.c.secrets[id] {
          e := KeyMissing;
        } else {
          ok := true;
        }
      }
      Commit(key, reply, w.c, old(Now()));
    }

    method Open(key: Key, cr: Object, pg: PgSpec, database: PG.Name) returns (conn: Option<PG.Conn>)
      requires Valid() && PhaseOf(w, key) == Dial(cr, pg) && database == DialTarget(cr.spec, pg)
      modifies this
      ensures since == old(since) && OnCourse(key, old(Goal(Now(), key)))
      ensures PhaseOf(w, key) == (if conn.Some? then AfterDial(key, cr, conn.value) else ConnectFail(cr, DialFailed))
      ensures Now() == Effect(old(Now()), key)
      ensures Dials(Scene(old(Now()), key).c, ReplyTo(old(Now())), database, conn)
    {
      var reply := Interfere(key);
      conn := if reply == Normal && database in w.c.server.databases then Some(PG.Conn(database)) else None;
      Commit(key, reply, w.c, old(Now()));
    }

    /** The helper for databases and users: it connects to the admin database. */
    method ConnectToPostgres(key: Key, cr: Object) returns (conn: Option<PG.Conn>, e: Error)
      requires Valid() && PhaseOf(w, key) == Resolve(cr) && !cr.spec.body.GrantBody?
      modifies this
      ensures since == old(since) && OnCourse(key, old(Goal(Now(), key)))
      ensures PhaseOf(w, key) == (if conn.Some? then AfterDial(key, cr, conn.value) else ConnectFail(cr, e))
      ensures Connects(old(Now()), key, cr.spec, conn, e)
    {
      hide Goal, Last, Effect, Scene, ReplyTo, Replay, StateAt, Init, Fail, PgId, SecretId, HomeOf;
      conn := None;
      var pg;
      pg, e := GetPostgres(key, cr);
      if pg.None? {
        return;
      }
      var ok;
      ok, e := GetSuperuser(key, cr, pg.value);
      if !ok {
        return;
      }
      conn := Open(key, cr, pg.value, pg.value.database);
      e := DialFailed;
    }

    /** The helper for grants: it connects to the target database. */
    method ConnectToDatabase(key: Key, cr: Object, database: PG.Name) returns (conn: Option<PG.Conn>, e: Error)
      requires Valid() && PhaseOf(w, key) == Resolve(cr)
      requires cr.spec.body.GrantBody? && database == cr.spec.body.opts.database
      modifies this
      ensures since == old(since) && OnCourse(key, old(Goal(Now(), key)))
      ensures PhaseOf(w, key) == (if conn.Some? then AfterDial(key, cr, conn.value) else ConnectFail(cr, e))
      ensures Connects(old(Now()), key, cr.spec, conn, e) && (conn.Some? ==> conn.value == PG.Conn(database))
    {
      hide Goal, Last, Effect, Scene, ReplyTo, Replay, StateAt, Init, Fail, PgId, SecretId, HomeOf;
      conn := None;
      var pg;
      pg, e := GetPostgres(key, cr);
      if pg.None? {
        return;
      }
      var ok;
      ok, e := GetSuperuser(key, cr, pg.value);
      if !ok {
        return;
      }
      conn := Open(key, cr, pg.value, database);
      e := DialFailed;
    }

    method GetSecretValue(key: Key, cr: Object, conn: PG.Conn, ns: string, ref: SecretKeyRef)
      returns (value: Option<Bytes>, e: Error)
      requires Valid() && PhaseOf(w, key) == Password(cr, conn)
      requires cr.spec.body.UserBody? && ns == key.ns && ref == cr.spec.body.password
      modifies this
      ensures since == old(since) && OnCourse(key, old(Goal(Now(), key)))
      ensures ReadsPassword(Scene(old(Now()), key).c, ReplyTo(old(Now())), key, cr.spec, value, e)
      ensures w.c == Scene(old(Now()), key).c && old(trace) <= trace
      ensures PhaseOf(w, key) ==
              (if value.Some? then Sql(cr, conn, ApplyProgram(key, cr.spec, value.value), []) else Fail(cr, e))
    {
      var reply := Interfere(key);
      var id := (ns, ref.name);
      value := None;
      e := Unavailable;
      if reply == Normal {
        if id !in w.c.secrets {
          e := PasswordSecretNotFound;
        } else if ref.key !in w.c.secrets[id] {
          e := PasswordKeyMissing;
        } else {
          value := Some(w.c.secrets[id][ref.key]);
        }
      }
      Commit(key, reply, w.c, old(Now()));
    }

    // ---------- SQL ----------

    method Query(key: Key, conn: PG.Conn, q: PG.Question) returns (answer: bool, err: bool)
      requires Valid() && PhaseOf(w, key).Sql? && PhaseOf(w, key).conn == conn
      requires Next(PhaseOf(w, key).program, PhaseOf(w, key).log) == AskOp(q)
      modifies this
      ensures since == old(since) && old(trace) <= trace && OnCourse(key, old(Goal(Now(), key)))
      ensures !err ==> PG.Answer(w.c.server, q) == answer
      ensures var Sql(cr, _, p, log) := old(PhaseOf(w, key));
              PhaseOf(w, key) == if err then Fail(cr, SqlFailed) else Onward(key, cr, conn, p, log + [Asked(q, answer)])
    {
      var reply := Interfere(key);
      answer := PG.Answer(w.c.server, q);
      err := reply != Normal || conn.database !in w.c.server.databases;
      Commit(key, reply, w.c, old(Now()));
    }

    method Exec(key: Key, conn: PG.Conn, stmt: PG.Stmt) returns (err: bool)
      requires Valid() && PhaseOf(w, key).Sql? && PhaseOf(w, key).conn == conn
      requires Next(PhaseOf(w, key).program, PhaseOf(w, key).log) == RunOp(stmt)
      modifies this
      ensures since == old(since) && old(trace) < trace && OnCourse(key, old(Goal(Now(), key)))
      ensures !err ==> Happens(After(|trace| - 1), trace[|trace| - 1], key, conn, Ran(stmt))
      ensures !err ==> PG.Exec(After(|trace| - 1).c.server, conn, stmt) == Some(w.c.server)
      ensures var Sql(cr, _, p, log) := old(PhaseOf(w, key));
              PhaseOf(w, key) == if err then Fail(cr, SqlFailed) else Onward(key, cr, conn, p, log + [Ran(stmt)])
    {
      var reply := Interfere(key);
      var c := w.c;
      err := true;
      if reply != Refused {
        var s := PG.Exec(w.c.server, conn, stmt);
        if s.Some? {
          c := w.c.(server := s.value);
          err := reply == Lost;
        }
      }
      Commit(key, reply, c, old(Now()));
    }

    // ---------- internal/sql/database.go ----------

    method DatabaseExists(key: Key, conn: PG.Conn, name: PG.Name) returns (exists_: bool, err: bool)
      requires Valid() && PhaseOf(w, key).Sql? && PhaseOf(w, key).conn == conn
      requires Next(PhaseOf(w, key).program, PhaseOf(w, key).log) == AskOp(PG.DatabaseNamed(name))
      modifies this
      ensures since == old(since) && OnCourse(key, old(Goal(Now(), key)))
      ensures !err ==> (name in w.c.server.databases <==> exists_)
      ensures var Sql(cr, _, p, log) := old(PhaseOf(w, key));
              PhaseOf(w, key) == if err then Fail(cr, SqlFailed)
                                 else Onward(key, cr, conn, p, log + [Asked(PG.DatabaseNamed(name), exists_)])
    {
      exists_, err := Query(key, conn, PG.DatabaseNamed(name));
    }

    /** nil means that the database existed when the call's last effect was done, whatever
        other sessions did before it. */
    method CreateDatabase(key: Key, cr: Object, conn: PG.Conn, name: PG.Name) returns (err: bool)
      requires Valid() && !cr.deleted
      requires PhaseOf(w, key) == Sql(cr, conn, Ask(PG.DatabaseNamed(name), [], [PG.CreateDatabase(name)]), [])
      modifies this
      ensures since == old(since) && OnCourse(key, old(Goal(Now(), key)))
      ensures PhaseOf(w, key) == if err then Fail(cr, SqlFailed) else AfterApply(key, cr)
      ensures !err ==> name in w.c.server.databases
    {
      hide Goal, Last, Effect, Replay, StateAt, Init;
      var exists_;
      exists_, err := DatabaseExists(key, conn, name);
      if err || exists_ {
        return;
      }
      err := Exec(key, conn, PG.CreateDatabase(name));
    }

    /** nil means that the database was absent when the call's last effect was done. */
    method DropDatabase(key: Key, cr: Object, conn: PG.Conn, name: PG.Name) returns (err: bool)
      requires Valid() && cr.deleted
      requires PhaseOf(w, key) == Sql(cr, conn, Ask(PG.DatabaseNamed(name), [PG.DropDatabase(name)], []), [])
      modifies this
      ensures since == old(since) && OnCourse(key, old(Goal(Now(), key)))
      ensures if err then PhaseOf(w, key).Idle? else PhaseOf(w, key).Release? && PhaseOf(w, key).cr == cr
      ensures !err ==> name !in w.c.server.databases
    {
      hide Goal, Last, Effect, Replay, StateAt, Init;
      var exists_;
      exists_, err := DatabaseExists(key, conn, name);
      if err || !exists_ {
        return;
      }
      err := Exec(key, conn, PG.DropDatabase(name));
    }

    // ---------- internal/sql/user.go ----------

    method RoleExists(key: Key, conn: PG.Conn, name: PG.Name) returns (exists_: bool, err: bool)
      requires Valid() && PhaseOf(w, key).Sql? && PhaseOf(w, key).conn == conn
      requires Next(PhaseOf(w, key).program, PhaseOf(w, key).log) == AskOp(PG.RoleNamed(name))
      modifies this
      ensures since == old(since) && old(trace) <= trace && OnCourse(key, old(Goal(Now(), key)))
      ensures !err ==> (name in w.c.server.roles <==> exists_)
      ensures var Sql(cr, _, p, log) := old(PhaseOf(w, key));
              PhaseOf(w, key) == if err then Fail(cr, SqlFailed)
                                 else Onward(key, cr, conn, p, log + [Asked(PG.RoleNamed(name), exists_)])
    {
      exists_, err := Query(key, conn, PG.RoleNamed(name));
    }

    /** nil means that when the call's last effect was done the role existed with the password the server reads from the
        literal: the given one exactly when the server decodes backslashes or the password holds none. */
    method CreateOrUpdateRole(key: Key, cr: Object, conn: PG.Conn, name: PG.Name, password: Bytes) returns (err: bool)
      requires Valid() && !cr.deleted
      requires var literal := Literals.QuoteLiteral(password);
               PhaseOf(w, key) ==
               Sql(cr, conn, Ask(PG.RoleNamed(name), [PG.AlterRole(name, literal)], [PG.CreateRole(name, literal)]), [])
      modifies this
      ensures since == old(since) && old(trace) <= trace && OnCourse(key, old(Goal(Now(), key)))
      ensures PhaseOf(w, key) == if err then Fail(cr, SqlFailed) else AfterApply(key, cr)
      ensures !err ==>
                var s := w.c.server;
                && name in s.roles
                && s.roles[name] == Literals.Stored(s.scs, password)
                && (s.roles[name] == password <==> !s.scs || BACKSLASH !in password)
    {
      hide Goal, Last, Effect, Replay, StateAt, Init, PG.Exec, Literals.Stored, WorkStep;
      var exists_;
      exists_, err := RoleExists(key, conn, name);
      if err {
        return;
      }
      var escaped := Literals.EscapeString(password);
      var literal := [QUOTE] + escaped + [QUOTE];
      var stmt := if exists_ then PG.AlterRole(name, literal) else PG.CreateRole(name, literal);
      err := Exec(key, conn, stmt);
      if !err {
        RoleIsSet(After(|trace| - 1).c.server, w.c.server, conn, name, password, stmt);
      }
    }

    /** nil means that the role was absent when the call's last effect was done. */
    method DropRole(key: Key, cr: Object, conn: PG.Conn, name: PG.Name) returns (err: bool)
      requires Valid() && cr.deleted
      requires PhaseOf(w, key) == Sql(cr, conn, Ask(PG.RoleNamed(name), [PG.DropRole(name)], []), [])
      modifies this
      ensures since == old(since) && OnCourse(key, old(Goal(Now(), key)))
      ensures if err then PhaseOf(w, key).Idle? else PhaseOf(w, key).Release? && PhaseOf(w, key).cr == cr
      ensures !err ==> name !in w.c.server.roles
    {
      hide Goal, Last, Effect, Replay, StateAt, Init;
      var exists_;
      exists_, err := RoleExists(key, conn, name);
      if err || !exists_ {
        return;
      }
      err := Exec(key, conn, PG.DropRole(name));
    }

    // ---------- internal/sql/grant.go ----------

    /** One statement of a sequence; the caller stops at the first error. */
    method ExecNext(key: Key, cr: Object, conn: PG.Conn, stmt: PG.Stmt,
                    ghost stmts: seq<PG.Stmt>, ghost at: seq<nat>, ghost past: seq<Action>, ghost goal: Play)
      returns (err: bool, ghost at': seq<nat>)
      requires |at| < |stmts| && stmt == stmts[|at|] && Midway(key, conn, stmts, at, past, goal)
      requires PhaseOf(w, key) == Sql(cr, conn, Run(stmts), Logged(stmts, |at|))
      modifies this
      ensures since == old(since) && OnCourse(key, goal)
      ensures PhaseOf(w, key) == if err then Fail(cr, SqlFailed)
                                 else if |at| + 1 < |stmts| then Sql(cr, conn, Run(stmts), Logged(stmts, |at| + 1))
                                 else if cr.deleted then Release(cr, CleanedUp(Logged(stmts, |stmts|)))
                                 else AfterApply(key, cr)
      ensures !err ==> |at'| == |at| + 1 && Midway(key, conn, stmts, at', past, goal) && Accepted(Ran(stmt))
    {
      hide Goal, Last, Effect, Replay, Init, Fail, WorkStep;
      err := Exec(key, conn, stmt);
      at' := at + [|trace| - 1];
      assert Logged(stmts, |at| + 1) == Logged(stmts, |at|) + [Ran(stmt)];
      if !err {
        ExecAccepts(After(|trace| - 1).c.server, conn, stmt);
        RanAtNext(start, old(trace), trace, |past|, key, conn, stmts, at);
      }
    }

    /** nil only for a single ALL, and then the server has executed the five statements, one after the other. */
    method GrantPrivileges(key: Key, cr: Object, conn: PG.Conn, opts: Grants.GrantOpts) returns (err: bool, ghost at: seq<nat>)
      requires Valid() && !cr.deleted && PhaseOf(w, key) == Sql(cr, conn, Run(Grants.GrantStmts(opts)), [])
      modifies this
      ensures since == old(since) && OnCourse(key, old(Goal(Now(), key)))
      ensures PhaseOf(w, key) == if err then Fail(cr, SqlFailed) else AfterApply(key, cr)
      ensures !err ==> PG.IsAll(opts.privileges)
                       && RanAt(start, trace, |old(trace)|, key, conn, Grants.GrantStmts(opts), at)
    {
      hide *;
      ghost var stmts, past, goal := Grants.GrantStmts(opts), trace, Goal(Now(), key);
      at := [];
      Departed(key, cr, conn, stmts);
      Spelled(opts);
      var stmt := PG.GrantOnDatabase(opts.privileges, opts.database, opts.role);
      err, at := ExecNext(key, cr, conn, stmt, stmts, at, past, goal);
      if err {
        return;
      }
      stmt := PG.GrantOnTables(opts.privileges, opts.schema, opts.role);
      err, at := ExecNext(key, cr, conn, stmt, stmts, at, past, goal);
      if err {
        return;
      }
      AcceptedIsAll(opts);
      stmt := PG.GrantDefaults(opts.privileges, opts.schema, opts.role);
      err, at := ExecNext(key, cr, conn, stmt, stmts, at, past, goal);
      if err {
        return;
      }
      stmt := PG.GrantOnSchema(PG.Usage, opts.schema, opts.role);
      err, at := ExecNext(key, cr, conn, stmt, stmts, at, past, goal);
      if err {
        return;
      }
      stmt := PG.GrantOnSchema(PG.Create, opts.schema, opts.role);
      err, at := ExecNext(key, cr, conn, stmt, stmts, at, past, goal);
      if !err {
        Arrived(key, conn, stmts, at, past, goal);
      }
      return;
    }

    lemma Departed(key: Key, cr: Object, conn: PG.Conn, stmts: seq<PG.Stmt>)
      requires Valid() && PhaseOf(w, key) == Sql(cr, conn, Run(stmts), [])
      ensures Midway(key, conn, stmts, [], trace, Goal(Now(), key)) && Logged(stmts, 0) == []
      ensures cr.deleted ==> Fail(cr, SqlFailed) == Idle
    {
    }

    lemma Spelled(g: Grants.GrantOpts)
      ensures Grants.GrantStmts(g) ==
              [PG.GrantOnDatabase(g.privileges, g.database, g.role), PG.GrantOnTables(g.privileges, g.schema, g.role),
               PG.GrantDefaults(g.privileges, g.schema, g.role), PG.GrantOnSchema(PG.Usage, g.schema, g.role),
               PG.GrantOnSchema(PG.Create, g.schema, g.role)]
      ensures Grants.RevokeStmts(g) ==
              [PG.RevokeDefaults(g.privileges, g.schema, g.role), PG.RevokeOnTables(g.privileges, g.schema, g.role),
               PG.RevokeOnSchema(PG.Create, g.schema, g.role), PG.RevokeOnDatabase(g.privileges, g.database, g.role)]
    {
    }

    lemma AcceptedIsAll(g: Grants.GrantOpts)
      requires Accepted(Ran(PG.GrantOnDatabase(g.privileges, g.database, g.role)))
      requires Accepted(Ran(PG.GrantOnTables(g.privileges, g.schema, g.role)))
      ensures PG.IsAll(g.privileges)
    {
      Grants.OnlyAllFitsBoth(g.privileges);
    }

    lemma Arrived(key: Key, conn: PG.Conn, stmts: seq<PG.Stmt>, at: seq<nat>, past: seq<Action>, goal: Play)
      requires Midway(key, conn, stmts, at, past, goal) && |at| == |stmts|
      ensures RanAt(start, trace, |past|, key, conn, stmts, at)
    {
      assert stmts[..|at|] == stmts;
    }

    /** nil means that the server has executed the four statements, one after the other. */
    method RevokePrivileges(key: Key, cr: Object, conn: PG.Conn, opts: Grants.GrantOpts) returns (err: bool, ghost at: seq<nat>)
      requires Valid() && cr.deleted && PhaseOf(w, key) == Sql(cr, conn, Run(Grants.RevokeStmts(opts)), [])
      modifies this
      ensures since == old(since) && OnCourse(key, old(Goal(Now(), key)))
      ensures PhaseOf(w, key) == if err then Idle
                                 else Release(cr, CleanedUp(Logged(Grants.RevokeStmts(opts), 4)))
      ensures !err ==> RanAt(start, trace, |old(trace)|, key, conn, Grants.RevokeStmts(opts), at)
    {
      hide *;
      ghost var stmts, past, goal := Grants.RevokeStmts(opts), trace, Goal(Now(), key);
      at := [];
      Departed(key, cr, conn, stmts);
      Spelled(opts);
      var stmt := PG.RevokeDefaults(opts.privileges, opts.schema, opts.role);
      err, at := ExecNext(key, cr, conn, stmt, stmts, at, past, goal);
      if err {
        return;
      }
      stmt := PG.RevokeOnTables(opts.privileges, opts.schema, opts.role);
      err, at := ExecNext(key, cr, conn, stmt, stmts, at, past, goal);
      if err {
        return;
      }
      stmt := PG.RevokeOnSchema(PG.Create, opts.schema, opts.role);
      err, at := ExecNext(key, cr, conn, stmt, stmts, at, past, goal);
      if err {
        return;
      }
      stmt := PG.RevokeOnDatabase(opts.privileges, opts.database, opts.role);
      err, at := ExecNext(key, cr, conn, stmt, stmts, at, past, goal);
      if !err {
        Arrived(key, conn, stmts, at, past, goal);
      }
      return;
    }
  }
}
