/** A reconcile without faults and without anyone in between, in one piece. */
module Undisturbed {
  import opened Base
  import opened Api
  import opened Protocol
  import opened Promises
  import opened Attempts
  import PG = Postgres
  import Statements
  import Grants

  datatype Dialed = Connected(conn: PG.Conn) | NotConnected(error: Error)

  function Connect(c: Cluster, key: Key, spec: Spec): Dialed {
    if PgId(key, spec.ref) !in c.pgs then NotConnected(PgNotFound)
    else
      var pg := c.pgs[PgId(key, spec.ref)];
      var id := SecretId(key, spec.ref, pg);
      if id !in c.secrets then NotConnected(SecretNotFound)
      else if pg.superuserSecret.key !in c.secrets[id] then NotConnected(KeyMissing)
      else if DialTarget(spec, pg) !in c.server.databases then NotConnected(DialFailed)
      else Connected(PG.Conn(DialTarget(spec, pg)))
  }

  datatype Lookup = Found(password: Bytes) | NotFound(error: Error)

  /** The role's password; databases and grants need none. */
  function LookUp(c: Cluster, key: Key, spec: Spec): Lookup {
    match spec.body
    case UserBody(_, ref) =>
      var id := (key.ns, ref.name);
      if id !in c.secrets then NotFound(PasswordSecretNotFound)
      else if ref.key !in c.secrets[id] then NotFound(PasswordKeyMissing)
      else Found(c.secrets[id][ref.key])
    case _ => Found([])
  }

  /** Where an undisturbed reconcile connects to, why not, and which password it reads. */
  lemma ConnectIs(c: Cluster, key: Key, spec: Spec)
    ensures CanConnect(c, key, spec) <==> Connect(c, key, spec).Connected?
    ensures CanConnect(c, key, spec) ==> Connect(c, key, spec).conn == PG.Conn(DatabaseOf(spec, PgOf(c, key, spec)))
    ensures IsMissing(c, key, spec) <==> Connect(c, key, spec).NotConnected? && IsNotFound(Connect(c, key, spec).error)
    ensures CanRead(c, key, spec) <==> LookUp(c, key, spec).Found?
    ensures CanRead(c, key, spec) ==> LookUp(c, key, spec).password == PasswordOf(c, key, spec)
  {
  }

  /** A program from start to end, or to its first error. */
  function Execute(s: PG.Server, conn: PG.Conn, p: Program): (PG.Server, bool) {
    if conn.database !in s.databases then (s, false)
    else match p
      case Ask(q, yes, no) => PG.RunAll(s, conn, if PG.Answer(s, q) then yes else no)
      case Run(stmts) => PG.RunAll(s, conn, stmts)
  }

  function Removed(c: Cluster, key: Key, cr: Object): Cluster {
    if Guarded(c, key, cr) then DropFinalizer(c, key, cr) else c
  }

  function Kept(c: Cluster, key: Key, cr: Object): Cluster {
    var m := SuccessMessage(key, cr.spec);
    if cr.fin then PatchStatus(c, key, cr, true, m)
    else if Guarded(c, key, cr) then
      var c' := StoreFinalizer(c, key, cr);
      PatchStatus(c', key, Live(c', key).value, true, m)
    else c
  }

  function Reported(c: Cluster, key: Key, cr: Object, e: Error): Cluster {
    PatchStatus(c, key, cr, false, Failed(e))
  }

  function ApplyRun(c: Cluster, key: Key, cr: Object): Cluster {
    match Connect(c, key, cr.spec)
    case NotConnected(e) => Reported(c, key, cr, e)
    case Connected(conn) =>
      match LookUp(c, key, cr.spec)
      case NotFound(e) => Reported(c, key, cr, e)
      case Found(password) =>
        var (s, ok) := Execute(c.server, conn, ApplyProgram(key, cr.spec, password));
        var c' := c.(server := s);
        if ok then Kept(c', key, cr) else Reported(c', key, cr, SqlFailed)
  }

  function CleanupRun(c: Cluster, key: Key, cr: Object): Cluster {
    if !cr.fin then c
    else if cr.spec.policy != Delete then Removed(c, key, cr)
    else match Connect(c, key, cr.spec)
      case NotConnected(e) => if IsNotFound(e) then Removed(c, key, cr) else c
      case Connected(conn) =>
        var (s, ok) := Execute(c.server, conn, CleanupProgram(key, cr.spec));
        var c' := c.(server := s);
        if ok then Removed(c', key, cr) else c'
  }

  /** What one undisturbed reconcile makes of the stores. */
  function Reconciled(c: Cluster, key: Key): Cluster {
    match Cached(c, key)
    case None => c
    case Some(cr) => if cr.deleted then CleanupRun(c, key, cr) else ApplyRun(c, key, cr)
  }

  // ---------- the steps add up to the piece ----------

  lemma SettleStep(w: World, key: Key)
    requires !PhaseOf(w, key).Idle?
    ensures Settle(w, key) == Settle(WorkStep(w, key, Normal), key)
  {
  }

  lemma SettleIdle(w: World, key: Key)
    requires PhaseOf(w, key).Idle?
    ensures Settle(w, key) == w
  {
  }

  lemma SettleReport(w: World, key: Key)
    requires PhaseOf(w, key).Report?
    ensures var Report(cr, ok, m) := PhaseOf(w, key); Settle(w, key).c == PatchStatus(w.c, key, cr, ok, m)
  {
    SettleStep(w, key);
    SettleIdle(WorkStep(w, key, Normal), key);
  }

  lemma SettleRelease(w: World, key: Key)
    requires PhaseOf(w, key).Release?
    ensures Settle(w, key).c == Removed(w.c, key, PhaseOf(w, key).cr)
  {
    SettleStep(w, key);
    SettleIdle(WorkStep(w, key, Normal), key);
  }

  lemma SettleStore(w: World, key: Key)
    requires PhaseOf(w, key).Store? && !PhaseOf(w, key).cr.fin
    ensures Settle(w, key).c == Kept(w.c, key, PhaseOf(w, key).cr)
  {
    SettleStep(w, key);
    var w' := WorkStep(w, key, Normal);
    if PhaseOf(w', key).Idle? {
      SettleIdle(w', key);
    } else {
      SettleReport(w', key);
    }
  }

  function Concluded(c: Cluster, key: Key, cr: Object, ok: bool): Cluster {
    if cr.deleted then if ok then Removed(c, key, cr) else c
    else if ok then Kept(c, key, cr) else Reported(c, key, cr, SqlFailed)
  }

  lemma SettleFail(w: World, key: Key, cr: Object, e: Error)
    requires PhaseOf(w, key) == Fail(cr, e)
    ensures Settle(w, key).c == if cr.deleted then w.c else Reported(w.c, key, cr, e)
  {
    if cr.deleted {
      SettleIdle(w, key);
    } else {
      SettleReport(w, key);
    }
  }

  lemma SettleDone(w: World, key: Key, cr: Object, conn: PG.Conn, p: Program, log: seq<Event>)
    requires Next(p, log) == Finished
    ensures Settle(Proceed(w, key, cr, conn, p, log), key).c == Concluded(w.c, key, cr, true)
  {
    var w' := Proceed(w, key, cr, conn, p, log);
    if cr.deleted {
      SettleRelease(w', key);
    } else if cr.fin {
      SettleReport(w', key);
    } else {
      SettleStore(w', key);
    }
  }

  function Todo(p: Program, log: seq<Event>): seq<PG.Stmt>
    requires p.Ask? ==> log != [] && log[0].Asked?
  {
    var all := Rest(p, log);
    var done := if p.Run? then |log| else |log| - 1;
    if done <= |all| then all[done..] else []
  }

  /** One statement of a program, undisturbed. */
  lemma RunMoves(w: World, key: Key, cr: Object, conn: PG.Conn, p: Program, log: seq<Event>, stmt: PG.Stmt)
    requires PhaseOf(w, key) == Sql(cr, conn, p, log) && Next(p, log) == RunOp(stmt)
    ensures WorkStep(w, key, Normal) ==
            match PG.Exec(w.c.server, conn, stmt)
            case None => At(w, key, Fail(cr, SqlFailed))
            case Some(s) => Proceed(w.(c := w.c.(server := s)), key, cr, conn, p, log + [Ran(stmt)])
  {
    hide Proceed, Fail, At;
  }

  lemma TodoSteps(p: Program, log: seq<Event>)
    requires p.Ask? ==> log != [] && log[0].Asked?
    requires (if p.Run? then |log| else |log| - 1) <= |Rest(p, log)|
    ensures Todo(p, log) == [] ==> Next(p, log) == Finished
    ensures Todo(p, log) != [] ==>
              var log' := log + [Ran(Todo(p, log)[0])];
              && Next(p, log) == RunOp(Todo(p, log)[0]) && (p.Ask? ==> log'[0].Asked?)
              && Rest(p, log') == Rest(p, log) && |log'| <= |Rest(p, log)| + (if p.Run? then 0 else 1)
              && Todo(p, log') == Todo(p, log)[1..]
  {
  }

  lemma {:induction false} SettleRun(w: World, key: Key, cr: Object, conn: PG.Conn, p: Program, log: seq<Event>)
    requires p.Ask? ==> log != [] && log[0].Asked?
    requires (if p.Run? then |log| else |log| - 1) <= |Rest(p, log)|
    ensures var (s, ok) := PG.RunAll(w.c.server, conn, Todo(p, log));
            Settle(Proceed(w, key, cr, conn, p, log), key).c == Concluded(w.c.(server := s), key, cr, ok)
    decreases |Todo(p, log)|
  {
    hide Settle, Concluded, WorkStep, PG.Exec, AfterApply, Fail, Next, Todo, Rest;
    var todo := Todo(p, log);
    TodoSteps(p, log);
    if todo == [] {
      SettleDone(w, key, cr, conn, p, log);
      assert w.c.(server := w.c.server) == w.c;
    } else {
      var w1 := Proceed(w, key, cr, conn, p, log);
      SettleStep(w1, key);
      RunMoves(w1, key, cr, conn, p, log, todo[0]);
      var r := PG.Exec(w.c.server, conn, todo[0]);
      if r.None? {
        SettleFailedRun(w1, key, cr);
      } else {
        var w2 := w1.(c := w1.c.(server := r.value));
        SettleRun(w2, key, cr, conn, p, log + [Ran(todo[0])]);
        var s := PG.RunAll(r.value, conn, todo[1..]).0;
        assert w2.c.(server := s) == w.c.(server := s);
      }
    }
  }

  lemma SettleFailedRun(w: World, key: Key, cr: Object)
    ensures Settle(At(w, key, Fail(cr, SqlFailed)), key).c == Concluded(w.c.(server := w.c.server), key, cr, false)
  {
    hide Settle;
    SettleFail(At(w, key, Fail(cr, SqlFailed)), key, cr, SqlFailed);
    assert w.c.(server := w.c.server) == w.c;
  }

  lemma SettleProgram(w: World, key: Key, cr: Object, conn: PG.Conn, p: Program)
    requires PhaseOf(w, key) == Sql(cr, conn, p, []) && Next(p, []) != Finished
    ensures var (s, ok) := Execute(w.c.server, conn, p);
            Settle(w, key).c == Concluded(w.c.(server := s), key, cr, ok)
  {
    if p.Run? {
      assert Proceed(w, key, cr, conn, p, []).phases == w.phases;
      assert Proceed(w, key, cr, conn, p, []) == w;
      SettleRun(w, key, cr, conn, p, []);
      assert Todo(p, []) == p.stmts;
    } else {
      SettleStep(w, key);
      if conn.database in w.c.server.databases {
        var e := Asked(p.question, PG.Answer(w.c.server, p.question));
        SettleRun(w, key, cr, conn, p, [e]);
        assert [] + [e] == [e];
      } else {
        SettleFail(WorkStep(w, key, Normal), key, cr, SqlFailed);
        assert w.c.(server := w.c.server) == w.c;
      }
    }
  }

  /** From the connection on. */
  function Dialled(c: Cluster, key: Key, cr: Object, conn: PG.Conn): Cluster {
    if cr.deleted then
      var (s, ok) := Execute(c.server, conn, CleanupProgram(key, cr.spec));
      Concluded(c.(server := s), key, cr, ok)
    else
      match LookUp(c, key, cr.spec)
      case NotFound(e) => Reported(c, key, cr, e)
      case Found(password) =>
        var (s, ok) := Execute(c.server, conn, ApplyProgram(key, cr.spec, password));
        Concluded(c.(server := s), key, cr, ok)
  }

  lemma SettleDialled(w: World, key: Key, cr: Object, conn: PG.Conn)
    requires PhaseOf(w, key) == AfterDial(key, cr, conn)
    ensures Settle(w, key).c == Dialled(w.c, key, cr, conn)
  {
    if !cr.deleted && cr.spec.body.UserBody? {
      SettleStep(w, key);
      var w' := WorkStep(w, key, Normal);
      match LookUp(w.c, key, cr.spec)
      case NotFound(e) => SettleFail(w', key, cr, e);
      case Found(password) => SettleProgram(w', key, cr, conn, ApplyProgram(key, cr.spec, password));
    } else {
      SettleProgram(w, key, cr, conn, if cr.deleted then CleanupProgram(key, cr.spec) else ApplyProgram(key, cr.spec, []));
    }
  }

  function Undialled(c: Cluster, key: Key, cr: Object, e: Error): Cluster {
    if cr.deleted then if IsNotFound(e) then Removed(c, key, cr) else c else Reported(c, key, cr, e)
  }

  lemma SettleUndialled(w: World, key: Key, cr: Object, e: Error)
    requires PhaseOf(w, key) == ConnectFail(cr, e)
    ensures Settle(w, key).c == Undialled(w.c, key, cr, e)
  {
    if cr.deleted && IsNotFound(e) {
      SettleRelease(w, key);
    } else {
      SettleFail(w, key, cr, e);
    }
  }

  lemma SettleResolve(w: World, key: Key, cr: Object)
    requires PhaseOf(w, key) == Resolve(cr)
    ensures Settle(w, key).c == match Connect(w.c, key, cr.spec)
                                case NotConnected(e) => Undialled(w.c, key, cr, e)
                                case Connected(conn) => Dialled(w.c, key, cr, conn)
  {
    SettleStep(w, key);
    var w1 := WorkStep(w, key, Normal);
    if PgId(key, cr.spec.ref) !in w.c.pgs {
      SettleUndialled(w1, key, cr, PgNotFound);
    } else {
      var pg := w.c.pgs[PgId(key, cr.spec.ref)];
      var id := SecretId(key, cr.spec.ref, pg);
      assert PhaseOf(w1, key) == Credentials(cr, pg) && w1.c == w.c;
      SettleStep(w1, key);
      var w2 := WorkStep(w1, key, Normal);
      if id !in w.c.secrets {
        SettleUndialled(w2, key, cr, SecretNotFound);
      } else if pg.superuserSecret.key !in w.c.secrets[id] {
        SettleUndialled(w2, key, cr, KeyMissing);
      } else {
        SettleStep(w2, key);
        var w3 := WorkStep(w2, key, Normal);
        var d := DialTarget(cr.spec, pg);
        if d !in w.c.server.databases {
          SettleUndialled(w3, key, cr, DialFailed);
        } else {
          SettleDialled(w3, key, cr, PG.Conn(d));
        }
      }
    }
  }

  /** An undisturbed reconcile of the protocol makes of the stores exactly what the piece says. */
  lemma AttemptIsReconciled(w: World, key: Key)
    requires PhaseOf(w, key).Idle?
    ensures Attempt(Play(w, []), key).w.c == Reconciled(w.c, key)
  {
    var w' := WorkStep(w, key, Normal);
    assert Attempt(Play(w, []), key).w == Settle(w', key);
    if Cached(w.c, key).None? {
      SettleIdle(w', key);
    } else {
      var cr := Cached(w.c, key).value;
      match AfterRead(cr)
      case Resolve(_) => SettleResolve(w', key, cr);
      case Release(_, _) => SettleRelease(w', key);
      case Idle => SettleIdle(w', key);
    }
  }

  // ---------- the cache has caught up ----------

  function Sync(c: Cluster, key: Key): Cluster {
    if |Versions(c, key)| == 1 then c else c.(store := c.store[key := [Live(c, key)]])
  }

  lemma {:induction false} SyncByDelivery(w: World, key: Key) returns (acts: seq<Action>)
    ensures forall a :: a in acts ==> a == Deliver(key)
    ensures Replay(w, acts) == w.(c := Sync(w.c, key))
    decreases |Versions(w.c, key)|
  {
    var vs := Versions(w.c, key);
    if |vs| == 1 {
      acts := [];
    } else {
      var w' := Step(w, Deliver(key));
      assert Versions(w'.c, key) == vs[1..];
      var more := SyncByDelivery(w', key);
      acts := [Deliver(key)] + more;
      assert w'.c.store[key := [Live(w.c, key)]] == w.c.store[key := [Live(w.c, key)]];
      assert Replay(w, acts) == Replay(w', more);
      if |vs| == 2 {
        assert vs[1..] == [Live(w.c, key)];
      }
    }
  }

  // ---------- programs are idempotent ----------

  ghost predicate IsProgram(key: Key, spec: Spec, p: Program) {
    p == CleanupProgram(key, spec) || exists password: Bytes :: p == ApplyProgram(key, spec, password)
  }

  /** A program run again finds its work done, or stops where it stopped. */
  lemma ExecuteTwice(s: PG.Server, conn: PG.Conn, key: Key, spec: Spec, p: Program)
    requires IsProgram(key, spec, p)
    ensures var (u, ok) := Execute(s, conn, p); Execute(u, conn, p) == (u, ok)
  {
    match spec.body
    case GrantBody(g) =>
      assert p == Run(Grants.GrantStmts(g)) || p == Run(Grants.RevokeStmts(g));
      var stmts := p.stmts;
      if conn.database in s.databases {
        assert stmts + [] == stmts;
        Statements.RunTwice(s, conn, stmts, []);
        Statements.RunKeepsSession(s, conn, stmts);
      }
    case _ =>
      if conn.database in s.databases {
        var stmts := if PG.Answer(s, p.question) then p.yes else p.no;
        if stmts != [] {
          assert stmts == [stmts[0]];
          Statements.RunOne(s, conn, stmts[0]);
          if PG.Exec(s, conn, stmts[0]).Some? {
            AskTwice(s, conn, stmts[0], p);
          }
        }
      }
  }

  lemma AskTwice(s: PG.Server, conn: PG.Conn, stmt: PG.Stmt, p: Program)
    requires p.Ask? && conn.database in s.databases && PG.Exec(s, conn, stmt).Some?
    requires [stmt] == if PG.Answer(s, p.question) then p.yes else p.no
    requires || (exists n :: p == Ask(PG.DatabaseNamed(n), [], [PG.CreateDatabase(n)]))
             || (exists n :: p == Ask(PG.DatabaseNamed(n), [PG.DropDatabase(n)], []))
             || (exists r, l :: p == Ask(PG.RoleNamed(r), [PG.AlterRole(r, l)], [PG.CreateRole(r, l)]))
             || (exists r :: p == Ask(PG.RoleNamed(r), [PG.DropRole(r)], []))
    ensures Execute(PG.Exec(s, conn, stmt).value, conn, p) == (PG.Exec(s, conn, stmt).value, true)
  {
    var u := PG.Exec(s, conn, stmt).value;
    if stmt.CreateRole? || stmt.AlterRole? {
      var again := PG.AlterRole(stmt.name, stmt.literal);
      assert u.roles[stmt.name := u.roles[stmt.name]] == u.roles;
      Statements.RunOne(u, conn, again);
    } else {
      Statements.RunOne(u, conn, stmt);
    }
  }
}
