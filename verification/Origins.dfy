/**
 * The logs that the protocol keeps are no more than notes. Here they are traced back, in every run, to the steps
 * at which the server answered and executed what they say.
 */
module Origins {
  import opened Base
  import opened Api
  import opened Protocol
  import opened Promises
  import opened Safety
  import PG = Postgres
  import Statements
  import Literals
  import Grants

  /** A worker's way through an SQL program: at[0] is the step that led into it, at[i + 1] the step of log[i]. */
  datatype Course = Course(cr: Object, conn: PG.Conn, password: Bytes, log: seq<Event>, at: seq<nat>)

  function ProgramOf(key: Key, cr: Object, password: Bytes): Program {
    if cr.deleted then CleanupProgram(key, cr.spec) else ApplyProgram(key, cr.spec, password)
  }

  /** This step leads into the program; the password of a role is what its Secret holds. */
  ghost predicate Opens(w: World, a: Action, key: Key, cr: Object, conn: PG.Conn, password: Bytes) {
    && a == Work(key, Normal)
    && if cr.deleted || !cr.spec.body.UserBody? then
         && PhaseOf(w, key).Dial? && PhaseOf(w, key).cr == cr
         && conn == PG.Conn(DatabaseOf(cr.spec, PhaseOf(w, key).pg)) && conn.database in w.c.server.databases
       else
         var (ref, id) := (cr.spec.body.password, (key.ns, cr.spec.body.password.name));
         && PhaseOf(w, key) == Password(cr, conn)
         && id in w.c.secrets && ref.key in w.c.secrets[id] && password == w.c.secrets[id][ref.key]
  }

  /** The server answers, or executes, and is u after that. */
  predicate Performs(s: PG.Server, u: PG.Server, conn: PG.Conn, e: Event) {
    match e
    case Asked(q, answer) => conn.database in s.databases && PG.Answer(s, q) == answer && u == s
    case Ran(stmt) => PG.Exec(s, conn, stmt) == Some(u)
  }

  /** At this step the server does what the event says. */
  ghost predicate Happens(w: World, a: Action, key: Key, conn: PG.Conn, e: Event) {
    a == Work(key, Normal) && Performs(w.c.server, Step(w, a).c.server, conn, e)
  }

  /** After step `from` and up to step `to` the worker waits where it is. */
  ghost predicate Waits(w0: World, acts: seq<Action>, from: int, to: nat, key: Key, ph: Phase)
    requires to <= |acts|
  {
    forall i: nat :: from < i <= to ==> PhaseOf(StateAt(w0, acts, i), key) == ph
  }

  /** Event i of the log happened at step at[i + 1]; until then the worker was waiting for it. */
  ghost predicate Happened(w0: World, acts: seq<Action>, n: nat, key: Key, k: Course, i: nat)
    requires n <= |acts| && |k.at| == |k.log| + 1 && i < |k.log|
  {
    && k.at[i] < k.at[i + 1] < n
    && Happens(StateAt(w0, acts, k.at[i + 1]), acts[k.at[i + 1]], key, k.conn, k.log[i])
    && Waits(w0, acts, k.at[i], k.at[i + 1], key, Sql(k.cr, k.conn, ProgramOf(key, k.cr, k.password), k.log[..i]))
  }

  /** The course took place within the first n steps of the run. */
  ghost predicate Traced(w0: World, acts: seq<Action>, n: nat, key: Key, k: Course)
    requires n <= |acts|
  {
    && |k.at| == |k.log| + 1 && k.at[0] < n
    && Opens(StateAt(w0, acts, k.at[0]), acts[k.at[0]], key, k.cr, k.conn, k.password)
    && forall i: nat :: i < |k.log| ==> Happened(w0, acts, n, key, k, i)
  }

  lemma TracedLater(w0: World, acts: seq<Action>, n: nat, m: nat, key: Key, k: Course)
    requires n <= m <= |acts| && Traced(w0, acts, n, key, k)
    ensures Traced(w0, acts, m, key, k)
  {
    forall i: nat | i < |k.log|
      ensures Happened(w0, acts, m, key, k, i)
    {
      assert Happened(w0, acts, n, key, k, i);
    }
  }

  /** One more event, at step n. */
  lemma TracedOn(w0: World, acts: seq<Action>, n: nat, key: Key, k: Course, e: Event) returns (k': Course)
    requires n < |acts| && Traced(w0, acts, n, key, k)
    requires Waits(w0, acts, k.at[|k.log|], n, key, Sql(k.cr, k.conn, ProgramOf(key, k.cr, k.password), k.log))
    requires Happens(StateAt(w0, acts, n), acts[n], key, k.conn, e) && k.at[|k.log|] < n
    ensures Traced(w0, acts, n + 1, key, k')
    ensures k' == k.(log := k.log + [e], at := k.at + [n])
  {
    k' := k.(log := k.log + [e], at := k.at + [n]);
    var m := n + 1;
    assert k'.log[..|k.log|] == k.log;
    assert Happened(w0, acts, m, key, k', |k.log|);
    forall i: nat | i < |k.log|
      ensures Happened(w0, acts, m, key, k', i)
    {
      assert Happened(w0, acts, n, key, k, i);
      assert k'.log[..i] == k.log[..i];
    }
  }

  // ---------- one step ----------

  /** A step within the program fails, or it is the event it asks for. */
  lemma SqlHappens(w: World, key: Key, cr: Object, conn: PG.Conn, p: Program, log: seq<Event>, reply: Reply) returns (e: Option<Event>)
    requires PhaseOf(w, key) == Sql(cr, conn, p, log) && Next(p, log) != Finished && reply != Crashed
    ensures var w' := WorkStep(w, key, reply);
            match e
            case None => PhaseOf(w', key) == Fail(cr, SqlFailed) && w'.applied == w.applied
            case Some(e) =>
              && w' == Proceed(w.(c := w'.c), key, cr, conn, p, log + [e])
              && IsNext(p, log, e) && Happens(w, Work(key, reply), key, conn, e)
  {
    e := None;
    if reply == Normal && conn.database in w.c.server.databases {
      match Next(p, log)
      case AskOp(q) => e := Some(Asked(q, PG.Answer(w.c.server, q)));
      case RunOp(stmt) =>
        if PG.Exec(w.c.server, conn, stmt).Some? {
          e := Some(Ran(stmt));
        }
    }
  }

  /** The step at which a worker comes to be where it is in its program. */
  lemma EntersSql(w: World, a: Action, key: Key, cr: Object, conn: PG.Conn, p: Program, log: seq<Event>) returns (password: Bytes)
    requires KeyInv(w, key) && PhaseOf(Step(w, a), key) == Sql(cr, conn, p, log) && PhaseOf(w, key) != Sql(cr, conn, p, log)
    ensures if log == [] then p == ProgramOf(key, cr, password) && Opens(w, a, key, cr, conn, password)
            else PhaseOf(w, key) == Sql(cr, conn, p, log[..|log| - 1]) && Happens(w, a, key, conn, log[|log| - 1])
  {
    password := [];
    hide SqlStep, Next, Happens, Opens, EnvStep;
    if !(a.Work? && a.key == key) {
      ForeignKeeps(w, a, key);
    } else if PhaseOf(w, key).Sql? {
      var Sql(cr', conn', p', log') := PhaseOf(w, key);
      var e := SqlHappens(w, key, cr', conn', p', log', a.reply);
      assert e.Some? && log == log' + [e.value];
    } else {
      PhaseIsOk(w, key);
      password := EntersByConnect(w, a.reply, key, cr, conn, p, log);
    }
  }

  lemma EntersByConnect(w: World, reply: Reply, key: Key, cr: Object, conn: PG.Conn, p: Program, log: seq<Event>) returns (password: Bytes)
    requires PhaseOf(WorkStep(w, key, reply), key) == Sql(cr, conn, p, log) && !PhaseOf(w, key).Sql?
    requires PhaseOf(w, key).Password? ==> !PhaseOf(w, key).cr.deleted
    ensures log == [] && p == ProgramOf(key, cr, password) && Opens(w, Work(key, reply), key, cr, conn, password)
  {
    password := [];
    hide StoreFinalizer, DropFinalizer, PatchStatus, ApplyProgram, CleanupProgram, Guarded, PgId, SecretId, SuccessMessage;
    if PhaseOf(w, key).Password? {
      var ref := cr.spec.body.password;
      password := w.c.secrets[(key.ns, ref.name)][ref.key];
    }
  }

  // ---------- whole runs ----------

  lemma StartsIdle(w0: World, acts: seq<Action>, key: Key)
    requires Init(w0)
    ensures PhaseOf(StateAt(w0, acts, 0), key) == Idle && StateAt(w0, acts, 0).applied == map[]
  {
    StateEnds(w0, acts);
  }

  lemma StateKeeps(w0: World, acts: seq<Action>, n: nat, key: Key)
    requires Init(w0) && n <= |acts|
    ensures KeyInv(StateAt(w0, acts, n), key)
  {
    RunKeeps(w0, acts[..n]);
  }

  /** The course is where the worker is after n steps. */
  ghost predicate Arrives(w0: World, acts: seq<Action>, n: nat, key: Key, k: Course, ph: Phase)
    requires n <= |acts|
  {
    && Traced(w0, acts, n, key, k)
    && ph == Sql(k.cr, k.conn, ProgramOf(key, k.cr, k.password), k.log)
    && k.at[|k.log|] < n && Waits(w0, acts, k.at[|k.log|], n, key, ph)
  }

  lemma ArrivesFirst(w0: World, acts: seq<Action>, n: nat, key: Key, ph: Phase, password: Bytes) returns (k: Course)
    requires n < |acts| && ph.Sql? && ph.log == [] && ph.program == ProgramOf(key, ph.cr, password)
    requires Opens(StateAt(w0, acts, n), acts[n], key, ph.cr, ph.conn, password) && PhaseOf(StateAt(w0, acts, n + 1), key) == ph
    ensures Arrives(w0, acts, n + 1, key, k, ph)
  {
    k := Course(ph.cr, ph.conn, password, [], [n]);
  }

  lemma ArrivesNext(w0: World, acts: seq<Action>, n: nat, key: Key, ph: Phase, k: Course) returns (k': Course)
    requires n < |acts| && ph.Sql? && ph.log != []
    requires Arrives(w0, acts, n, key, k, ph.(log := ph.log[..|ph.log| - 1]))
    requires Happens(StateAt(w0, acts, n), acts[n], key, ph.conn, ph.log[|ph.log| - 1]) && PhaseOf(StateAt(w0, acts, n + 1), key) == ph
    ensures Arrives(w0, acts, n + 1, key, k', ph)
  {
    hide Opens, Happens, Step, ProgramOf;
    k' := TracedOn(w0, acts, n, key, k, ph.log[|ph.log| - 1]);
    assert k'.log == ph.log;
  }

  lemma ArrivesStill(w0: World, acts: seq<Action>, n: nat, key: Key, ph: Phase, k: Course)
    requires n < |acts| && Arrives(w0, acts, n, key, k, ph) && PhaseOf(StateAt(w0, acts, n + 1), key) == ph
    ensures Arrives(w0, acts, n + 1, key, k, ph)
  {
    hide Opens, Happens, Step, ProgramOf;
    TracedLater(w0, acts, n, n + 1, key, k);
  }

  /** In every run, a worker within its program has come there event by event, on this server. */
  lemma {:induction false} SqlOrigin(w0: World, acts: seq<Action>, n: nat, key: Key) returns (k: Course)
    requires Init(w0) && n <= |acts| && PhaseOf(StateAt(w0, acts, n), key).Sql?
    ensures Arrives(w0, acts, n, key, k, PhaseOf(StateAt(w0, acts, n), key))
  {
    hide Init, StateAt, Step, KeyInv, Arrives, Opens, Happens, ProgramOf;
    StartsIdle(w0, acts, key);
    var ph := PhaseOf(StateAt(w0, acts, n), key);
    var w := StateAt(w0, acts, n - 1);
    StateNext(w0, acts, n - 1);
    StateKeeps(w0, acts, n - 1, key);
    if PhaseOf(w, key) == ph {
      k := SqlOrigin(w0, acts, n - 1, key);
      ArrivesStill(w0, acts, n - 1, key, ph, k);
    } else {
      var password := EntersSql(w, acts[n - 1], key, ph.cr, ph.conn, ph.program, ph.log);
      if ph.log == [] {
        k := ArrivesFirst(w0, acts, n - 1, key, ph, password);
      } else {
        k := SqlOrigin(w0, acts, n - 1, key);
        k := ArrivesNext(w0, acts, n - 1, key, ph, k);
      }
    }
  }

  // ---------- completed programs ----------

  /** The log of a completed apply, spelled out. */
  predicate ShowsApply(key: Key, spec: Spec, password: Bytes, log: seq<Event>) {
    match spec.body
    case DatabaseBody(_) =>
      var n := NameOf(key, spec.body);
      || log == [Asked(PG.DatabaseNamed(n), true)]
      || log == [Asked(PG.DatabaseNamed(n), false), Ran(PG.CreateDatabase(n))]
    case UserBody(_, _) =>
      var r := NameOf(key, spec.body);
      || log == [Asked(PG.RoleNamed(r), true), Ran(PG.AlterRole(r, Literals.QuoteLiteral(password)))]
      || log == [Asked(PG.RoleNamed(r), false), Ran(PG.CreateRole(r, Literals.QuoteLiteral(password)))]
    case GrantBody(g) =>
      && PG.IsAll(g.privileges)
      && log == [Ran(PG.GrantOnDatabase(g.privileges, g.database, g.role)),
                 Ran(PG.GrantOnTables(g.privileges, g.schema, g.role)),
                 Ran(PG.GrantDefaults(g.privileges, g.schema, g.role)),
                 Ran(PG.GrantOnSchema(PG.Usage, g.schema, g.role)),
                 Ran(PG.GrantOnSchema(PG.Create, g.schema, g.role))]
  }

  lemma ApplyShows(key: Key, spec: Spec, password: Bytes, log: seq<Event>)
    requires Completes(ApplyProgram(key, spec, password), log) && AllAccepted(log)
    ensures ShowsApply(key, spec, password, log)
  {
    match spec.body
    case GrantBody(g) =>
      assert |log| == 5;
      assert Accepted(log[0]) && Accepted(log[1]);
      Grants.OnlyAllFitsBoth(g.privileges);
    case _ =>
      assert log != [] && log == [log[0]] + log[1..];
  }

  predicate ShowsCleanup(key: Key, spec: Spec, log: seq<Event>) {
    match spec.body
    case DatabaseBody(_) =>
      var n := NameOf(key, spec.body);
      || log == [Asked(PG.DatabaseNamed(n), false)]
      || log == [Asked(PG.DatabaseNamed(n), true), Ran(PG.DropDatabase(n))]
    case UserBody(_, _) =>
      var r := NameOf(key, spec.body);
      || log == [Asked(PG.RoleNamed(r), false)]
      || log == [Asked(PG.RoleNamed(r), true), Ran(PG.DropRole(r))]
    case GrantBody(g) =>
      log == [Ran(PG.RevokeDefaults(g.privileges, g.schema, g.role)),
              Ran(PG.RevokeOnTables(g.privileges, g.schema, g.role)),
              Ran(PG.RevokeOnSchema(PG.Create, g.schema, g.role)),
              Ran(PG.RevokeOnDatabase(g.privileges, g.database, g.role))]
  }

  lemma CleanupShows(key: Key, spec: Spec, log: seq<Event>)
    requires Completes(CleanupProgram(key, spec), log)
    ensures ShowsCleanup(key, spec, log)
  {
    match spec.body
    case GrantBody(g) => assert |log| == 4;
    case _ => assert log != [] && log == [log[0]] + log[1..];
  }

  predicate Shows(key: Key, k: Course) {
    if k.cr.deleted then ShowsCleanup(key, k.cr.spec, k.log) else ShowsApply(key, k.cr.spec, k.password, k.log)
  }

  /** What the last event of a program about a database or a role, by its own name or the resource's, makes of the
      server: that one is there, or is gone, and all others are as before. */
  predicate Settled(s: PG.Server, u: PG.Server, key: Key, k: Course) {
    match k.cr.spec.body
    case DatabaseBody(name) =>
      var n := if name == "" then key.name else name;
      && u.databases.Keys == (if k.cr.deleted then s.databases.Keys - {n} else s.databases.Keys + {n})
      && (forall d :: d in s.databases && d in u.databases ==> u.databases[d] == s.databases[d])
      && u.roles == s.roles
    case UserBody(name, _) =>
      var r := if name == "" then key.name else name;
      && u.roles == (if k.cr.deleted then s.roles - {r} else s.roles[r := Literals.Stored(s.scs, k.password)])
      && u.databases == s.databases && u.scs == s.scs
    case GrantBody(_) => true
  }

  lemma RoleSettles(s: PG.Server, u: PG.Server, key: Key, k: Course)
    requires k.cr.spec.body.UserBody? && Shows(key, k) && Performs(s, u, k.conn, k.log[|k.log| - 1])
    ensures Settled(s, u, key, k)
  {
    hide PG.HasDependents;
    if k.cr.deleted {
      assert |k.log| == 1 ==> s.roles - {NameOf(key, k.cr.spec.body)} == s.roles;
    } else {
      Literals.StoredExactly(s.scs, k.password);
    }
  }

  lemma DatabaseSettles(s: PG.Server, u: PG.Server, key: Key, k: Course)
    requires k.cr.spec.body.DatabaseBody? && Shows(key, k) && Performs(s, u, k.conn, k.log[|k.log| - 1])
    ensures Settled(s, u, key, k)
  {
    hide PG.HasDependents;
  }

  lemma LastSettles(s: PG.Server, u: PG.Server, key: Key, k: Course)
    requires Shows(key, k) && Performs(s, u, k.conn, k.log[|k.log| - 1])
    ensures Settled(s, u, key, k)
  {
    hide Shows, Performs;
    match k.cr.spec.body
    case DatabaseBody(_) => DatabaseSettles(s, u, key, k);
    case UserBody(_, _) => RoleSettles(s, u, key, k);
    case GrantBody(_) =>
  }

  lemma GrantEstablishes(s: PG.Server, u: PG.Server, key: Key, k: Course, i: nat)
    requires Shows(key, k) && k.cr.spec.body.GrantBody? && i < |k.log| && Performs(s, u, k.conn, k.log[i])
    ensures k.log[i].Ran? && Statements.Established(u, k.conn, k.log[i].stmt)
  {
    Statements.ExecEstablishes(s, k.conn, k.log[i].stmt);
  }

  /** Right after the last step the database or role is there, or is gone; right after each step of a grant or revoke
      its entries are there, or are gone. */
  ghost predicate Achieved(w0: World, acts: seq<Action>, n: nat, key: Key, k: Course)
    requires n <= |acts| && Traced(w0, acts, n, key, k)
  {
    && k.at[|k.log|] < n
    && Settled(StateAt(w0, acts, k.at[|k.log|]).c.server, StateAt(w0, acts, k.at[|k.log|] + 1).c.server, key, k)
    && (k.cr.spec.body.GrantBody? ==> forall i: nat :: i < |k.log| ==> Establishes(w0, acts, n, key, k, i))
  }

  ghost predicate Establishes(w0: World, acts: seq<Action>, n: nat, key: Key, k: Course, i: nat)
    requires n <= |acts| && Traced(w0, acts, n, key, k) && i < |k.log|
  {
    && k.at[i + 1] < n && k.log[i].Ran?
    && Statements.Established(StateAt(w0, acts, k.at[i + 1] + 1).c.server, k.conn, k.log[i].stmt)
  }

  lemma EventAt(w0: World, acts: seq<Action>, n: nat, key: Key, k: Course, i: nat)
    requires n <= |acts| && Traced(w0, acts, n, key, k) && i < |k.log|
    ensures k.at[i + 1] < n
    ensures Performs(StateAt(w0, acts, k.at[i + 1]).c.server, StateAt(w0, acts, k.at[i + 1] + 1).c.server, k.conn, k.log[i])
  {
    assert Happened(w0, acts, n, key, k, i);
    StateNext(w0, acts, k.at[i + 1]);
  }

  lemma ShownIsAchieved(w0: World, acts: seq<Action>, n: nat, key: Key, k: Course)
    requires n <= |acts| && Traced(w0, acts, n, key, k) && Shows(key, k)
    ensures Achieved(w0, acts, n, key, k)
  {
    var last := |k.log| - 1;
    EventAt(w0, acts, n, key, k, last);
    hide Happened, StateAt, Performs, Statements.Established, Settled;
    LastSettles(StateAt(w0, acts, k.at[last + 1]).c.server, StateAt(w0, acts, k.at[last + 1] + 1).c.server, key, k);
    if k.cr.spec.body.GrantBody? {
      forall i: nat | i < |k.log|
        ensures Establishes(w0, acts, n, key, k, i)
      {
        EventAt(w0, acts, n, key, k, i);
        GrantEstablishes(StateAt(w0, acts, k.at[i + 1]).c.server, StateAt(w0, acts, k.at[i + 1] + 1).c.server, key, k, i);
      }
    }
  }

  // ---------- where a remembered apply comes from ----------

  lemma CompletesOn(w: World, key: Key, cr: Object, conn: PG.Conn, p: Program, log: seq<Event>, e: Event)
    requires PhaseOk(w, key, Sql(cr, conn, p, log)) && IsNext(p, log, e) && Happens(w, Work(key, Normal), key, conn, e)
    ensures Conforms(p, log + [e]) && AllAccepted(log + [e])
  {
    ConformsOn(p, log, e);
    if e.Ran? {
      ExecAccepts(w.c.server, conn, e.stmt);
    }
  }

  /** The step at which a log is written down. */
  lemma Records(w: World, a: Action, key: Key, uid: nat, g: nat) returns (e: Event)
    requires forall k :: KeyInv(w, k)
    requires (key, uid, g) in Step(w, a).applied
    requires (key, uid, g) !in w.applied || w.applied[(key, uid, g)] != Step(w, a).applied[(key, uid, g)]
    ensures var ph := PhaseOf(w, key);
            && ph.Sql? && !ph.cr.deleted && ph.cr.uid == uid && ph.cr.generation == g
            && Happens(w, a, key, ph.conn, e) && Step(w, a).applied[(key, uid, g)] == ph.log + [e]
            && Completes(ph.program, ph.log + [e]) && AllAccepted(ph.log + [e])
  {
    e := Asked(PG.RoleNamed(""), true);
    if !a.Work? {
      EnvKeepsPhases(w, a);
    } else if PhaseOf(w, a.key).Sql? && a.reply != Crashed {
      assert KeyInv(w, a.key);
      hide WorkStep, Happens, EnvStep, StoreStep, ReleaseStep, ReportStep;
      var Sql(cr, conn, p, log) := PhaseOf(w, a.key);
      var r := SqlHappens(w, a.key, cr, conn, p, log, a.reply);
      e := r.value;
      CompletesOn(w, a.key, cr, conn, p, log, e);
    } else {
      OnlySqlRecords(w, a.key, a.reply);
    }
  }

  lemma OnlySqlRecords(w: World, key: Key, reply: Reply)
    requires PhaseOf(w, key).Sql? ==> reply == Crashed
    ensures WorkStep(w, key, reply).applied == w.applied
  {
    hide StoreFinalizer, DropFinalizer, PatchStatus, Guarded, Live, SuccessMessage;
    hide SqlStep, ReadStep, ResolveStep, CredentialsStep, DialStep, PasswordStep;
    if IsConnecting(PhaseOf(w, key)) {
      ConnectingMoves(w, key, reply);
    }
  }

  lemma {:induction false} SpecStaysOn(w0: World, acts: seq<Action>, m: nat, n: nat, key: Key, u: nat, g: nat)
    requires Init(w0) && m <= n <= |acts| && (key, u, g) in StateAt(w0, acts, m).specs
    ensures (key, u, g) in StateAt(w0, acts, n).specs
    ensures StateAt(w0, acts, n).specs[(key, u, g)] == StateAt(w0, acts, m).specs[(key, u, g)]
    decreases n
  {
    hide Init, StateAt, Step, KeyInv;
    if m < n {
      SpecStaysOn(w0, acts, m, n - 1, key, u, g);
      StateKeeps(w0, acts, n - 1, key);
      StateNext(w0, acts, n - 1);
      SpecStays(StateAt(w0, acts, n - 1), acts[n - 1], key, u, g);
    }
  }

  /** The course was a whole apply of this resource, with the spec that its generation had. */
  ghost predicate WasApplied(w0: World, acts: seq<Action>, n: nat, key: Key, uid: nat, k: Course)
    requires n <= |acts|
  {
    && Traced(w0, acts, n, key, k) && Shows(key, k) && Achieved(w0, acts, n, key, k)
    && !k.cr.deleted && k.cr.uid == uid
    && (key, uid, k.cr.generation) in StateAt(w0, acts, n).specs
    && StateAt(w0, acts, n).specs[(key, uid, k.cr.generation)] == k.cr.spec
  }

  lemma WasAppliedLater(w0: World, acts: seq<Action>, n: nat, m: nat, key: Key, uid: nat, k: Course)
    requires Init(w0) && n <= m <= |acts| && WasApplied(w0, acts, n, key, uid, k)
    ensures WasApplied(w0, acts, m, key, uid, k)
  {
    TracedLater(w0, acts, n, m, key, k);
    hide Init, Traced, StateAt;
    ShownIsAchieved(w0, acts, m, key, k);
    SpecStaysOn(w0, acts, n, m, key, uid, k.cr.generation);
  }

  /** A course that ends with the apply is one of the spec of its generation. */
  lemma CourseIsApply(w0: World, acts: seq<Action>, n: nat, key: Key, k: Course)
    requires Init(w0) && n <= |acts| && Traced(w0, acts, n, key, k) && !k.cr.deleted
    requires Completes(ProgramOf(key, k.cr, k.password), k.log) && AllAccepted(k.log)
    ensures WasApplied(w0, acts, n, key, k.cr.uid, k)
  {
    ApplyShows(key, k.cr.spec, k.password, k.log);
    ShownIsAchieved(w0, acts, n, key, k);
    StateKeeps(w0, acts, k.at[0], key);
    var w := StateAt(w0, acts, k.at[0]);
    assert PhaseOk(w, key, PhaseOf(w, key)) && PhaseOf(w, key).cr == k.cr;
    hide Init, Traced, StateAt;
    SpecStaysOn(w0, acts, k.at[0], n, key, k.cr.uid, k.cr.generation);
  }

  /** In every run, an apply that is remembered was one on this server. */
  lemma {:induction false} ApplyOrigin(w0: World, acts: seq<Action>, n: nat, key: Key, uid: nat, g: nat) returns (k: Course)
    requires Init(w0) && n <= |acts| && (key, uid, g) in StateAt(w0, acts, n).applied
    ensures WasApplied(w0, acts, n, key, uid, k) && k.cr.generation == g && k.log == StateAt(w0, acts, n).applied[(key, uid, g)]
    decreases n
  {
    hide Init, StateAt, Step, KeyInv, Happens, WasApplied, Completes, Traced, ProgramOf, AllAccepted;
    StartsIdle(w0, acts, key);
    var (w, w') := (StateAt(w0, acts, n - 1), StateAt(w0, acts, n));
    StateNext(w0, acts, n - 1);
    if (key, uid, g) in w.applied && w.applied[(key, uid, g)] == w'.applied[(key, uid, g)] {
      k := ApplyOrigin(w0, acts, n - 1, key, uid, g);
      WasAppliedLater(w0, acts, n - 1, n, key, uid, k);
    } else {
      forall k ensures KeyInv(w, k) {
        StateKeeps(w0, acts, n - 1, k);
      }
      var e := Records(w, acts[n - 1], key, uid, g);
      k := SqlOrigin(w0, acts, n - 1, key);
      k := TracedOn(w0, acts, n - 1, key, k, e);
      CourseIsApply(w0, acts, n, key, k);
    }
  }
}
