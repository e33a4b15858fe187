/**
 * What one undisturbed reconcile answers to what it finds, case by case, written out in the fields of the stores.
 */
module Answers {
  import opened Base
  import opened Api
  import opened Protocol
  import opened Promises
  import opened Attempts
  import opened Undisturbed
  import opened Convergence
  import PG = Postgres
  import Statements
  import Literals
  import Grants

  // ---------- deleted resources ----------

  /** A finalizer goes when the PostgreSQL resource, or its superuser Secret in the same namespace, is missing; nothing
      is done to the server. */
  lemma MissingReleases(c: Cluster, key: Key, cr: Object)
    requires Cached(c, key) == Live(c, key) == Some(cr) && cr.deleted && cr.fin && cr.spec.policy == Delete
    requires var ns := if cr.spec.ref.ns == "" then key.ns else cr.spec.ref.ns;
             || (ns, cr.spec.ref.name) !in c.pgs
             || (ns, c.pgs[(ns, cr.spec.ref.name)].superuserSecret.name) !in c.secrets
    ensures !HasFinalizer(Reconciled(c, key), key) && Reconciled(c, key).server == c.server
  {
    ConnectIs(c, key, cr.spec);
    RemovedIsGone(c, key, cr);
  }

  /** It stays, and nothing is done, when both are there but the Secret lacks the key, or the database to connect to does
      not exist. */
  lemma UnreachableKeeps(c: Cluster, key: Key, cr: Object)
    requires Cached(c, key) == Some(cr) && cr.deleted && cr.fin && cr.spec.policy == Delete
    requires var ns := if cr.spec.ref.ns == "" then key.ns else cr.spec.ref.ns;
             && (ns, cr.spec.ref.name) in c.pgs
             && var pg := c.pgs[(ns, cr.spec.ref.name)];
             && (ns, pg.superuserSecret.name) in c.secrets
             && (|| pg.superuserSecret.key !in c.secrets[(ns, pg.superuserSecret.name)]
                 || (if cr.spec.body.GrantBody? then cr.spec.body.opts.database else pg.database) !in c.server.databases)
    ensures Reconciled(c, key) == c
  {
    ConnectIs(c, key, cr.spec);
  }

  /** It goes without a look at the server when the policy is not Delete. */
  lemma SkipReleases(c: Cluster, key: Key, cr: Object)
    requires Cached(c, key) == Live(c, key) == Some(cr) && cr.deleted && cr.spec.policy != Delete
    ensures !HasFinalizer(Reconciled(c, key), key) && Reconciled(c, key).server == c.server
  {
    RemovedIsGone(c, key, cr);
  }

  // ---------- where connections lead ----------

  /** A connection needs the PostgreSQL resource that the reference names, in its own namespace or the resource's, the
      Secret beside it with the key, and the database: the grant's own, or the one that the PostgreSQL resource names. */
  lemma ConnectsWhere(c: Cluster, key: Key, spec: Spec, d: PG.Name)
    ensures var ns := if spec.ref.ns == "" then key.ns else spec.ref.ns;
            Connect(c, key, spec) == Connected(PG.Conn(d)) <==>
              && (ns, spec.ref.name) in c.pgs
              && var pg := c.pgs[(ns, spec.ref.name)];
              && (ns, pg.superuserSecret.name) in c.secrets
              && pg.superuserSecret.key in c.secrets[(ns, pg.superuserSecret.name)]
              && d == (if spec.body.GrantBody? then spec.body.opts.database else pg.database) && d in c.server.databases
    ensures var ns := if spec.ref.ns == "" then key.ns else spec.ref.ns;
            Connect(c, key, spec) == NotConnected(PgNotFound) <==> (ns, spec.ref.name) !in c.pgs
    ensures var ns := if spec.ref.ns == "" then key.ns else spec.ref.ns;
            Connect(c, key, spec) == NotConnected(SecretNotFound) <==>
              (ns, spec.ref.name) in c.pgs && (ns, c.pgs[(ns, spec.ref.name)].superuserSecret.name) !in c.secrets
  {
    ConnectIs(c, key, spec);
  }

  // ---------- what the programs are about ----------

  /** A database's programs, run to the end: spec.name, or metadata.name without one, is there, or is gone; every other
      database and every role is as before. */
  lemma DatabaseAnswers(s: PG.Server, conn: PG.Conn, key: Key, spec: Spec, password: Bytes)
    requires spec.body.DatabaseBody?
    ensures var n := if spec.body.name == "" then key.name else spec.body.name;
            var (u, ok) := Execute(s, conn, ApplyProgram(key, spec, password));
            ok ==> u.databases.Keys == s.databases.Keys + {n} && u.roles == s.roles
                   && forall d :: d in s.databases ==> u.databases[d] == s.databases[d]
    ensures var n := if spec.body.name == "" then key.name else spec.body.name;
            var (u, ok) := Execute(s, conn, CleanupProgram(key, spec));
            ok ==> u.databases == s.databases - {n} && u.roles == s.roles
  {
    var n := if spec.body.name == "" then key.name else spec.body.name;
    Statements.RunOne(s, conn, PG.CreateDatabase(n));
    Statements.RunOne(s, conn, PG.DropDatabase(n));
    if n !in s.databases {
      assert s.databases - {n} == s.databases;
    }
  }

  /** The same for roles, with the password as the server reads it. */
  lemma RoleAnswers(s: PG.Server, conn: PG.Conn, key: Key, spec: Spec, password: Bytes)
    requires spec.body.UserBody?
    ensures var r := if spec.body.name == "" then key.name else spec.body.name;
            var (u, ok) := Execute(s, conn, ApplyProgram(key, spec, password));
            ok ==> u.roles == s.roles[r := Literals.Stored(s.scs, password)] && u.databases == s.databases
    ensures var r := if spec.body.name == "" then key.name else spec.body.name;
            var (u, ok) := Execute(s, conn, CleanupProgram(key, spec));
            ok ==> u.roles == s.roles - {r} && u.databases == s.databases
  {
    hide PG.Exec, Literals.QuoteLiteral, Literals.Stored, PG.HasDependents;
    var r := if spec.body.name == "" then key.name else spec.body.name;
    var literal := Literals.QuoteLiteral(password);
    RoleStatements(s, conn, r, password);
    Statements.RunOne(s, conn, PG.AlterRole(r, literal));
    Statements.RunOne(s, conn, PG.CreateRole(r, literal));
    Statements.RunOne(s, conn, PG.DropRole(r));
    if r !in s.roles {
      assert s.roles - {r} == s.roles;
    }
  }

  lemma RoleStatements(s: PG.Server, conn: PG.Conn, r: PG.Name, password: Bytes)
    ensures var u := PG.Exec(s, conn, PG.AlterRole(r, Literals.QuoteLiteral(password)));
            u.Some? ==> u.value.roles == s.roles[r := Literals.Stored(s.scs, password)] && u.value.databases == s.databases
    ensures var u := PG.Exec(s, conn, PG.CreateRole(r, Literals.QuoteLiteral(password)));
            u.Some? ==> u.value.roles == s.roles[r := Literals.Stored(s.scs, password)] && u.value.databases == s.databases
    ensures var u := PG.Exec(s, conn, PG.DropRole(r)); u.Some? ==> u.value.roles == s.roles - {r} && u.value.databases == s.databases
  {
    Literals.StoredExactly(s.scs, password);
  }

  /** A grant's programs, run to the end, leave what a whole grant or revoke leaves, in the session's database. */
  lemma GrantAnswers(s: PG.Server, key: Key, spec: Spec, password: Bytes)
    requires spec.body.GrantBody?
    ensures var g := spec.body.opts;
            var (u, ok) := Execute(s, PG.Conn(g.database), ApplyProgram(key, spec, password));
            (ok <==> Grants.Applicable(s, g)) && (ok ==> u == Grants.Granted(s, g))
    ensures var g := spec.body.opts;
            var (u, ok) := Execute(s, PG.Conn(g.database), CleanupProgram(key, spec));
            (ok <==> Grants.Applicable(s, g)) && (ok ==> u == Grants.Revoked(s, g))
  {
    Grants.GrantSucceedsExactly(s, spec.body.opts);
    Grants.RevokeSucceedsExactly(s, spec.body.opts);
  }

  // ---------- reports ----------

  /** A report on the live version leaves one Ready condition for it: its status, its generation, its message, and a time
      that moves only when the status flips. */
  lemma ReportAnswers(c: Cluster, key: Key, o: Object, ok: bool, message: Message)
    requires Live(c, key) == Some(o)
    ensures var c' := PatchStatus(c, key, o, ok, message);
            var was := Find(o.conditions, Ready);
            && Live(c', key).Some?
            && Find(Live(c', key).value.conditions, Ready) ==
               Some(Condition(Ready, ok, o.generation,
                              if was.Some? && was.value.status == ok then was.value.transition else c.clock, message))
            && c'.server == c.server
  {
    Patched(c, key, o, ok, message);
    SetThenFind(o.conditions, NewCondition(c, o, ok, message));
  }

  /** A live resource that cannot be reached is reported as failed, with the reason, and nothing is done to the server. */
  lemma UnreachableIsReported(c: Cluster, key: Key, cr: Object)
    requires Cached(c, key) == Live(c, key) == Some(cr) && !cr.deleted && !CanConnect(c, key, cr.spec)
    ensures var c' := Reconciled(c, key);
            && c'.server == c.server && Live(c', key).Some? && Live(c', key).value.fin == cr.fin
            && var ready := Find(Live(c', key).value.conditions, Ready);
            && ready.Some? && !ready.value.status && ready.value.observedGeneration == cr.generation
            && ready.value.message == Failed(if !HasPg(c, key, cr.spec) then PgNotFound
                                             else if IsMissing(c, key, cr.spec) then SecretNotFound
                                             else if DatabaseOf(cr.spec, PgOf(c, key, cr.spec)) in c.server.databases
                                                     || PgOf(c, key, cr.spec).superuserSecret.key !in
                                                        c.secrets[SuperuserOf(key, cr.spec, PgOf(c, key, cr.spec))]
                                             then KeyMissing else DialFailed)
  {
    ConnectIs(c, key, cr.spec);
    Patched(c, key, cr, false, Failed(Connect(c, key, cr.spec).error));
    ReportAnswers(c, key, cr, false, Failed(Connect(c, key, cr.spec).error));
  }

  /** A live resource whose statements fail is reported as failed; what its statements had done before stays. */
  lemma FailureIsReported(c: Cluster, key: Key, cr: Object)
    requires Cached(c, key) == Live(c, key) == Some(cr) && !cr.deleted
    requires CanConnect(c, key, cr.spec) && CanRead(c, key, cr.spec)
    requires var conn := PG.Conn(DatabaseOf(cr.spec, PgOf(c, key, cr.spec)));
             !Execute(c.server, conn, ApplyProgram(key, cr.spec, PasswordOf(c, key, cr.spec))).1
    ensures var c' := Reconciled(c, key);
            && Live(c', key).Some? && Live(c', key).value.fin == cr.fin
            && var ready := Find(Live(c', key).value.conditions, Ready);
            && ready.Some? && !ready.value.status && ready.value.observedGeneration == cr.generation
            && ready.value.message == Failed(SqlFailed)
  {
    hide Execute, ApplyProgram;
    ConnectIs(c, key, cr.spec);
    var conn := PG.Conn(DatabaseOf(cr.spec, PgOf(c, key, cr.spec)));
    var d := c.(server := Execute(c.server, conn, ApplyProgram(key, cr.spec, PasswordOf(c, key, cr.spec))).0);
    Patched(d, key, cr, false, Failed(SqlFailed));
    ReportAnswers(d, key, cr, false, Failed(SqlFailed));
  }

  // ---------- delays ----------

  /** The reconcile that ends with a report comes back after the requeue interval or thirty seconds if it succeeded, after
      the retry interval or five seconds if it failed, and the jitter; one that ends with a failed cleanup after five
      seconds. */
  lemma DelayAnswers(p: Play, key: Key, jitter: int)
    requires 0 <= jitter < 5_000_000_000
    ensures PhaseOf(p.w, key).Report? ==>
              var Report(cr, ok, _) := PhaseOf(p.w, key);
              var d := if ok then if cr.spec.requeueInterval.Some? then cr.spec.requeueInterval.value else 30_000_000_000
                       else if cr.spec.retryInterval.Some? then cr.spec.retryInterval.value else 5_000_000_000;
              1 <= d <= 9_223_372_031_854_775_808 ==>
                Verdict(p, key, jitter) == Result(false, d + jitter) && d <= d + jitter < d + 5_000_000_000
    ensures Rank(PhaseOf(p.w, key)) >= 3 ==> Verdict(p, key, jitter) == Result(false, 5_000_000_000)
  {
    hide Scene, Verdict;
    VerdictByPhase(p, key, jitter);
  }
}
