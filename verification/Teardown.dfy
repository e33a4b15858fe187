/** Deleting a whole application: its grants, its databases and its users, in the order that works. */
module Teardown {
  import opened Api
  import opened Protocol
  import opened Promises
  import opened Undisturbed
  import opened Fleet
  import opened Convergence
  import Runs
  import PG = Postgres
  import Statements
  import Grants

  predicate IsLeaving(c: Cluster, k: Key) {
    && Live(c, k).Some?
    && var o := Live(c, k).value;
    && o.deleted && o.fin && o.spec.policy == Delete && Fits(k.kind, o.spec.body)
  }

  function SpecOf(c: Cluster, k: Key): Spec
    requires IsLeaving(c, k)
  {
    Live(c, k).value.spec
  }

  predicate GrantReady(c: Cluster, k: Key) {
    && k.kind == GrantKind && IsLeaving(c, k)
    && var g := SpecOf(c, k).body.opts;
    && Reaches(c, k, SpecOf(c, k), g.database) && Grants.Applicable(c.server, g)
  }

  predicate DatabaseReady(c: Cluster, k: Key, admin: PG.Name) {
    && k.kind == DatabaseKind && IsLeaving(c, k)
    && Reaches(c, k, SpecOf(c, k), admin)
    && NameOf(k, SpecOf(c, k).body) != admin && NameOf(k, SpecOf(c, k).body) !in PG.TEMPLATES
  }

  predicate UserReady(c: Cluster, k: Key, admin: PG.Name) {
    && k.kind == UserKind && IsLeaving(c, k)
    && Reaches(c, k, SpecOf(c, k), admin)
    && NameOf(k, SpecOf(c, k).body) != c.server.superuser
  }

  predicate Distinct(keys: seq<Key>) {
    forall i, j :: 0 <= i < j < |keys| ==> keys[i] != keys[j]
  }

  predicate AllReady(c: Cluster, keys: seq<Key>, admin: PG.Name) {
    && Distinct(keys)
    && forall k :: k in keys ==> if k.kind == GrantKind then GrantReady(c, k)
                                 else if k.kind == DatabaseKind then DatabaseReady(c, k, admin)
                                 else UserReady(c, k, admin)
  }

  // ---------- one pass of each kind ----------

  /** A deleted resource whose cleanup went through has lost its finalizer. */
  lemma CleanPass(c: Cluster, k: Key)
    requires IsLeaving(c, k) && Connect(c, k, SpecOf(c, k)).Connected?
    requires Execute(c.server, Connect(c, k, SpecOf(c, k)).conn, CleanupProgram(k, SpecOf(c, k))).1
    ensures !HasFinalizer(Pass(c, k), k)
    ensures Pass(c, k).server == Execute(c.server, Connect(c, k, SpecOf(c, k)).conn, CleanupProgram(k, SpecOf(c, k))).0
    ensures Elsewhere(c, Pass(c, k), k)
  {
    var d := Sync(c, k);
    var cr := Live(c, k).value;
    PassElsewhere(c, k);
    assert d.server == c.server && d.pgs == c.pgs && d.secrets == c.secrets;
    assert Connect(d, k, cr.spec) == Connect(c, k, cr.spec);
    var conn := Connect(c, k, cr.spec).conn;
    RemovedIsGone(d.(server := Execute(d.server, conn, CleanupProgram(k, cr.spec)).0), k, cr);
  }

  /** The databases, roles and schemas stay; no role gets into a database that it was not in. */
  ghost predicate Shrinks(s: PG.Server, u: PG.Server) {
    && u.databases.Keys == s.databases.Keys && u.roles == s.roles && u.superuser == s.superuser
    && (forall d, n :: PG.HasSchema(u, d, n) == PG.HasSchema(s, d, n))
    && (forall r, d :: d in u.databases && PG.InDatabase(r, u.databases[d]) ==> PG.InDatabase(r, s.databases[d]))
  }

  lemma RevokedShrinks(s: PG.Server, g: Grants.GrantOpts)
    requires Grants.Applicable(s, g)
    ensures Shrinks(s, Grants.Revoked(s, g))
  {
    var v := Grants.Look(s, g);
    var u := Grants.Revoked(s, g);
    Grants.RevokeEffects(g, v);
    forall r, d | d in u.databases && PG.InDatabase(r, u.databases[d])
      ensures PG.InDatabase(r, s.databases[d])
    {
      if d == g.database {
        var y := u.databases[d].schemas[g.schema];
        var x := s.databases[d].schemas[g.schema];
        assert y.acl <= x.acl && y.defaults <= x.defaults;
        assert PG.InSchema(r, y) ==> PG.InSchema(r, x) by { RevokedInSchema(r, x, y); }
        assert u.databases[d].acl <= s.databases[d].acl;
        forall n | n in u.databases[d].schemas && PG.InSchema(r, u.databases[d].schemas[n])
          ensures n in s.databases[d].schemas && PG.InSchema(r, s.databases[d].schemas[n])
        {
        }
      }
    }
  }

  lemma RevokedInSchema(r: PG.Name, x: PG.Schema, y: PG.Schema)
    requires y.acl <= x.acl && y.defaults <= x.defaults && y.tables.Keys == x.tables.Keys
    requires forall t :: t in y.tables ==> y.tables[t].owner == x.tables[t].owner && y.tables[t].acl <= x.tables[t].acl
    ensures PG.InSchema(r, y) ==> PG.InSchema(r, x)
  {
  }

  lemma GrantPass(c: Cluster, k: Key)
    requires GrantReady(c, k)
    ensures !HasFinalizer(Pass(c, k), k) && Elsewhere(c, Pass(c, k), k)
    ensures Shrinks(c.server, Pass(c, k).server)
  {
    var g := SpecOf(c, k).body.opts;
    Grants.RevokeSucceedsExactly(c.server, g);
    CleanPass(c, k);
    RevokedShrinks(c.server, g);
  }

  lemma DatabasePass(c: Cluster, k: Key, admin: PG.Name)
    requires DatabaseReady(c, k, admin)
    ensures !HasFinalizer(Pass(c, k), k) && Elsewhere(c, Pass(c, k), k)
    ensures Pass(c, k).server == c.server.(databases := c.server.databases - {NameOf(k, SpecOf(c, k).body)})
  {
    var n := NameOf(k, SpecOf(c, k).body);
    Statements.RunOne(c.server, PG.Conn(admin), PG.DropDatabase(n));
    CleanPass(c, k);
    if n !in c.server.databases {
      assert c.server.databases - {n} == c.server.databases;
    }
  }

  lemma UserPass(c: Cluster, k: Key, admin: PG.Name)
    requires UserReady(c, k, admin) && !PG.HasDependents(c.server, NameOf(k, SpecOf(c, k).body))
    ensures !HasFinalizer(Pass(c, k), k) && Elsewhere(c, Pass(c, k), k)
    ensures Pass(c, k).server == c.server.(roles := c.server.roles - {NameOf(k, SpecOf(c, k).body)})
  {
    var r := NameOf(k, SpecOf(c, k).body);
    Statements.RunOne(c.server, PG.Conn(admin), PG.DropRole(r));
    CleanPass(c, k);
    if r !in c.server.roles {
      assert c.server.roles - {r} == c.server.roles;
    }
  }

  // ---------- the three rounds ----------

  lemma SameElsewhere(c: Cluster, c': Cluster, k: Key, j: Key)
    requires Elsewhere(c, c', k) && j != k
    ensures Live(c', j) == Live(c, j) && IsLeaving(c', j) == IsLeaving(c, j)
  {
    assert Versions(c', j) == Versions(c, j);
  }

  /** What one pass leaves of another resource's readiness. */
  lemma StaysReady(c: Cluster, c': Cluster, k: Key, j: Key, admin: PG.Name)
    requires Elsewhere(c, c', k) && j != k && c'.server.superuser == c.server.superuser
    ensures Live(c', j) == Live(c, j)
    ensures DatabaseReady(c, j, admin) && admin in c'.server.databases ==> DatabaseReady(c', j, admin)
    ensures UserReady(c, j, admin) && admin in c'.server.databases ==> UserReady(c', j, admin)
    ensures GrantReady(c, j) && Shrinks(c.server, c'.server) ==> GrantReady(c', j)
  {
    assert Versions(c', j) == Versions(c, j);
    if GrantReady(c, j) && Shrinks(c.server, c'.server) {
      var g := SpecOf(c, j).body.opts;
      assert PG.HasSchema(c'.server, g.database, g.schema);
    }
  }

  lemma GrantRoundStep(c: Cluster, keys: seq<Key>, admin: PG.Name)
    requires keys != [] && keys[0].kind == GrantKind && AllReady(c, keys, admin) && admin in c.server.databases
    ensures AllReady(Pass(c, keys[0]), keys[1..], admin) && admin in Pass(c, keys[0]).server.databases
  {
    var c' := Pass(c, keys[0]);
    assert keys[0] in keys;
    GrantPass(c, keys[0]);
    forall j | j in keys[1..]
      ensures if j.kind == GrantKind then GrantReady(c', j)
              else if j.kind == DatabaseKind then DatabaseReady(c', j, admin)
              else UserReady(c', j, admin)
    {
      assert j in keys && j != keys[0];
      StaysReady(c, c', keys[0], j, admin);
    }
  }

  lemma DatabaseRoundStep(c: Cluster, keys: seq<Key>, admin: PG.Name)
    requires keys != [] && keys[0].kind == DatabaseKind && AllReady(c, keys, admin) && admin in c.server.databases
    requires forall k :: k in keys ==> k.kind != GrantKind
    ensures AllReady(Pass(c, keys[0]), keys[1..], admin) && admin in Pass(c, keys[0]).server.databases
  {
    var c' := Pass(c, keys[0]);
    assert keys[0] in keys;
    DatabasePass(c, keys[0], admin);
    forall j | j in keys[1..]
      ensures if j.kind == DatabaseKind then DatabaseReady(c', j, admin) else UserReady(c', j, admin)
    {
      assert j in keys && j != keys[0];
      StaysReady(c, c', keys[0], j, admin);
    }
  }

  /** Whatever passes follow, a resource they are not about stays as it is. */
  lemma {:induction false} PassesElsewhere(c: Cluster, keys: seq<Key>, j: Key)
    requires j !in keys
    ensures Live(Passes(c, keys), j) == Live(c, j)
    decreases |keys|
  {
    if keys != [] {
      PassElsewhere(c, keys[0]);
      assert Versions(Pass(c, keys[0]), j) == Versions(c, j) by { assert keys[0] in keys; }
      PassesElsewhere(Pass(c, keys[0]), keys[1..], j);
    }
  }

  lemma DistinctHead(ks: seq<Key>, rest: seq<Key>)
    requires ks != [] && Distinct(ks + rest)
    ensures ks[0] !in ks[1..]
  {
    assert forall i :: 0 <= i < |ks| ==> (ks + rest)[i] == ks[i];
  }

  lemma ShrinksNot(s: PG.Server)
    ensures Shrinks(s, s)
  {
  }

  lemma ShrinksOn(s: PG.Server, u: PG.Server, v: PG.Server)
    requires Shrinks(s, u) && Shrinks(u, v)
    ensures Shrinks(s, v)
  {
  }

  lemma StillNoFinalizer(c: Cluster, c': Cluster, k: Key)
    requires !HasFinalizer(c, k) && Live(c', k) == Live(c, k)
    ensures !HasFinalizer(c', k)
  {
  }

  lemma {:induction false} GrantRound(c: Cluster, gs: seq<Key>, rest: seq<Key>, admin: PG.Name)
    requires forall k :: k in gs ==> k.kind == GrantKind
    requires AllReady(c, gs + rest, admin) && admin in c.server.databases
    ensures var c' := Passes(c, gs);
            && AllReady(c', rest, admin) && Shrinks(c.server, c'.server)
            && (forall k :: k in gs ==> !HasFinalizer(c', k))
            && (forall k :: k in rest ==> Live(c', k) == Live(c, k))
    decreases |gs|
  {
    hide Pass, DatabaseReady, UserReady, GrantReady, HasFinalizer, Live, Shrinks;
    if gs == [] {
      ShrinksNot(c.server);
      assert gs + rest == rest;
    } else {
      var c1 := Pass(c, gs[0]);
      var keys := gs + rest;
      assert keys[0] == gs[0] && gs[0] in gs && keys[1..] == gs[1..] + rest && keys[0] in keys;
      GrantRoundStep(c, keys, admin);
      GrantPass(c, gs[0]);
      GrantRound(c1, gs[1..], rest, admin);
      DistinctHead(gs, rest);
      PassesElsewhere(c1, gs[1..], gs[0]);
      forall k | k in rest
        ensures Live(c1, k) == Live(c, k)
      {
        assert k in keys[1..] && k != gs[0];
        SameElsewhere(c, c1, gs[0], k);
      }
      StillNoFinalizer(c1, Passes(c1, gs[1..]), gs[0]);
      ShrinksOn(c.server, c1.server, Passes(c1, gs[1..]).server);
      assert forall k :: k in gs ==> k == gs[0] || k in gs[1..];
    }
  }

  function NamesOf(c: Cluster, bs: seq<Key>): set<PG.Name>
    requires forall k :: k in bs ==> IsLeaving(c, k) && k.kind != GrantKind
  {
    set k | k in bs :: NameOf(k, SpecOf(c, k).body)
  }

  lemma DatabaseRoundNext(c: Cluster, bs: seq<Key>, rest: seq<Key>, admin: PG.Name)
    requires bs != [] && forall k :: k in bs ==> k.kind == DatabaseKind && IsLeaving(c, k)
    requires forall k :: k in rest ==> k.kind == UserKind
    requires AllReady(c, bs + rest, admin) && admin in c.server.databases
    ensures var c1 := Pass(c, bs[0]);
            && AllReady(c1, bs[1..] + rest, admin) && admin in c1.server.databases
            && !HasFinalizer(c1, bs[0]) && bs[0] !in bs[1..]
            && c1.server == c.server.(databases := c.server.databases - {NameOf(bs[0], SpecOf(c, bs[0]).body)})
            && (forall k :: k in bs[1..] ==> Live(c1, k) == Live(c, k) && k.kind == DatabaseKind && IsLeaving(c1, k))
            && (forall k :: k in rest ==> Live(c1, k) == Live(c, k))
  {
    hide Pass, DatabaseReady, UserReady, GrantReady, HasFinalizer, Live;
    var c1 := Pass(c, bs[0]);
    var keys := bs + rest;
    assert keys[0] == bs[0] && bs[0] in bs && keys[1..] == bs[1..] + rest && keys[0] in keys;
    DatabaseRoundStep(c, keys, admin);
    DatabasePass(c, bs[0], admin);
    forall k | k in keys[1..]
      ensures Live(c1, k) == Live(c, k)
    {
      assert k != bs[0];
      SameElsewhere(c, c1, bs[0], k);
    }
    assert forall k :: k in bs[1..] ==> k in bs && k in keys[1..];
    assert forall k :: k in rest ==> k in keys[1..];
  }

  lemma {:induction false} DatabaseRound(c: Cluster, bs: seq<Key>, rest: seq<Key>, admin: PG.Name)
    requires forall k :: k in bs ==> k.kind == DatabaseKind && IsLeaving(c, k)
    requires forall k :: k in rest ==> k.kind == UserKind
    requires AllReady(c, bs + rest, admin) && admin in c.server.databases
    ensures var c' := Passes(c, bs);
            && AllReady(c', rest, admin)
            && c'.server == c.server.(databases := c.server.databases - NamesOf(c, bs))
            && admin in c'.server.databases
            && (forall k :: k in bs ==> !HasFinalizer(c', k))
            && (forall k :: k in rest ==> Live(c', k) == Live(c, k))
    decreases |bs|
  {
    if bs == [] {
      assert bs + rest == rest;
      assert c.server.databases - NamesOf(c, bs) == c.server.databases;
    } else {
      var c1 := Pass(c, bs[0]);
      DatabaseRoundNext(c, bs, rest, admin);
      DatabaseRound(c1, bs[1..], rest, admin);
      PassesElsewhere(c1, bs[1..], bs[0]);
      assert forall k :: k in bs ==> k == bs[0] || k in bs[1..];
      NamesOfHead(c, c1, bs);
      Minus(c.server.databases, {NameOf(bs[0], SpecOf(c, bs[0]).body)}, NamesOf(c1, bs[1..]));
    }
  }

  lemma Minus<V>(m: map<PG.Name, V>, a: set<PG.Name>, b: set<PG.Name>)
    ensures m - a - b == m - (a + b)
  {
  }

  lemma NamesOfHead(c: Cluster, c1: Cluster, ks: seq<Key>)
    requires ks != [] && forall k :: k in ks ==> IsLeaving(c, k) && k.kind != GrantKind
    requires forall k :: k in ks[1..] ==> Live(c1, k) == Live(c, k)
    ensures forall k :: k in ks[1..] ==> IsLeaving(c1, k) && k.kind != GrantKind
    ensures NamesOf(c, ks) == {NameOf(ks[0], SpecOf(c, ks[0]).body)} + NamesOf(c1, ks[1..])
  {
    assert forall k :: k in ks <==> k == ks[0] || k in ks[1..];
  }

  lemma UserRoundNext(c: Cluster, us: seq<Key>, admin: PG.Name)
    requires us != [] && forall k :: k in us ==> k.kind == UserKind && IsLeaving(c, k)
    requires AllReady(c, us, admin) && admin in c.server.databases
    requires forall r :: r in NamesOf(c, us) ==> !PG.HasDependents(c.server, r)
    ensures var c1 := Pass(c, us[0]);
            && AllReady(c1, us[1..], admin) && c1.server.databases == c.server.databases
            && !HasFinalizer(c1, us[0]) && us[0] !in us[1..]
            && c1.server == c.server.(roles := c.server.roles - {NameOf(us[0], SpecOf(c, us[0]).body)})
            && forall k :: k in us[1..] ==> Live(c1, k) == Live(c, k) && k.kind == UserKind && IsLeaving(c1, k)
  {
    var c1 := Pass(c, us[0]);
    assert us[0] in us;
    assert NameOf(us[0], SpecOf(c, us[0]).body) in NamesOf(c, us);
    UserPass(c, us[0], admin);
    forall j | j in us[1..]
      ensures j in us && j != us[0] && Live(c1, j) == Live(c, j) && UserReady(c1, j, admin)
    {
      StaysReady(c, c1, us[0], j, admin);
    }
  }

  lemma {:induction false} UserRound(c: Cluster, us: seq<Key>, admin: PG.Name)
    requires forall k :: k in us ==> k.kind == UserKind && IsLeaving(c, k)
    requires AllReady(c, us, admin) && admin in c.server.databases
    requires forall r :: r in NamesOf(c, us) ==> !PG.HasDependents(c.server, r)
    ensures var c' := Passes(c, us);
            && c'.server == c.server.(roles := c.server.roles - NamesOf(c, us))
            && forall k :: k in us ==> !HasFinalizer(c', k)
    decreases |us|
  {
    if us == [] {
      assert c.server.roles - NamesOf(c, us) == c.server.roles;
    } else {
      var c1 := Pass(c, us[0]);
      UserRoundNext(c, us, admin);
      NamesOfHead(c, c1, us);
      forall r | r in NamesOf(c1, us[1..])
        ensures !PG.HasDependents(c1.server, r)
      {
        assert r in NamesOf(c, us);
      }
      UserRound(c1, us[1..], admin);
      PassesElsewhere(c1, us[1..], us[0]);
      assert forall k :: k in us ==> k == us[0] || k in us[1..];
      Minus(c.server.roles, {NameOf(us[0], SpecOf(c, us[0]).body)}, NamesOf(c1, us[1..]));
    }
  }

  /** Every database in which the users' roles own something or have an entry is the target of one of the grants to
      that role, and every granted database has a Database resource. */
  ghost predicate Closed(c: Cluster, gs: seq<Key>, bs: seq<Key>, us: seq<Key>)
    requires forall k :: k in gs ==> k.kind == GrantKind && IsLeaving(c, k)
    requires forall k :: k in bs ==> k.kind == DatabaseKind && IsLeaving(c, k)
    requires forall k :: k in us ==> k.kind == UserKind && IsLeaving(c, k)
  {
    && (forall r, d :: r in NamesOf(c, us) && d in c.server.databases && PG.InDatabase(r, c.server.databases[d]) ==>
          exists k :: k in gs && SpecOf(c, k).body.opts.role == r && SpecOf(c, k).body.opts.database == d)
    && (forall k :: k in gs ==> SpecOf(c, k).body.opts.database in NamesOf(c, bs))
  }

  /** Grants, then databases, then users: every finalizer is cleared, and the named databases and roles are gone. */
  lemma GrantsDatabasesUsers(c: Cluster, gs: seq<Key>, bs: seq<Key>, us: seq<Key>, admin: PG.Name)
    requires forall k :: k in gs ==> k.kind == GrantKind && IsLeaving(c, k)
    requires forall k :: k in bs ==> k.kind == DatabaseKind && IsLeaving(c, k)
    requires forall k :: k in us ==> k.kind == UserKind && IsLeaving(c, k)
    requires AllReady(c, gs + (bs + us), admin) && admin in c.server.databases && Closed(c, gs, bs, us)
    ensures var c' := Passes(c, gs + (bs + us));
            && (forall k :: k in gs || k in bs || k in us ==> !HasFinalizer(c', k))
            && c'.server.databases.Keys == c.server.databases.Keys - NamesOf(c, bs)
            && c'.server.roles.Keys == c.server.roles.Keys - NamesOf(c, us)
  {
    hide Passes, AllReady, IsLeaving, NamesOf, Closed, HasFinalizer, Live, PG.HasDependents;
    assert forall k :: k in bs || k in us ==> k in bs + us;
    PassesAppend(c, gs, bs + us);
    var c1 := Passes(c, gs);
    PassesAppend(c1, bs, us);
    var c2 := Passes(c1, bs);
    GrantRound(c, gs, bs + us, admin);
    SameNames(c, c1, bs);
    SameNames(c, c1, us);
    DatabaseRound(c1, bs, us, admin);
    SameNames(c1, c2, us);
    NoDependents(c, c1.server, c2.server, gs, bs, us);
    UserRound(c2, us, admin);
    DisjointRounds(c, gs, bs, us);
    forall k | k in gs || k in bs
      ensures !HasFinalizer(Passes(c2, us), k)
    {
      if k in gs {
        PassesElsewhere(c1, bs, k);
        StillNoFinalizer(c1, c2, k);
      }
      PassesElsewhere(c2, us, k);
      StillNoFinalizer(c2, Passes(c2, us), k);
    }
  }

  lemma SameNames(c: Cluster, c': Cluster, ks: seq<Key>)
    requires forall k :: k in ks ==> IsLeaving(c, k) && k.kind != GrantKind && Live(c', k) == Live(c, k)
    ensures forall k :: k in ks ==> IsLeaving(c', k)
    ensures NamesOf(c', ks) == NamesOf(c, ks)
  {
  }

  /** After grants and databases, nothing is left that depends on the users' roles. */
  lemma NoDependents(c: Cluster, s1: PG.Server, s2: PG.Server, gs: seq<Key>, bs: seq<Key>, us: seq<Key>)
    requires forall k :: k in gs ==> k.kind == GrantKind && IsLeaving(c, k)
    requires forall k :: k in bs ==> k.kind == DatabaseKind && IsLeaving(c, k)
    requires forall k :: k in us ==> k.kind == UserKind && IsLeaving(c, k)
    requires Closed(c, gs, bs, us) && Shrinks(c.server, s1)
    requires s2 == s1.(databases := s1.databases - NamesOf(c, bs))
    ensures forall r :: r in NamesOf(c, us) ==> !PG.HasDependents(s2, r)
  {
    forall r, d | r in NamesOf(c, us) && d in s2.databases
      ensures !PG.InDatabase(r, s2.databases[d])
    {
      assert d !in NamesOf(c, bs) && d in s1.databases;
      assert !PG.InDatabase(r, c.server.databases[d]);
    }
  }

  lemma DisjointRounds(c: Cluster, gs: seq<Key>, bs: seq<Key>, us: seq<Key>)
    requires forall k :: k in gs ==> k.kind == GrantKind
    requires forall k :: k in bs ==> k.kind == DatabaseKind
    requires forall k :: k in us ==> k.kind == UserKind
    ensures forall k :: k in gs ==> k !in bs && k !in us
    ensures forall k :: k in bs ==> k !in us
  {
  }

  // ---------- why not in another order ----------

  /** A pass over a resource whose cleanup is hopeless leaves it and the server alone. */
  lemma HopelessPass(c: Cluster, k: Key, ids: set<(string, string)>)
    requires IsLeaving(c, k) && Runs.Hopeless(c, k, SpecOf(c, k), ids)
    ensures Live(Pass(c, k), k) == Live(c, k) && Pass(c, k).server == c.server
  {
    var d := Sync(c, k);
    var spec := SpecOf(c, k);
    PassElsewhere(c, k);
    assert Reconciled(d, k) == CleanupRun(d, k, Live(c, k).value);
    hide PG.HasDependents, Sync, PatchStatus, SetCondition;
    assert d.(server := d.server) == d;
    if Connect(d, k, spec).Connected? {
      var r := NameOf(k, spec.body);
      Statements.RunOne(c.server, Connect(d, k, spec).conn, PG.DropRole(r));
    }
  }

  /** Whatever passes over whatever resources follow, for as long as it is hopeless. */
  lemma {:induction false} HopelessPasses(c: Cluster, k: Key, keys: seq<Key>, ids: set<(string, string)>)
    requires IsLeaving(c, k)
    requires forall i :: 0 <= i <= |keys| ==> Runs.Hopeless(Passes(c, keys[..i]), k, SpecOf(c, k), ids)
    ensures Live(Passes(c, keys), k) == Live(c, k)
    decreases |keys|
  {
    hide Pass, Runs.Hopeless;
    if keys != [] {
      var c1 := Pass(c, keys[0]);
      PassesFirst(c, keys, 0);
      if keys[0] == k {
        HopelessPass(c, k, ids);
      } else {
        PassElsewhere(c, keys[0]);
        SameElsewhere(c, c1, keys[0], k);
      }
      forall i | 0 <= i <= |keys[1..]|
        ensures Runs.Hopeless(Passes(c1, keys[1..][..i]), k, SpecOf(c1, k), ids)
      {
        PassesFirst(c, keys, i + 1);
      }
      HopelessPasses(c1, k, keys[1..], ids);
    }
  }

  lemma {:induction false} PassesKeepBound(c: Cluster, k: Key, spec: Spec, keys: seq<Key>, ids: set<(string, string)>)
    requires Runs.Bound(c, k, spec, ids)
    ensures Runs.Bound(Passes(c, keys), k, spec, ids)
    decreases |keys|
  {
    hide Pass, Reconciled, ServerAfter;
    if keys != [] {
      PassElsewhere(c, keys[0]);
      PassesKeepBound(Pass(c, keys[0]), k, spec, keys[1..], ids);
    }
  }

  lemma PassesFirst(c: Cluster, keys: seq<Key>, i: nat)
    requires keys != [] && i <= |keys|
    ensures Passes(c, keys[..i]) == if i == 0 then c else Passes(Pass(c, keys[0]), keys[1..][..i - 1])
  {
    hide Pass;
    if i > 0 {
      assert keys[..i][1..] == keys[1..][..i - 1];
    }
  }

  /** A grant whose database was dropped first keeps its finalizer, whatever is reconciled after that, until the database
      is there again. */
  lemma DatabaseFirstBlocksGrant(c: Cluster, b: Key, g: Key, keys: seq<Key>, admin: PG.Name, ids: set<(string, string)>)
    requires DatabaseReady(c, b, admin) && IsLeaving(c, g) && g.kind == GrantKind
    requires SpecOf(c, g).body.opts.database == NameOf(b, SpecOf(c, b).body) && Runs.Bound(c, g, SpecOf(c, g), ids)
    requires forall i :: 0 < i <= |keys| ==>
               SpecOf(c, g).body.opts.database !in Passes(Pass(c, b), keys[..i]).server.databases
    ensures HasFinalizer(Passes(c, [b] + keys), g)
  {
    hide Pass, Runs.Bound, Connect;
    var c1 := Pass(c, b);
    DatabasePass(c, b, admin);
    SameElsewhere(c, c1, b, g);
    PassesAppend(c, [b], keys);
    assert Passes(c, [b]) == c1 by { assert [b][1..] == []; }
    forall i | 0 <= i <= |keys|
      ensures Runs.Hopeless(Passes(c1, keys[..i]), g, SpecOf(c1, g), ids)
    {
      PassesKeepBound(c, g, SpecOf(c, g), [b] + keys[..i], ids);
      PassesAppend(c, [b], keys[..i]);
      if i == 0 {
        assert keys[..0] == [];
      }
    }
    HopelessPasses(c1, g, keys, ids);
  }

  // ---------- a role that holds USAGE ----------

  lemma {:induction false} RunKeepsUsage(s: PG.Server, conn: PG.Conn, stmts: seq<PG.Stmt>, r: PG.Name, d: PG.Name, n: PG.Name)
    requires Statements.HoldsUsage(s, r, d, n) && d in PG.RunAll(s, conn, stmts).0.databases
    requires forall stmt :: stmt in stmts ==> !(stmt.RevokeOnSchema? && stmt.priv == PG.Usage)
    requires |stmts| > 1 ==> forall stmt :: stmt in stmts ==> !stmt.DropDatabase?
    ensures Statements.HoldsUsage(PG.RunAll(s, conn, stmts).0, r, d, n)
    decreases |stmts|
  {
    hide Statements.HoldsUsage;
    if stmts != [] && PG.Exec(s, conn, stmts[0]).Some? {
      assert stmts[0] in stmts;
      if |stmts| == 1 {
        assert stmts[1..] == [];
      }
      if stmts[0] != PG.DropDatabase(d) {
        Statements.UsageStays(s, r, d, n, conn, stmts[0]);
        RunKeepsUsage(PG.Exec(s, conn, stmts[0]).value, conn, stmts[1..], r, d, n);
      }
    }
  }

  lemma ProgramKeepsUsage(s: PG.Server, conn: PG.Conn, key: Key, spec: Spec, p: Program, r: PG.Name, d: PG.Name, n: PG.Name)
    requires Statements.HoldsUsage(s, r, d, n) && IsProgram(key, spec, p) && d in Execute(s, conn, p).0.databases
    ensures Statements.HoldsUsage(Execute(s, conn, p).0, r, d, n)
  {
    hide Statements.HoldsUsage, PG.Exec, PG.RunAll;
    if conn.database in s.databases {
      RunKeepsUsage(s, conn, if p.Run? then p.stmts else if PG.Answer(s, p.question) then p.yes else p.no, r, d, n);
    }
  }

  lemma PassKeepsUsage(c: Cluster, k: Key, r: PG.Name, d: PG.Name, n: PG.Name)
    requires Statements.HoldsUsage(c.server, r, d, n) && d in Pass(c, k).server.databases
    ensures Statements.HoldsUsage(Pass(c, k).server, r, d, n)
  {
    hide Statements.HoldsUsage, Execute, Connect, LookUp, Pass, ApplyProgram, CleanupProgram, Cached;
    PassElsewhere(c, k);
    SyncElsewhere(c, k);
    var b := Sync(c, k);
    if Cached(b, k).Some? {
      var cr := Cached(b, k).value;
      if Connect(b, k, cr.spec).Connected? {
        var conn := Connect(b, k, cr.spec).conn;
        if cr.deleted && cr.fin && cr.spec.policy == Delete {
          ProgramKeepsUsage(c.server, conn, k, cr.spec, CleanupProgram(k, cr.spec), r, d, n);
        } else if !cr.deleted && LookUp(b, k, cr.spec).Found? {
          ProgramKeepsUsage(c.server, conn, k, cr.spec, ApplyProgram(k, cr.spec, LookUp(b, k, cr.spec).password), r, d, n);
        }
      }
    }
  }

  lemma {:induction false} PassesKeepUsage(c: Cluster, keys: seq<Key>, i: nat, r: PG.Name, d: PG.Name, n: PG.Name)
    requires Statements.HoldsUsage(c.server, r, d, n) && i <= |keys|
    requires forall j :: 0 <= j <= |keys| ==> d in Passes(c, keys[..j]).server.databases
    ensures Statements.HoldsUsage(Passes(c, keys[..i]).server, r, d, n)
    decreases i
  {
    hide Statements.HoldsUsage, Pass;
    if i > 0 {
      PassesKeepUsage(c, keys, i - 1, r, d, n);
      PassesAppend(c, keys[..i - 1], [keys[i - 1]]);
      assert keys[..i - 1] + [keys[i - 1]] == keys[..i] && [keys[i - 1]][1..] == [];
      assert Passes(c, keys[..i]) == Pass(Passes(c, keys[..i - 1]), keys[i - 1]);
      PassKeepsUsage(Passes(c, keys[..i - 1]), keys[i - 1], r, d, n);
    }
  }

  /** A deleted user whose role holds USAGE in a database, as any role does after a grant and its revoke, keeps its
      finalizer and its role, whatever is reconciled, for as long as that database stays. */
  lemma UserBeforeDatabaseIsBlocked(c: Cluster, u: Key, keys: seq<Key>, r: PG.Name, d: PG.Name, n: PG.Name, ids: set<(string, string)>)
    requires IsLeaving(c, u) && u.kind == UserKind && NameOf(u, SpecOf(c, u).body) == r
    requires Statements.HoldsUsage(c.server, r, d, n)
    requires Runs.Bound(c, u, SpecOf(c, u), ids)
    requires forall i :: 0 <= i <= |keys| ==> d in Passes(c, keys[..i]).server.databases
    ensures HasFinalizer(Passes(c, keys), u) && r in Passes(c, keys).server.roles
  {
    hide Passes, Runs.Bound;
    forall i | 0 <= i <= |keys|
      ensures Runs.Hopeless(Passes(c, keys[..i]), u, SpecOf(c, u), ids)
    {
      PassesKeepUsage(c, keys, i, r, d, n);
      PassesKeepBound(c, u, SpecOf(c, u), keys[..i], ids);
      Statements.UsageBlocksDrop(Passes(c, keys[..i]).server, r, d, n, PG.Conn(d));
    }
    HopelessPasses(c, u, keys, ids);
    PassesKeepUsage(c, keys, |keys|, r, d, n);
    assert keys[..|keys|] == keys;
  }
}
