/** Many resources that share one server, reconciled one after the other. */
module Fleet {
  import opened Base
  import opened Api
  import opened Protocol
  import opened Promises
  import opened Undisturbed
  import PG = Postgres
  import Statements

  /** One undisturbed reconcile, with the cache caught up. */
  function Pass(c: Cluster, key: Key): Cluster {
    Reconciled(Sync(c, key), key)
  }

  function Passes(c: Cluster, keys: seq<Key>): Cluster
    decreases |keys|
  {
    if keys == [] then c else Passes(Pass(c, keys[0]), keys[1..])
  }

  // ---------- what a pass leaves alone ----------

  /** Only the given server and this key's versions differ. */
  ghost predicate Elsewhere(c: Cluster, c': Cluster, key: Key) {
    && c'.pgs == c.pgs && c'.secrets == c.secrets
    && forall other :: other != key ==> Versions(c', other) == Versions(c, other)
  }

  lemma PatchElsewhere(c: Cluster, key: Key, cr: Object, ok: bool, m: Message)
    ensures Elsewhere(c, PatchStatus(c, key, cr, ok, m), key) && PatchStatus(c, key, cr, ok, m).server == c.server
  {
  }

  lemma RemovedElsewhere(c: Cluster, key: Key, cr: Object)
    ensures Elsewhere(c, Removed(c, key, cr), key) && Removed(c, key, cr).server == c.server
  {
  }

  lemma KeptElsewhere(c: Cluster, key: Key, cr: Object)
    ensures Elsewhere(c, Kept(c, key, cr), key) && Kept(c, key, cr).server == c.server
  {
    if cr.fin {
      PatchElsewhere(c, key, cr, true, SuccessMessage(key, cr.spec));
    } else if Guarded(c, key, cr) {
      var c' := StoreFinalizer(c, key, cr);
      PatchElsewhere(c', key, Live(c', key).value, true, SuccessMessage(key, cr.spec));
    }
  }

  /** The server after a reconcile. */
  function ServerAfter(c: Cluster, key: Key): PG.Server {
    match Cached(c, key)
    case None => c.server
    case Some(cr) =>
      if cr.deleted && (!cr.fin || cr.spec.policy != Delete) then c.server
      else
        match Connect(c, key, cr.spec)
        case NotConnected(_) => c.server
        case Connected(conn) =>
          if cr.deleted then Execute(c.server, conn, CleanupProgram(key, cr.spec)).0
          else match LookUp(c, key, cr.spec)
            case NotFound(_) => c.server
            case Found(password) => Execute(c.server, conn, ApplyProgram(key, cr.spec, password)).0
  }

  lemma ReconciledElsewhere(c: Cluster, key: Key)
    ensures Elsewhere(c, Reconciled(c, key), key) && Reconciled(c, key).server == ServerAfter(c, key)
  {
    hide PatchStatus, Kept, Removed, Execute, Connect, LookUp, ApplyProgram, CleanupProgram;
    if Cached(c, key).Some? {
      var cr := Cached(c, key).value;
      var d := c.(server := ServerAfter(c, key));
      RemovedElsewhere(d, key, cr);
      KeptElsewhere(d, key, cr);
      PatchElsewhere(d, key, cr, false, Failed(SqlFailed));
      if Connect(c, key, cr.spec).NotConnected? {
        PatchElsewhere(c, key, cr, false, Failed(Connect(c, key, cr.spec).error));
      }
      if LookUp(c, key, cr.spec).NotFound? {
        PatchElsewhere(c, key, cr, false, Failed(LookUp(c, key, cr.spec).error));
      }
      assert c.(server := c.server) == c;
    }
  }

  lemma PassElsewhere(c: Cluster, key: Key)
    ensures Elsewhere(c, Pass(c, key), key) && Pass(c, key).server == ServerAfter(Sync(c, key), key)
    ensures Cached(Sync(c, key), key) == Live(c, key) == Live(Sync(c, key), key)
  {
    ReconciledElsewhere(Sync(c, key), key);
  }

  /** A pass changes neither the spec nor the deletion mark of its resource. */
  lemma PassKeepsSpec(c: Cluster, key: Key)
    ensures var (before, after) := (Live(c, key), Live(Pass(c, key), key));
            && (before.None? ==> after.None?)
            && (before.Some? && !before.value.deleted ==> after.Some?)
            && (after.Some? && before.Some? ==>
                  after.value.spec == before.value.spec && after.value.deleted == before.value.deleted
                  && (before.value.deleted ==> after == before || !after.value.fin))
  {
    var d := Sync(c, key);
    PassElsewhere(c, key);
    if Live(c, key).Some? {
      var cr := Live(c, key).value;
      if cr.deleted {
        CleanupSpec(d, key, cr);
      } else {
        ApplySpec(d, key, cr);
      }
    }
  }

  lemma CleanupSpec(c: Cluster, key: Key, cr: Object)
    requires Live(c, key) == Some(cr) && cr.deleted
    ensures var o := Live(CleanupRun(c, key, cr), key);
            o.Some? ==> o.value.spec == cr.spec && o.value.deleted && (o.value == cr || !o.value.fin)
  {
  }

  lemma ApplySpec(c: Cluster, key: Key, cr: Object)
    requires Live(c, key) == Some(cr) && !cr.deleted
    ensures var o := Live(ApplyRun(c, key, cr), key);
            o.Some? && o.value.spec == cr.spec && !o.value.deleted
  {
    hide Kept, Execute, Connect, LookUp, ApplyProgram, SetCondition;
    if Connect(c, key, cr.spec).Connected? && LookUp(c, key, cr.spec).Found? {
      var p := ApplyProgram(key, cr.spec, LookUp(c, key, cr.spec).password);
      var d := c.(server := Execute(c.server, Connect(c, key, cr.spec).conn, p).0);
      KeptSpec(d, key, cr);
    }
  }

  lemma KeptSpec(c: Cluster, key: Key, cr: Object)
    requires Live(c, key) == Some(cr) && !cr.deleted
    ensures var o := Live(Kept(c, key, cr), key);
            o.Some? && o.value.spec == cr.spec && !o.value.deleted
  {
  }

  // ---------- convergence of the databases, in any order ----------

  /** Every resource fits its kind; every Database resource reaches the server's admin database. */
  ghost predicate Healthy(c: Cluster, admin: PG.Name) {
    && admin in c.server.databases && PG.TEMPLATE in c.server.databases
    && forall k: Key :: Live(c, k).Some? ==>
         && Fits(k.kind, Live(c, k).value.spec.body)
         && (k.kind == DatabaseKind ==> Reaches(c, k, Live(c, k).value.spec, admin))
  }

  /** A deleted Database resource that holds the finalizer with policy Delete; the server drops neither a template
      nor the database of the session. */
  predicate IsDoomed(c: Cluster, k: Key, admin: PG.Name) {
    && Live(c, k).Some?
    && var o := Live(c, k).value;
    && o.spec.body.DatabaseBody? && o.deleted && o.fin && o.spec.policy == Delete
    && NameOf(k, o.spec.body) != admin && NameOf(k, o.spec.body) !in PG.TEMPLATES
  }

  predicate IsWanted(c: Cluster, k: Key) {
    Live(c, k).Some? && Live(c, k).value.spec.body.DatabaseBody? && !Live(c, k).value.deleted
  }

  function DoomedNames(c: Cluster, keys: set<Key>, admin: PG.Name): set<PG.Name> {
    set k | k in keys && IsDoomed(c, k, admin) :: NameOf(k, Live(c, k).value.spec.body)
  }

  function WantedNames(c: Cluster, keys: set<Key>): set<PG.Name> {
    set k | k in keys && IsWanted(c, k) :: NameOf(k, Live(c, k).value.spec.body)
  }

  predicate TouchesNoDatabase(stmt: PG.Stmt) {
    !stmt.CreateDatabase? && !stmt.DropDatabase?
  }

  lemma {:induction false} RunKeepsDatabases(s: PG.Server, conn: PG.Conn, stmts: seq<PG.Stmt>)
    requires forall stmt :: stmt in stmts ==> TouchesNoDatabase(stmt)
    ensures PG.RunAll(s, conn, stmts).0.databases.Keys == s.databases.Keys
    decreases |stmts|
  {
    if stmts != [] {
      assert stmts[0] in stmts;
      var r := PG.Exec(s, conn, stmts[0]);
      if r.Some? {
        assert r.value.databases.Keys == s.databases.Keys;
        RunKeepsDatabases(r.value, conn, stmts[1..]);
      }
    }
  }

  lemma OtherProgramsKeepDatabases(s: PG.Server, conn: PG.Conn, key: Key, spec: Spec, p: Program)
    requires IsProgram(key, spec, p) && !spec.body.DatabaseBody?
    ensures Execute(s, conn, p).0.databases.Keys == s.databases.Keys
  {
    if p.Run? {
      RunKeepsDatabases(s, conn, p.stmts);
    } else {
      RunKeepsDatabases(s, conn, if PG.Answer(s, p.question) then p.yes else p.no);
    }
  }

  lemma DatabaseProgram(s: PG.Server, conn: PG.Conn, key: Key, spec: Spec)
    requires spec.body.DatabaseBody? && conn.database in s.databases && PG.TEMPLATE in s.databases
    ensures var n := NameOf(key, spec.body);
            && Execute(s, conn, ApplyProgram(key, spec, [])).0.databases.Keys == s.databases.Keys + {n}
            && var u := Execute(s, conn, CleanupProgram(key, spec)).0;
            u.databases.Keys == if n != conn.database && n !in PG.TEMPLATES then s.databases.Keys - {n} else s.databases.Keys
  {
    var n := NameOf(key, spec.body);
    Statements.RunOne(s, conn, PG.CreateDatabase(n));
    Statements.RunOne(s, conn, PG.DropDatabase(n));
  }

  /** What the statements of one pass make of the set of databases. */
  lemma ServerDatabases(c: Cluster, d: Cluster, k: Key, admin: PG.Name)
    requires Healthy(c, admin) && d.server == c.server && d.pgs == c.pgs && d.secrets == c.secrets && Cached(d, k) == Live(c, k)
    ensures ServerAfter(d, k).databases.Keys ==
            c.server.databases.Keys - DoomedNames(c, {k}, admin) + WantedNames(c, {k})
  {
    if Live(c, k).Some? {
      var cr := Live(c, k).value;
      AlikeConnects(c, d, k, cr.spec);
      ConnectIs(c, k, cr.spec);
      hide Execute, Connect, ApplyProgram, CleanupProgram, Live, Cached;
      if cr.spec.body.DatabaseBody? {
        DatabaseProgram(c.server, PG.Conn(admin), k, cr.spec);
      } else if Connect(c, k, cr.spec).Connected? {
        var conn := Connect(c, k, cr.spec).conn;
        OtherProgramsKeepDatabases(c.server, conn, k, cr.spec, CleanupProgram(k, cr.spec));
        if LookUp(d, k, cr.spec).Found? {
          var password := LookUp(d, k, cr.spec).password;
          OtherProgramsKeepDatabases(c.server, conn, k, cr.spec, ApplyProgram(k, cr.spec, password));
        }
      }
    }
  }

  lemma AlikeConnects(c: Cluster, d: Cluster, k: Key, spec: Spec)
    requires d.server == c.server && d.pgs == c.pgs && d.secrets == c.secrets
    ensures Connect(d, k, spec) == Connect(c, k, spec) && LookUp(d, k, spec) == LookUp(c, k, spec)
  {
  }

  lemma SyncElsewhere(c: Cluster, k: Key)
    ensures var d := Sync(c, k);
            && d.server == c.server && d.pgs == c.pgs && d.secrets == c.secrets && Cached(d, k) == Live(c, k) == Live(d, k)
  {
  }

  /** What one pass makes of the set of databases. */
  lemma PassDatabases(c: Cluster, k: Key, admin: PG.Name)
    requires Healthy(c, admin)
    ensures Pass(c, k).server.databases.Keys ==
            c.server.databases.Keys - DoomedNames(c, {k}, admin) + WantedNames(c, {k})
    ensures Healthy(Pass(c, k), admin)
  {
    hide Sync, Reconciled, ServerAfter, Healthy, Elsewhere, WantedNames;
    SyncElsewhere(c, k);
    PassElsewhere(c, k);
    ServerDatabases(c, Sync(c, k), k, admin);
    AdminStays(c, k, admin);
    StaysHealthy(c, k, admin);
  }

  lemma AdminStays(c: Cluster, k: Key, admin: PG.Name)
    requires Healthy(c, admin)
    requires Pass(c, k).server.databases.Keys ==
             c.server.databases.Keys - DoomedNames(c, {k}, admin) + WantedNames(c, {k})
    ensures admin in Pass(c, k).server.databases && PG.TEMPLATE in Pass(c, k).server.databases
  {
    hide Pass, WantedNames;
  }

  lemma SameConnection(c: Cluster, c': Cluster, j: Key, spec: Spec, d: PG.Name)
    requires c'.pgs == c.pgs && c'.secrets == c.secrets && Reaches(c, j, spec, d) && d in c'.server.databases
    ensures Reaches(c', j, spec, d) && Connect(c', j, spec) == Connected(PG.Conn(d))
  {
  }

  lemma StaysHealthy(c: Cluster, k: Key, admin: PG.Name)
    requires Healthy(c, admin)
    requires admin in Pass(c, k).server.databases && PG.TEMPLATE in Pass(c, k).server.databases
    ensures Healthy(Pass(c, k), admin)
  {
    var c' := Pass(c, k);
    PassElsewhere(c, k);
    assert c'.pgs == c.pgs && c'.secrets == c.secrets;
    forall j: Key | Live(c', j).Some?
      ensures Fits(j.kind, Live(c', j).value.spec.body)
      ensures j.kind == DatabaseKind ==> Reaches(c', j, Live(c', j).value.spec, admin)
    {
      SpecSurvives(c, k, j);
      if j.kind == DatabaseKind {
        SameConnection(c, c', j, Live(c, j).value.spec, admin);
      }
    }
  }

  lemma SpecSurvives(c: Cluster, k: Key, j: Key)
    requires Live(Pass(c, k), j).Some?
    ensures Live(c, j).Some? && Live(Pass(c, k), j).value.spec == Live(c, j).value.spec
  {
    if j == k {
      PassKeepsSpec(c, k);
    } else {
      PassElsewhere(c, k);
      assert Versions(Pass(c, k), j) == Versions(c, j);
    }
  }

  lemma NamesAfter(c: Cluster, k: Key, keys: set<Key>, admin: PG.Name)
    ensures DoomedNames(Pass(c, k), keys, admin) + DoomedNames(c, {k}, admin) == DoomedNames(c, keys + {k}, admin)
    ensures WantedNames(Pass(c, k), keys) == WantedNames(c, keys)
  {
    var c' := Pass(c, k);
    PassElsewhere(c, k);
    PassKeepsSpec(c, k);
    forall j: Key
      ensures j != k ==> Live(c', j) == Live(c, j)
      ensures IsWanted(c', j) == IsWanted(c, j)
      ensures IsDoomed(c', j, admin) ==> IsDoomed(c, j, admin)
    {
      assert j != k ==> Versions(c', j) == Versions(c, j);
    }
  }

  ghost predicate AllDeleted(c: Cluster, keys: seq<Key>) {
    forall k :: k in keys && Live(c, k).Some? ==> Live(c, k).value.deleted
  }

  ghost predicate AllLive(c: Cluster, keys: seq<Key>) {
    forall k :: k in keys ==> Live(c, k).Some? && !Live(c, k).value.deleted
  }

  function KeySet(keys: seq<Key>): set<Key> {
    set k | k in keys
  }

  lemma PassKeepsMarks(c: Cluster, k: Key, keys: seq<Key>)
    ensures AllDeleted(c, keys) ==> AllDeleted(Pass(c, k), keys)
    ensures AllLive(c, keys) ==> AllLive(Pass(c, k), keys)
  {
    var c' := Pass(c, k);
    PassElsewhere(c, k);
    PassKeepsSpec(c, k);
    forall j: Key | j != k
      ensures Live(c', j) == Live(c, j)
    {
      assert Versions(c', j) == Versions(c, j);
    }
  }

  lemma {:induction false} Deletions(c: Cluster, ds: seq<Key>, ls: seq<Key>, admin: PG.Name)
    requires Healthy(c, admin) && AllDeleted(c, ds) && AllLive(c, ls)
    ensures var c' := Passes(c, ds);
            && Healthy(c', admin) && AllLive(c', ls)
            && c'.server.databases.Keys == c.server.databases.Keys - DoomedNames(c, KeySet(ds), admin)
            && WantedNames(c', KeySet(ls)) == WantedNames(c, KeySet(ls))
    decreases |ds|
  {
    hide Pass, Healthy, DoomedNames, WantedNames, AllLive;
    if ds == [] {
      NoNames(c, admin);
    } else {
      var k := ds[0];
      var c1 := Pass(c, k);
      PassDatabases(c, k, admin);
      PassKeepsMarks(c, k, ds);
      PassKeepsMarks(c, k, ls);
      NamesAfter(c, k, KeySet(ds[1..]), admin);
      NamesAfter(c, k, KeySet(ls), admin);
      assert KeySet(ds[1..]) + {k} == KeySet(ds);
      DeletedUnwanted(c, k);
      assert AllDeleted(c1, ds[1..]) by { assert forall j :: j in ds[1..] ==> j in ds; }
      Deletions(c1, ds[1..], ls, admin);
    }
  }

  lemma NoNames(c: Cluster, admin: PG.Name)
    ensures KeySet([]) == {} && DoomedNames(c, {}, admin) == {} && WantedNames(c, {}) == {}
  {
  }

  lemma DeletedUnwanted(c: Cluster, k: Key)
    requires Live(c, k).Some? ==> Live(c, k).value.deleted
    ensures WantedNames(c, {k}) == {}
  {
  }

  lemma LiveUndoomed(c: Cluster, k: Key, admin: PG.Name)
    requires Live(c, k).Some? && !Live(c, k).value.deleted
    ensures DoomedNames(c, {k}, admin) == {}
  {
  }

  lemma WantedSplit(c: Cluster, ks: seq<Key>)
    requires ks != []
    ensures WantedNames(c, KeySet(ks)) == WantedNames(c, {ks[0]}) + WantedNames(c, KeySet(ks[1..]))
  {
    assert KeySet(ks) == KeySet(ks[1..]) + {ks[0]};
  }

  lemma {:induction false} Creations(c: Cluster, ls: seq<Key>, admin: PG.Name)
    requires Healthy(c, admin) && AllLive(c, ls)
    ensures var c' := Passes(c, ls);
            c'.server.databases.Keys == c.server.databases.Keys + WantedNames(c, KeySet(ls))
    decreases |ls|
  {
    hide Pass, Healthy, DoomedNames, WantedNames, KeySet;
    if ls == [] {
      NoNames(c, admin);
    } else {
      var k := ls[0];
      PassDatabases(c, k, admin);
      PassKeepsMarks(c, k, ls);
      NamesAfter(c, k, KeySet(ls[1..]), admin);
      WantedSplit(c, ls);
      LiveUndoomed(c, k, admin);
      assert AllLive(Pass(c, k), ls[1..]) by { assert forall j :: j in ls[1..] ==> j in ls; }
      Creations(Pass(c, k), ls[1..], admin);
    }
  }

  lemma {:induction false} PassesAppend(c: Cluster, a: seq<Key>, b: seq<Key>)
    ensures Passes(c, a + b) == Passes(Passes(c, a), b)
    decreases |a|
  {
    hide Pass;
    if a == [] {
      assert a + b == b;
    } else {
      PassesAppend(Pass(c, a[0]), a[1..], b);
      assert (a + b)[1..] == a[1..] + b;
    }
  }

  /** All deleted resources, in any order, then all live ones, in any order, of any kinds and with shared names: the
      databases are the old ones, less those of deleted resources that hold the finalizer with Delete, and those of
      the live resources. Only the sets of resources matter, not the orders. */
  lemma DatabasesConverge(c: Cluster, ds: seq<Key>, ls: seq<Key>, admin: PG.Name)
    requires Healthy(c, admin) && AllDeleted(c, ds) && AllLive(c, ls)
    ensures Passes(c, ds + ls).server.databases.Keys ==
            c.server.databases.Keys - DoomedNames(c, KeySet(ds), admin) + WantedNames(c, KeySet(ls))
  {
    PassesAppend(c, ds, ls);
    Deletions(c, ds, ls, admin);
    Creations(Passes(c, ds), ls, admin);
  }
}
