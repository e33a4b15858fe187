/** What holds in every run of the protocol, whatever users, other sessions, faults and crashes do. */
module Safety {
  import opened Base
  import opened Api
  import opened Protocol
  import PG = Postgres

  // ---------- logs ----------

  predicate RanPrefix(stmts: seq<PG.Stmt>, log: seq<Event>) {
    |log| <= |stmts| && forall i :: 0 <= i < |log| ==> log[i] == Ran(stmts[i])
  }

  /** The log is one the program can have produced so far. */
  predicate Conforms(p: Program, log: seq<Event>) {
    match p
    case Run(stmts) => RanPrefix(stmts, log)
    case Ask(q, yes, no) =>
      log == [] || (log[0].Asked? && log[0].question == q && RanPrefix(if log[0].answer then yes else no, log[1..]))
  }

  /** The log shows the whole program. */
  predicate Completes(p: Program, log: seq<Event>) {
    Conforms(p, log) && Next(p, log) == Finished
  }

  /** The event is the one that the program is up to. */
  predicate IsNext(p: Program, log: seq<Event>, e: Event) {
    match Next(p, log)
    case AskOp(q) => e.Asked? && e.question == q
    case RunOp(stmt) => e == Ran(stmt)
    case Finished => false
  }

  lemma ConformsOn(p: Program, log: seq<Event>, e: Event)
    requires Conforms(p, log) && IsNext(p, log, e)
    ensures Conforms(p, log + [e])
  {
    if p.Ask? && log != [] {
      assert (log + [e])[1..] == log[1..] + [e];
    }
  }

  /** Statements the server has run had a privilege list it can read. */
  predicate Accepted(e: Event) {
    match e
    case Ran(GrantOnDatabase(ws, _, _)) => PG.Meaning(ws, PG.OnDatabase).Some?
    case Ran(GrantOnTables(ws, _, _)) => PG.Meaning(ws, PG.OnTables).Some?
    case _ => true
  }

  predicate AllAccepted(log: seq<Event>) {
    forall i :: 0 <= i < |log| ==> Accepted(log[i])
  }

  // ---------- the invariant ----------

  /** The apply of the spec that this generation of the resource had was completed. */
  ghost predicate Applied(w: World, key: Key, uid: nat, g: nat) {
    && (key, uid, g) in w.applied && (key, uid, g) in w.specs
    && AllAccepted(w.applied[(key, uid, g)])
    && exists password: Bytes :: Completes(ApplyProgram(key, w.specs[(key, uid, g)], password), w.applied[(key, uid, g)])
  }

  ghost predicate EverApplied(w: World, key: Key, uid: nat) {
    exists g: nat :: Applied(w, key, uid, g)
  }

  predicate IsReady(o: Object) {
    Find(o.conditions, Ready).Some? && Find(o.conditions, Ready).value.status
  }

  ghost predicate ObjectOk(w: World, key: Key, o: Object) {
    && Fits(key.kind, o.spec.body)
    && o.uid < w.c.rev && o.rv < w.c.rev
    && (key, o.uid, o.generation) in w.specs && w.specs[(key, o.uid, o.generation)] == o.spec
    && (o.fin ==> EverApplied(w, key, o.uid))
    && (IsReady(o) ==> Applied(w, key, o.uid, Find(o.conditions, Ready).value.observedGeneration))
    && (IsReady(o) && !o.deleted ==> o.fin)
  }

  /** What a live resource with the operator's finalizer keeps across a write. */
  predicate Keeps(before: Option<Object>, after: Option<Object>) {
    before.Some? && before.value.fin ==> after.Some? && after.value.uid == before.value.uid && after.value.fin
  }

  ghost predicate VersionsOk(w: World, key: Key) {
    var vs := Versions(w.c, key);
    && (forall i :: 0 <= i < |vs| && vs[i].Some? ==> ObjectOk(w, key, vs[i].value))
    && (forall i, j :: 0 <= i < j < |vs| && vs[i].Some? && vs[j].Some? ==> vs[i].value.rv < vs[j].value.rv)
    && (forall i, j :: 0 <= i < j < |vs| && vs[i].Some? && !vs[i].value.deleted ==> Keeps(vs[i], vs[j]))
  }

  ghost predicate SpecsOk(w: World, key: Key) {
    && (forall u: nat, g: nat :: (key, u, g) in w.specs ==> u < w.c.rev && Fits(key.kind, w.specs[(key, u, g)].body))
    && (Live(w.c, key).Some? ==> forall g: nat :: (key, Live(w.c, key).value.uid, g) in w.specs ==> g <= Live(w.c, key).value.generation)
  }

  /** A resource as a worker read it: the same version is the same resource, no version left in the cache is
      older than one marked deleted, and a finalizer without a deletion mark is still there. */
  ghost predicate ReadOk(w: World, key: Key, cr: Object) {
    && ObjectOk(w, key, cr)
    && (forall i :: 0 <= i < |Versions(w.c, key)| && Versions(w.c, key)[i].Some? ==>
          var o := Versions(w.c, key)[i].value;
          (cr.rv == o.rv ==> o == cr) && (cr.deleted ==> cr.rv <= o.rv))
    && (!cr.deleted ==> Keeps(Some(cr), Live(w.c, key)))
  }

  predicate WhyOk(key: Key, cr: Object, why: Why) {
    match why
    case NotDelete => cr.spec.policy != Delete
    case Missing(e) => IsNotFound(e)
    case CleanedUp(log) => Completes(CleanupProgram(key, cr.spec), log)
  }

  ghost predicate SqlOk(key: Key, cr: Object, conn: PG.Conn, p: Program, log: seq<Event>) {
    && Conforms(p, log) && AllAccepted(log)
    && (cr.spec.body.GrantBody? ==> conn.database == cr.spec.body.opts.database)
    && (if cr.deleted then cr.fin && cr.spec.policy == Delete && p == CleanupProgram(key, cr.spec)
        else exists password: Bytes :: p == ApplyProgram(key, cr.spec, password))
  }

  ghost predicate PhaseOk(w: World, key: Key, ph: Phase) {
    match ph
    case Idle => true
    case Resolve(cr) => ReadOk(w, key, cr) && (cr.deleted ==> cr.fin && cr.spec.policy == Delete)
    case Credentials(cr, _) => ReadOk(w, key, cr) && (cr.deleted ==> cr.fin && cr.spec.policy == Delete)
    case Dial(cr, _) => ReadOk(w, key, cr) && (cr.deleted ==> cr.fin && cr.spec.policy == Delete)
    case Password(cr, _) => ReadOk(w, key, cr) && !cr.deleted && cr.spec.body.UserBody?
    case Sql(cr, conn, p, log) => ReadOk(w, key, cr) && SqlOk(key, cr, conn, p, log) && Next(p, log) != Finished
    case Store(cr) => ReadOk(w, key, cr) && !cr.deleted && !cr.fin && Applied(w, key, cr.uid, cr.generation)
    case Release(cr, why) => ReadOk(w, key, cr) && cr.deleted && cr.fin && WhyOk(key, cr, why)
    case Report(cr, ok, _) =>
      ReadOk(w, key, cr) && !cr.deleted && (ok ==> cr.fin && Applied(w, key, cr.uid, cr.generation))
  }

  ghost predicate KeyInv(w: World, key: Key) {
    VersionsOk(w, key) && SpecsOk(w, key) && PhaseOk(w, key, PhaseOf(w, key))
  }

  ghost predicate Inv(w: World) {
    forall key :: KeyInv(w, key)
  }

  lemma PhaseIsOk(w: World, key: Key)
    requires KeyInv(w, key)
    ensures PhaseOk(w, key, PhaseOf(w, key))
  {
    hide PhaseOk;
  }

  // ---------- what does not concern a resource does not disturb it ----------

  lemma AppliedFrame(w: World, w': World, key: Key, uid: nat, g: nat)
    requires Applied(w, key, uid, g)
    requires (key, uid, g) in w'.applied && w'.applied[(key, uid, g)] == w.applied[(key, uid, g)]
    requires (key, uid, g) in w'.specs && w'.specs[(key, uid, g)] == w.specs[(key, uid, g)]
    ensures Applied(w', key, uid, g)
  {
  }

  /** What w knows about key, w' knows too. */
  ghost predicate Remembers(w: World, w': World, key: Key) {
    && w.c.rev <= w'.c.rev
    && (forall u: nat, g: nat :: (key, u, g) in w.specs ==> (key, u, g) in w'.specs && w'.specs[(key, u, g)] == w.specs[(key, u, g)])
    && (forall u: nat, g: nat :: Applied(w, key, u, g) ==> Applied(w', key, u, g))
  }

  lemma ObjectFrame(w: World, w': World, key: Key, o: Object)
    requires ObjectOk(w, key, o) && Remembers(w, w', key)
    ensures ObjectOk(w', key, o)
  {
    if o.fin {
      var g: nat :| Applied(w, key, o.uid, g);
      assert Applied(w', key, o.uid, g);
    }
  }

  lemma PhaseFrame(w: World, w': World, key: Key, ph: Phase)
    requires PhaseOk(w, key, ph) && Remembers(w, w', key) && Versions(w.c, key) == Versions(w'.c, key)
    ensures PhaseOk(w', key, ph)
  {
    if !ph.Idle? {
      ObjectFrame(w, w', key, ph.cr);
    }
  }

  lemma VersionsFrame(w: World, w': World, key: Key)
    requires VersionsOk(w, key) && Remembers(w, w', key) && Versions(w.c, key) == Versions(w'.c, key)
    ensures VersionsOk(w', key)
  {
    var vs := Versions(w.c, key);
    forall i | 0 <= i < |vs| && vs[i].Some?
      ensures ObjectOk(w', key, vs[i].value)
    {
      ObjectFrame(w, w', key, vs[i].value);
    }
  }

  lemma KeyFrame(w: World, w': World, key: Key)
    requires KeyInv(w, key) && Remembers(w, w', key)
    requires Versions(w.c, key) == Versions(w'.c, key) && PhaseOf(w, key) == PhaseOf(w', key)
    requires forall u: nat, g: nat :: (key, u, g) in w'.specs ==> (key, u, g) in w.specs
    ensures KeyInv(w', key)
  {
    hide VersionsOk;
    hide PhaseOk;
    PhaseFrame(w, w', key, PhaseOf(w, key));
    VersionsFrame(w, w', key);
  }

  // ---------- one step ----------

  lemma KeepsThrough(w: World, key: Key, v: Option<Object>)
    requires VersionsOk(w, key) && Keeps(Live(w.c, key), v)
    ensures var vs := Versions(w.c, key);
            forall i :: 0 <= i < |vs| && vs[i].Some? && !vs[i].value.deleted ==> Keeps(vs[i], v)
  {
    var vs := Versions(w.c, key);
    forall i | 0 <= i < |vs| && vs[i].Some? && !vs[i].value.deleted
      ensures Keeps(vs[i], v)
    {
      if i < |vs| - 1 {
        assert Keeps(vs[i], vs[|vs| - 1]);
      }
    }
  }

  lemma AppendVersions(w: World, w': World, key: Key, v: Option<Object>)
    requires VersionsOk(w, key) && Remembers(w, w', key)
    requires Versions(w'.c, key) == Versions(w.c, key) + [v]
    requires v.Some? ==> ObjectOk(w', key, v.value) && v.value.rv == w.c.rev
    requires forall i :: 0 <= i < |Versions(w.c, key)| && Versions(w.c, key)[i].Some? && !Versions(w.c, key)[i].value.deleted ==>
               Keeps(Versions(w.c, key)[i], v)
    ensures VersionsOk(w', key)
  {
    var vs := Versions(w.c, key);
    forall i | 0 <= i < |vs| && vs[i].Some?
      ensures ObjectOk(w', key, vs[i].value) && vs[i].value.rv < w.c.rev
    {
      ObjectFrame(w, w', key, vs[i].value);
    }
    var vs' := Versions(w'.c, key);
    forall i | 0 <= i < |vs'| && vs'[i].Some?
      ensures ObjectOk(w', key, vs'[i].value)
    {
      if i == |vs| {
      } else {
        assert vs'[i] == vs[i];
      }
    }
  }

  lemma AppendPhase(w: World, w': World, key: Key, v: Option<Object>, ph: Phase)
    requires VersionsOk(w, key) && PhaseOk(w, key, ph) && Remembers(w, w', key)
    requires Versions(w'.c, key) == Versions(w.c, key) + [v]
    requires v.Some? ==> v.value.rv == w.c.rev
    requires Keeps(Live(w.c, key), v)
    ensures PhaseOk(w', key, ph)
  {
    if !ph.Idle? {
      ObjectFrame(w, w', key, ph.cr);
      assert ReadOk(w', key, ph.cr);
    }
  }

  /** A write appends a version; the worker's phase stays. */
  lemma AppendKeeps(w: World, w': World, key: Key, v: Option<Object>)
    requires KeyInv(w, key) && Remembers(w, w', key) && SpecsOk(w', key)
    requires Versions(w'.c, key) == Versions(w.c, key) + [v] && PhaseOf(w, key) == PhaseOf(w', key)
    requires v.Some? ==> ObjectOk(w', key, v.value) && v.value.rv == w.c.rev
    requires Keeps(Live(w.c, key), v)
    ensures KeyInv(w', key)
  {
    KeepsThrough(w, key, v);
    AppendVersions(w, w', key, v);
    AppendPhase(w, w', key, v, PhaseOf(w, key));
  }

  lemma PhaseMove(w: World, key: Key, ph: Phase)
    requires KeyInv(w, key) && PhaseOk(w, key, ph)
    ensures KeyInv(At(w, key, ph), key)
  {
    var w' := At(w, key, ph);
    assert Remembers(w, w', key);
    PhaseFrame(w, w', key, ph);
    VersionsFrame(w, w', key);
  }

  lemma LiveOk(w: World, key: Key)
    requires KeyInv(w, key) && Live(w.c, key).Some?
    ensures ObjectOk(w, key, Live(w.c, key).value)
  {
  }

  /** A write that leaves the generation as it is. */
  lemma WriteKeeps(w: World, key: Key, v: Option<Object>)
    requires KeyInv(w, key) && Live(w.c, key).Some?
    requires v.Some? ==> ObjectOk(w, key, v.value)
    requires v.Some? ==> v.value.uid == Live(w.c, key).value.uid && v.value.generation == Live(w.c, key).value.generation
    requires Keeps(Live(w.c, key), v)
    ensures KeyInv(w.(c := Write(w.c, key, v)), key)
    ensures Remembers(w, w.(c := Write(w.c, key, v)), key)
  {
    var w' := w.(c := Write(w.c, key, v));
    WriteRemembers(w, w', key);
    if v.Some? {
      ObjectFrame(w, w', key, v.value);
    }
    AppendKeeps(w, w', key, Live(w'.c, key));
  }

  /** A user's write: a new resource, a new spec or a deletion mark. */
  /** The spec of a new generation is remembered besides the old ones. */
  lemma UserWriteRemembers(w: World, key: Key, o: Object)
    requires SpecsOk(w, key)
    requires if Live(w.c, key).None? then o.uid == w.c.rev
             else o.uid == Live(w.c, key).value.uid && o.generation == Live(w.c, key).value.generation + 1
    ensures var w' := UserWrite(w, key, Some(o));
            && (key, o.uid, o.generation) !in w.specs && Remembers(w, w', key)
  {
    var w' := UserWrite(w, key, Some(o));
    forall u: nat, g: nat | Applied(w, key, u, g)
      ensures Applied(w', key, u, g)
    {
      AppliedFrame(w, w', key, u, g);
    }
  }

  /** A user's write: a new resource, a new spec or a deletion mark. */
  lemma UserWriteKeeps(w: World, key: Key, o: Object)
    requires KeyInv(w, key) && Fits(key.kind, o.spec.body)
    requires Live(w.c, key).None? ==> o.uid == w.c.rev && !o.fin && o.conditions == []
    requires Live(w.c, key).Some? ==>
               var live := Live(w.c, key).value;
               && o.uid == live.uid && o.generation == live.generation + 1 && o.fin == live.fin
               && o.conditions == live.conditions && (live.deleted ==> o.deleted)
    ensures KeyInv(UserWrite(w, key, Some(o)), key)
  {
    var w' := UserWrite(w, key, Some(o));
    UserWriteRemembers(w, key, o);
    hide Applied, PhaseOk;
    if o.fin {
      var g: nat :| Applied(w, key, o.uid, g);
      assert Applied(w', key, o.uid, g);
    }
    AppendKeeps(w, w', key, Live(w'.c, key));
  }

  lemma EditKeeps(w: World, key: Key, spec: Spec)
    requires KeyInv(w, key)
    ensures KeyInv(UserStep(w, Edit(key, spec)), key)
  {
    var live := Live(w.c, key);
    if UserStep(w, Edit(key, spec)) != w {
      var o := live.value.(spec := spec, generation := live.value.generation + 1);
      assert UserStep(w, Edit(key, spec)) == UserWrite(w, key, Some(o));
      LiveOk(w, key);
      hide KeyInv, UserWrite, UserStep;
      UserWriteKeeps(w, key, o);
    }
  }

  lemma MarkKeeps(w: World, key: Key)
    requires KeyInv(w, key)
    ensures KeyInv(UserStep(w, MarkDeleted(key)), key)
  {
    var live := Live(w.c, key);
    if UserStep(w, MarkDeleted(key)) != w {
      var o := live.value.(deleted := true, generation := live.value.generation + 1);
      assert UserStep(w, MarkDeleted(key)) == UserWrite(w, key, OrGone(o));
      LiveOk(w, key);
      hide KeyInv, UserStep;
      if OrGone(o).Some? {
        UserWriteKeeps(w, key, o);
      } else {
        WriteKeeps(w, key, None);
      }
    }
  }

  lemma OthersKeeps(w: World, key: Key, others: set<string>)
    requires KeyInv(w, key)
    ensures KeyInv(UserStep(w, SetOthers(key, others)), key)
  {
    var live := Live(w.c, key);
    if live.Some? && (live.value.deleted ==> others <= live.value.others) {
      LiveOk(w, key);
      hide KeyInv;
      WriteKeeps(w, key, OrGone(live.value.(others := others)));
    }
  }

  lemma ConditionsKeeps(w: World, key: Key, conditions: seq<Condition>)
    requires KeyInv(w, key)
    ensures KeyInv(UserStep(w, SetConditions(key, conditions)), key)
  {
    var live := Live(w.c, key);
    if live.Some? && Find(conditions, Ready) == Find(live.value.conditions, Ready) {
      LiveOk(w, key);
      hide KeyInv;
      assert ObjectOk(w, key, live.value.(conditions := conditions));
      WriteKeeps(w, key, Some(live.value.(conditions := conditions)));
    }
  }

  lemma CreateKeeps(w: World, key: Key, spec: Spec, others: set<string>)
    requires KeyInv(w, key)
    ensures KeyInv(UserStep(w, Create(key, spec, others)), key)
  {
    if Live(w.c, key).None? && Fits(key.kind, spec.body) {
      UserWriteKeeps(w, key, Object(w.c.rev, w.c.rev, 1, false, false, others, spec, []));
    }
  }

  lemma WriteByUser(w: World, a: Action)
    requires IsWrite(a) && KeyInv(w, a.key)
    ensures KeyInv(UserStep(w, a), a.key)
  {
    hide KeyInv;
    match a
    case Create(key, spec, others) => CreateKeeps(w, key, spec, others);
    case Edit(key, spec) => EditKeeps(w, key, spec);
    case MarkDeleted(key) => MarkKeeps(w, key);
    case SetOthers(key, others) => OthersKeeps(w, key, others);
    case SetConditions(key, conditions) => ConditionsKeeps(w, key, conditions);
  }

  lemma WriteElsewhere(c: Cluster, other: Key, v: Option<Object>, key: Key)
    requires key != other
    ensures Versions(Write(c, other, v), key) == Versions(c, key)
  {
  }

  /** Key's versions, phase and history are the same. */
  ghost predicate Undisturbed(w: World, w': World, key: Key) {
    && Versions(w'.c, key) == Versions(w.c, key) && w'.phases == w.phases && w'.applied == w.applied
    && w.c.rev <= w'.c.rev
    && forall u: nat, g: nat ::
         ((key, u, g) in w'.specs <==> (key, u, g) in w.specs)
         && ((key, u, g) in w.specs ==> w'.specs[(key, u, g)] == w.specs[(key, u, g)])
  }

  lemma UserWriteFrame(w: World, other: Key, v: Option<Object>, key: Key)
    requires key != other
    ensures Undisturbed(w, UserWrite(w, other, v), key)
    ensures Undisturbed(w, w.(c := Write(w.c, other, v)), key)
  {
    WriteElsewhere(w.c, other, v, key);
  }

  lemma WriteFrame(w: World, a: Action, key: Key)
    requires IsWrite(a) && a.key != key
    ensures Undisturbed(w, UserStep(w, a), key)
  {
    var live := Live(w.c, a.key);
    if a.Create? {
      UserWriteFrame(w, a.key, Some(Object(w.c.rev, w.c.rev, 1, false, false, a.others, a.spec, [])), key);
    } else if live.Some? {
      var o := live.value;
      if a.Edit? {
        UserWriteFrame(w, a.key, Some(o.(spec := a.spec, generation := o.generation + 1)), key);
      } else if a.MarkDeleted? {
        UserWriteFrame(w, a.key, OrGone(o.(deleted := true, generation := o.generation + 1)), key);
      } else if a.SetOthers? {
        UserWriteFrame(w, a.key, OrGone(o.(others := a.others)), key);
      } else {
        UserWriteFrame(w, a.key, Some(o.(conditions := a.conditions)), key);
      }
    }
  }

  lemma OutsideKeeps(w: World, a: Action, key: Key)
    requires !a.Work? && !IsWrite(a) && KeyInv(w, key)
    ensures KeyInv(w.(c := OutsideStep(w.c, a)), key)
  {
    var w' := w.(c := OutsideStep(w.c, a));
    WriteRemembers(w, w', key);
    if a.Deliver? && a.key == key && |Versions(w.c, key)| > 1 {
      assert Versions(w'.c, key) == Versions(w.c, key)[1..];
      hide KeyInv;
      DeliverKeeps(w, w', key);
    } else {
      assert Versions(w'.c, key) == Versions(w.c, key);
      hide KeyInv;
      KeyFrame(w, w', key);
    }
  }

  lemma EnvKeeps(w: World, a: Action, key: Key)
    requires !a.Work? && KeyInv(w, key)
    ensures KeyInv(EnvStep(w, a), key)
  {
    hide KeyInv;
    if !IsWrite(a) {
      OutsideKeeps(w, a, key);
    } else if a.key == key {
      WriteByUser(w, a);
    } else {
      WriteFrame(w, a, key);
      OtherKeyRemembers(w, UserStep(w, a), key);
      KeyFrame(w, UserStep(w, a), key);
    }
  }

  lemma OtherKeyRemembers(w: World, w': World, key: Key)
    requires w.c.rev <= w'.c.rev
    requires forall u: nat, g: nat :: (key, u, g) in w.specs ==> (key, u, g) in w'.specs && w'.specs[(key, u, g)] == w.specs[(key, u, g)]
    requires forall u: nat, g: nat :: (key, u, g) in w.applied ==> (key, u, g) in w'.applied && w'.applied[(key, u, g)] == w.applied[(key, u, g)]
    ensures Remembers(w, w', key)
  {
    forall u: nat, g: nat | Applied(w, key, u, g)
      ensures Applied(w', key, u, g)
    {
      AppliedFrame(w, w', key, u, g);
    }
  }

  lemma DeliverVersions(w: World, w': World, key: Key)
    requires VersionsOk(w, key) && Remembers(w, w', key)
    requires |Versions(w.c, key)| > 1 && Versions(w'.c, key) == Versions(w.c, key)[1..]
    ensures VersionsOk(w', key)
  {
    var vs := Versions(w.c, key);
    var vs' := Versions(w'.c, key);
    forall i | 0 <= i < |vs'| && vs'[i].Some?
      ensures ObjectOk(w', key, vs'[i].value)
    {
      ObjectFrame(w, w', key, vs[i + 1].value);
    }
    assert forall i :: 0 <= i < |vs'| ==> vs'[i] == vs[i + 1];
  }

  lemma DeliverRead(w: World, w': World, key: Key, cr: Object)
    requires ReadOk(w, key, cr) && Remembers(w, w', key)
    requires |Versions(w.c, key)| > 1 && Versions(w'.c, key) == Versions(w.c, key)[1..]
    ensures ReadOk(w', key, cr)
  {
    ObjectFrame(w, w', key, cr);
    assert forall i :: 0 <= i < |Versions(w'.c, key)| ==> Versions(w'.c, key)[i] == Versions(w.c, key)[i + 1];
  }

  lemma DeliverKeeps(w: World, w': World, key: Key)
    requires KeyInv(w, key) && Remembers(w, w', key) && w'.specs == w.specs && PhaseOf(w, key) == PhaseOf(w', key)
    requires |Versions(w.c, key)| > 1 && Versions(w'.c, key) == Versions(w.c, key)[1..]
    ensures KeyInv(w', key)
  {
    assert Live(w'.c, key) == Live(w.c, key);
    hide VersionsOk;
    hide ReadOk;
    DeliverVersions(w, w', key);
    var ph := PhaseOf(w, key);
    if !ph.Idle? {
      DeliverRead(w, w', key, ph.cr);
    }
  }

  /** A resource just read from the cache. */
  lemma JustRead(w: World, key: Key)
    requires KeyInv(w, key) && Cached(w.c, key).Some?
    ensures ReadOk(w, key, Cached(w.c, key).value)
  {
    var vs := Versions(w.c, key);
    if |vs| > 1 && !vs[0].value.deleted {
      assert Keeps(vs[0], vs[|vs| - 1]);
    }
  }

  /** A completed apply is remembered. */
  lemma RecordKeeps(w: World, key: Key, cr: Object, p: Program, log: seq<Event>, password: Bytes)
    requires KeyInv(w, key) && ReadOk(w, key, cr)
    requires AllAccepted(log) && Completes(p, log) && p == ApplyProgram(key, cr.spec, password)
    ensures var w' := w.(applied := w.applied[(key, cr.uid, cr.generation) := log]);
            KeyInv(w', key) && ReadOk(w', key, cr) && Applied(w', key, cr.uid, cr.generation)
  {
    var w' := w.(applied := w.applied[(key, cr.uid, cr.generation) := log]);
    assert Applied(w', key, cr.uid, cr.generation) by {
      assert Completes(ApplyProgram(key, w'.specs[(key, cr.uid, cr.generation)], password), log);
    }
    assert Remembers(w, w', key) by {
      forall u: nat, g: nat | Applied(w, key, u, g)
        ensures Applied(w', key, u, g)
      {
        if (u, g) != (cr.uid, cr.generation) {
          AppliedFrame(w, w', key, u, g);
        }
      }
    }
    KeyFrame(w, w', key);
    ObjectFrame(w, w', key, cr);
  }

  lemma ProceedKeeps(w: World, key: Key, cr: Object, conn: PG.Conn, p: Program, log: seq<Event>)
    requires KeyInv(w, key) && ReadOk(w, key, cr) && SqlOk(key, cr, conn, p, log)
    ensures KeyInv(Proceed(w, key, cr, conn, p, log), key)
  {
    hide KeyInv;
    hide ReadOk;
    if Next(p, log) == Finished && !cr.deleted {
      var password: Bytes :| p == ApplyProgram(key, cr.spec, password);
      RecordKeeps(w, key, cr, p, log, password);
      PhaseMove(w.(applied := w.applied[(key, cr.uid, cr.generation) := log]), key, AfterApply(key, cr));
    } else {
      PhaseMove(w, key, Onward(key, cr, conn, p, log));
    }
  }

  lemma ServerFrame(w: World, key: Key, s: PG.Server)
    requires KeyInv(w, key)
    ensures var w' := w.(c := w.c.(server := s));
            KeyInv(w', key) && forall cr :: ReadOk(w, key, cr) ==> ReadOk(w', key, cr)
  {
    var w' := w.(c := w.c.(server := s));
    assert Remembers(w, w', key) by {
      forall u: nat, g: nat | Applied(w, key, u, g)
        ensures Applied(w', key, u, g)
      {
        AppliedFrame(w, w', key, u, g);
      }
    }
    KeyFrame(w, w', key);
    forall cr | ReadOk(w, key, cr)
      ensures ReadOk(w', key, cr)
    {
      ObjectFrame(w, w', key, cr);
    }
  }

  lemma FailKeeps(w: World, key: Key, cr: Object, e: Error)
    requires KeyInv(w, key) && ReadOk(w, key, cr)
    ensures KeyInv(At(w, key, Fail(cr, e)), key)
  {
    PhaseMove(w, key, Fail(cr, e));
  }

  lemma ExecAccepts(s: PG.Server, c: PG.Conn, stmt: PG.Stmt)
    requires PG.Exec(s, c, stmt).Some?
    ensures Accepted(Ran(stmt))
  {
  }

  lemma AskKeeps(w: World, key: Key, cr: Object, conn: PG.Conn, p: Program, log: seq<Event>, q: PG.Question, reply: Reply)
    requires KeyInv(w, key) && ReadOk(w, key, cr) && SqlOk(key, cr, conn, p, log) && Next(p, log) == AskOp(q)
    ensures KeyInv(AskStep(w, key, cr, conn, p, log, q, reply), key)
  {
    hide KeyInv;
    hide ReadOk;
    if reply == Lost {
      FailKeeps(w, key, cr, SqlFailed);
    } else {
      var e := Asked(q, PG.Answer(w.c.server, q));
      ConformsOn(p, log, e);
      ProceedKeeps(w, key, cr, conn, p, log + [e]);
    }
  }

  lemma RunOpKeeps(w: World, key: Key, cr: Object, conn: PG.Conn, p: Program, log: seq<Event>, stmt: PG.Stmt, reply: Reply)
    requires KeyInv(w, key) && ReadOk(w, key, cr) && SqlOk(key, cr, conn, p, log) && Next(p, log) == RunOp(stmt)
    ensures KeyInv(RunStep(w, key, cr, conn, p, log, stmt, reply), key)
  {
    hide PG.Exec, KeyInv, ReadOk;
    var r := PG.Exec(w.c.server, conn, stmt);
    if r.None? {
      FailKeeps(w, key, cr, SqlFailed);
    } else {
      ServerFrame(w, key, r.value);
      var w' := w.(c := w.c.(server := r.value));
      if reply == Lost {
        FailKeeps(w', key, cr, SqlFailed);
      } else {
        ExecAccepts(w.c.server, conn, stmt);
        ConformsOn(p, log, Ran(stmt));
        ProceedKeeps(w', key, cr, conn, p, log + [Ran(stmt)]);
      }
    }
  }

  lemma SqlKeeps(w: World, key: Key, cr: Object, conn: PG.Conn, p: Program, log: seq<Event>, reply: Reply)
    requires KeyInv(w, key) && ReadOk(w, key, cr) && SqlOk(key, cr, conn, p, log)
    ensures KeyInv(SqlStep(w, key, cr, conn, p, log, reply), key)
  {
    hide KeyInv;
    hide ReadOk;
    if reply == Refused || conn.database !in w.c.server.databases {
      FailKeeps(w, key, cr, SqlFailed);
    } else {
      match Next(p, log)
      case AskOp(q) => AskKeeps(w, key, cr, conn, p, log, q, reply);
      case RunOp(stmt) => RunOpKeeps(w, key, cr, conn, p, log, stmt, reply);
      case Finished => PhaseMove(w, key, Idle);
    }
  }

  lemma GuardedIsLive(w: World, key: Key, cr: Object)
    requires ReadOk(w, key, cr) && Guarded(w.c, key, cr)
    ensures Live(w.c, key) == Some(cr)
  {
  }

  /** The finalizer is added to the very version that was read: nobody's edit is overwritten. */
  lemma FinalizerKeeps(w: World, key: Key, cr: Object)
    requires KeyInv(w, key) && PhaseOk(w, key, Store(cr)) && Guarded(w.c, key, cr)
    ensures var w' := w.(c := StoreFinalizer(w.c, key, cr));
            && KeyInv(w', key)
            && Live(w'.c, key) == Some(cr.(fin := true, rv := w.c.rev))
            && PhaseOk(w', key, Report(Live(w'.c, key).value, true, SuccessMessage(key, cr.spec)))
  {
    GuardedIsLive(w, key, cr);
    var v := cr.(fin := true);
    assert ObjectOk(w, key, v);
    WriteKeeps(w, key, Some(v));
    var w' := w.(c := StoreFinalizer(w.c, key, cr));
    assert StoreFinalizer(w.c, key, cr) == Write(w.c, key, Some(v));
    assert Applied(w', key, cr.uid, cr.generation);
    LatestReadOk(w', key);
  }

  lemma StoreKeeps(w: World, key: Key, cr: Object, reply: Reply)
    requires KeyInv(w, key) && PhaseOk(w, key, Store(cr))
    ensures KeyInv(StoreStep(w, key, cr, reply), key)
  {
    hide KeyInv;
    if reply == Refused || !Guarded(w.c, key, cr) {
      PhaseMove(w, key, Idle);
    } else {
      FinalizerKeeps(w, key, cr);
      var w' := w.(c := StoreFinalizer(w.c, key, cr));
      PhaseMove(w', key, if reply == Lost then Idle else Report(Live(w'.c, key).value, true, SuccessMessage(key, cr.spec)));
    }
  }

  lemma LatestReadOk(w: World, key: Key)
    requires KeyInv(w, key) && Live(w.c, key).Some? && !Live(w.c, key).value.deleted
    ensures ReadOk(w, key, Live(w.c, key).value)
  {
  }

  lemma WriteRemembers(w: World, w': World, key: Key)
    requires w'.applied == w.applied && w'.specs == w.specs && w.c.rev <= w'.c.rev
    ensures Remembers(w, w', key)
  {
    forall u: nat, g: nat | Applied(w, key, u, g)
      ensures Applied(w', key, u, g)
    {
      AppliedFrame(w, w', key, u, g);
    }
  }

  /** No version that the cache still holds is unmarked, so dropping the finalizer breaks no promise. */
  lemma DropKeeps(w: World, key: Key, cr: Object)
    requires KeyInv(w, key) && ReadOk(w, key, cr) && cr.deleted && Guarded(w.c, key, cr)
    ensures var w' := w.(c := DropFinalizer(w.c, key, cr));
            Remembers(w, w', key) && VersionsOk(w', key) && SpecsOk(w', key)
  {
    GuardedIsLive(w, key, cr);
    var w' := w.(c := DropFinalizer(w.c, key, cr));
    assert DropFinalizer(w.c, key, cr) == Write(w.c, key, OrGone(cr.(fin := false)));
    WriteRemembers(w, w', key);
    var vs := Versions(w.c, key);
    forall i | 0 <= i < |vs| && vs[i].Some?
      ensures vs[i].value.deleted
    {
      assert vs[|vs| - 1] == Some(cr);
    }
    assert ObjectOk(w, key, cr.(fin := false));
    ObjectFrame(w, w', key, cr.(fin := false));
    AppendVersions(w, w', key, Live(w'.c, key));
  }

  lemma ReleaseKeeps(w: World, key: Key, cr: Object, reply: Reply)
    requires KeyInv(w, key) && ReadOk(w, key, cr) && cr.deleted
    ensures KeyInv(ReleaseStep(w, key, cr, reply), key)
  {
    hide VersionsOk;
    hide SpecsOk;
    if reply == Refused || !Guarded(w.c, key, cr) {
      PhaseMove(w, key, Idle);
    } else {
      DropKeeps(w, key, cr);
      PhaseBlind(w.(c := DropFinalizer(w.c, key, cr)), key);
    }
  }

  /** The worker's turning idle, whatever it was at before. */
  lemma PhaseBlind(w: World, key: Key)
    requires VersionsOk(w, key) && SpecsOk(w, key)
    ensures KeyInv(At(w, key, Idle), key)
  {
    var w' := At(w, key, Idle);
    WriteRemembers(w, w', key);
    VersionsFrame(w, w', key);
  }

  /** A report of success can only reach the resource it is about; a report of failure makes nothing ready. */
  lemma ReportKeeps(w: World, key: Key, cr: Object, ok: bool, message: Message, reply: Reply)
    requires KeyInv(w, key) && PhaseOk(w, key, Report(cr, ok, message))
    ensures KeyInv(ReportStep(w, key, cr, ok, message, reply), key)
  {
    hide KeyInv;
    var c' := PatchStatus(w.c, key, cr, ok, message);
    if reply == Refused || c' == w.c {
      PhaseMove(w, key, Idle);
    } else {
      var o := Live(w.c, key).value;
      var v := o.(conditions := SetCondition(cr.conditions, NewCondition(w.c, cr, ok, message)));
      LiveOk(w, key);
      ReportedOk(w, key, cr, ok, message);
      WriteKeeps(w, key, Some(v));
      PhaseMove(w.(c := c'), key, Idle);
    }
  }

  lemma ReportedOk(w: World, key: Key, cr: Object, ok: bool, message: Message)
    requires PhaseOk(w, key, Report(cr, ok, message)) && Live(w.c, key).Some? && ObjectOk(w, key, Live(w.c, key).value)
    ensures ObjectOk(w, key, Live(w.c, key).value.(conditions := SetCondition(cr.conditions, NewCondition(w.c, cr, ok, message))))
  {
    SetThenFind(cr.conditions, NewCondition(w.c, cr, ok, message));
  }

  lemma ReadKeeps(w: World, key: Key)
    requires KeyInv(w, key) && Cached(w.c, key).Some?
    ensures KeyInv(At(w, key, AfterRead(Cached(w.c, key).value)), key)
  {
    JustRead(w, key);
    PhaseMove(w, key, AfterRead(Cached(w.c, key).value));
  }

  lemma ConnectFailKeeps(w: World, key: Key, cr: Object, e: Error)
    requires KeyInv(w, key) && ReadOk(w, key, cr) && (cr.deleted ==> cr.fin)
    ensures KeyInv(At(w, key, ConnectFail(cr, e)), key)
  {
    PhaseMove(w, key, ConnectFail(cr, e));
  }

  lemma ResolveKeeps(w: World, key: Key, cr: Object, reply: Reply)
    requires KeyInv(w, key) && PhaseOk(w, key, Resolve(cr))
    ensures KeyInv(ResolveStep(w, key, cr, reply), key)
  {
    hide KeyInv;
    hide ReadOk;
    var id := PgId(key, cr.spec.ref);
    if reply != Normal {
      FailKeeps(w, key, cr, Unavailable);
    } else if id !in w.c.pgs {
      ConnectFailKeeps(w, key, cr, PgNotFound);
    } else {
      PhaseMove(w, key, Credentials(cr, w.c.pgs[id]));
    }
  }

  lemma CredentialsKeeps(w: World, key: Key, cr: Object, pg: PgSpec, reply: Reply)
    requires KeyInv(w, key) && PhaseOk(w, key, Credentials(cr, pg))
    ensures KeyInv(CredentialsStep(w, key, cr, pg, reply), key)
  {
    hide KeyInv;
    hide ReadOk;
    var id := SecretId(key, cr.spec.ref, pg);
    if reply != Normal {
      FailKeeps(w, key, cr, Unavailable);
    } else if id !in w.c.secrets {
      ConnectFailKeeps(w, key, cr, SecretNotFound);
    } else if pg.superuserSecret.key !in w.c.secrets[id] {
      ConnectFailKeeps(w, key, cr, KeyMissing);
    } else {
      PhaseMove(w, key, Dial(cr, pg));
    }
  }

  lemma StartKeeps(w: World, key: Key, cr: Object, conn: PG.Conn, password: Bytes)
    requires KeyInv(w, key) && ReadOk(w, key, cr) && (cr.deleted ==> cr.fin && cr.spec.policy == Delete)
    requires cr.spec.body.GrantBody? ==> conn.database == cr.spec.body.opts.database
    ensures var p := if cr.deleted then CleanupProgram(key, cr.spec) else ApplyProgram(key, cr.spec, password);
            KeyInv(At(w, key, Sql(cr, conn, p, [])), key)
  {
    var p := if cr.deleted then CleanupProgram(key, cr.spec) else ApplyProgram(key, cr.spec, password);
    PhaseMove(w, key, Sql(cr, conn, p, []));
  }

  lemma DialKeeps(w: World, key: Key, cr: Object, pg: PgSpec, reply: Reply)
    requires KeyInv(w, key) && PhaseOk(w, key, Dial(cr, pg))
    ensures KeyInv(DialStep(w, key, cr, pg, reply), key)
  {
    hide KeyInv;
    hide ReadOk;
    var d := DialTarget(cr.spec, pg);
    if reply != Normal || d !in w.c.server.databases {
      ConnectFailKeeps(w, key, cr, DialFailed);
    } else if !cr.deleted && cr.spec.body.UserBody? {
      PhaseMove(w, key, Password(cr, PG.Conn(d)));
    } else {
      StartKeeps(w, key, cr, PG.Conn(d), []);
    }
  }

  lemma PasswordKeeps(w: World, key: Key, cr: Object, conn: PG.Conn, reply: Reply)
    requires KeyInv(w, key) && PhaseOk(w, key, Password(cr, conn))
    ensures KeyInv(PasswordStep(w, key, cr, conn, reply), key)
  {
    hide KeyInv;
    hide ReadOk;
    var ref := cr.spec.body.password;
    var id := (key.ns, ref.name);
    if reply != Normal {
      FailKeeps(w, key, cr, Unavailable);
    } else if id !in w.c.secrets {
      FailKeeps(w, key, cr, PasswordSecretNotFound);
    } else if ref.key !in w.c.secrets[id] {
      FailKeeps(w, key, cr, PasswordKeyMissing);
    } else {
      StartKeeps(w, key, cr, conn, w.c.secrets[id][ref.key]);
    }
  }

  lemma OwnKeeps(w: World, key: Key, reply: Reply)
    requires KeyInv(w, key)
    ensures KeyInv(WorkStep(w, key, reply), key)
  {
    hide KeyInv, ReadOk;
    hide SqlStep, StoreStep, ReleaseStep, ReportStep, ResolveStep, CredentialsStep, DialStep, PasswordStep;
    PhaseIsOk(w, key);
    if reply == Crashed {
      PhaseMove(w, key, Idle);
    } else {
      match PhaseOf(w, key)
      case Sql(cr, conn, p, log) => SqlKeeps(w, key, cr, conn, p, log, reply);
      case Store(cr) => StoreKeeps(w, key, cr, reply);
      case Release(cr, _) => ReleaseKeeps(w, key, cr, reply);
      case Report(cr, ok, message) => ReportKeeps(w, key, cr, ok, message, reply);
      case Resolve(cr) => ResolveKeeps(w, key, cr, reply);
      case Credentials(cr, pg) => CredentialsKeeps(w, key, cr, pg, reply);
      case Dial(cr, pg) => DialKeeps(w, key, cr, pg, reply);
      case Password(cr, conn) => PasswordKeeps(w, key, cr, conn, reply);
      case Idle =>
        if reply == Normal && Cached(w.c, key).Some? {
          ReadKeeps(w, key);
        }
    }
  }

  /** Everything w' says about key, w says too, and w' forgets nothing. */
  ghost predicate Untouched(w: World, w': World, key: Key) {
    && Versions(w'.c, key) == Versions(w.c, key) && PhaseOf(w', key) == PhaseOf(w, key)
    && w.c.rev <= w'.c.rev && w'.specs == w.specs
    && forall u: nat, g: nat :: (key, u, g) in w.applied ==>
         (key, u, g) in w'.applied && w'.applied[(key, u, g)] == w.applied[(key, u, g)]
  }

  lemma ProceedFrame(w: World, w1: World, other: Key, cr: Object, conn: PG.Conn, p: Program, log: seq<Event>, key: Key)
    requires key != other && w1.phases == w.phases && w1.applied == w.applied && w1.specs == w.specs
    requires w1.c.store == w.c.store && w1.c.rev == w.c.rev
    ensures Untouched(w, Proceed(w1, other, cr, conn, p, log), key)
  {
  }

  lemma RunFrame(w: World, other: Key, cr: Object, conn: PG.Conn, p: Program, log: seq<Event>, stmt: PG.Stmt, reply: Reply, key: Key)
    requires key != other
    ensures Untouched(w, RunStep(w, other, cr, conn, p, log, stmt, reply), key)
  {
    var r := PG.Exec(w.c.server, conn, stmt);
    hide PG.Exec;
    hide Proceed;
    if r.Some? {
      ProceedFrame(w, w.(c := w.c.(server := r.value)), other, cr, conn, p, log + [Ran(stmt)], key);
    }
  }

  lemma SqlFrame(w: World, other: Key, cr: Object, conn: PG.Conn, p: Program, log: seq<Event>, reply: Reply, key: Key)
    requires key != other
    ensures Untouched(w, SqlStep(w, other, cr, conn, p, log, reply), key)
  {
    hide RunStep;
    hide Proceed;
    match Next(p, log)
    case AskOp(q) => ProceedFrame(w, w, other, cr, conn, p, log + [Asked(q, PG.Answer(w.c.server, q))], key);
    case RunOp(stmt) => RunFrame(w, other, cr, conn, p, log, stmt, reply, key);
    case Finished =>
  }

  lemma StoreFrame(w: World, other: Key, cr: Object, reply: Reply, key: Key)
    requires key != other
    ensures Untouched(w, StoreStep(w, other, cr, reply), key)
  {
    if Guarded(w.c, other, cr) {
      WriteElsewhere(w.c, other, Some(cr.(fin := true, conditions := Live(w.c, other).value.conditions)), key);
    }
  }

  lemma ReleaseFrame(w: World, other: Key, cr: Object, reply: Reply, key: Key)
    requires key != other
    ensures Untouched(w, ReleaseStep(w, other, cr, reply), key)
  {
    if Guarded(w.c, other, cr) {
      WriteElsewhere(w.c, other, OrGone(cr.(fin := false, conditions := Live(w.c, other).value.conditions)), key);
    }
  }

  lemma ReportFrame(w: World, other: Key, cr: Object, ok: bool, m: Message, reply: Reply, key: Key)
    requires key != other
    ensures Untouched(w, ReportStep(w, other, cr, ok, m, reply), key)
  {
    if Live(w.c, other).Some? {
      var cs := SetCondition(cr.conditions, NewCondition(w.c, cr, ok, m));
      WriteElsewhere(w.c, other, Some(Live(w.c, other).value.(conditions := cs)), key);
    }
  }

  /** Before the SQL program a worker only moves on. */
  predicate IsConnecting(ph: Phase) {
    ph.Idle? || ph.Resolve? || ph.Credentials? || ph.Dial? || ph.Password?
  }

  lemma AtPhase(w: World, key: Key)
    ensures forall ph :: PhaseOf(At(w, key, ph), key) == ph
  {
  }

  lemma ConnectingMoves(w: World, key: Key, reply: Reply)
    requires IsConnecting(PhaseOf(w, key))
    ensures WorkStep(w, key, reply) == At(w, key, PhaseOf(WorkStep(w, key, reply), key)) || WorkStep(w, key, reply) == w
  {
    hide At, PhaseOf, AfterDial, ConnectFail, Fail, AfterRead, PgId, SecretId, DialTarget, ApplyProgram, Cached;
    hide SqlStep, StoreStep, ReleaseStep, ReportStep;
    AtPhase(w, key);
  }

  /** A worker leaves every other resource's versions, phase and history alone. */
  lemma WorkFrame(w: World, other: Key, reply: Reply, key: Key)
    requires key != other
    ensures Untouched(w, WorkStep(w, other, reply), key)
  {
    if reply != Crashed {
      match PhaseOf(w, other)
      case Sql(cr, conn, p, log) => SqlFrame(w, other, cr, conn, p, log, reply, key);
      case Store(cr) => StoreFrame(w, other, cr, reply, key);
      case Release(cr, _) => ReleaseFrame(w, other, cr, reply, key);
      case Report(cr, ok, m) => ReportFrame(w, other, cr, ok, m, reply, key);
      case _ => ConnectingMoves(w, other, reply);
    }
  }

  /** What is not a step of key's own worker neither breaks key's invariant nor moves that worker. */
  lemma ForeignKeeps(w: World, a: Action, key: Key)
    requires KeyInv(w, key) && !(a.Work? && a.key == key)
    ensures KeyInv(Step(w, a), key) && PhaseOf(Step(w, a), key) == PhaseOf(w, key)
  {
    if a.Work? {
      WorkFrame(w, a.key, a.reply, key);
      hide WorkStep, KeyInv;
      OtherKeyRemembers(w, Step(w, a), key);
      KeyFrame(w, Step(w, a), key);
    } else {
      EnvKeepsPhases(w, a);
      hide EnvStep, KeyInv;
      EnvKeeps(w, a, key);
    }
  }

  lemma EnvKeepsPhases(w: World, a: Action)
    requires !a.Work?
    ensures EnvStep(w, a).phases == w.phases && EnvStep(w, a).applied == w.applied
  {
  }

  lemma StepKeeps(w: World, a: Action)
    requires Inv(w)
    ensures Inv(Step(w, a))
  {
    forall key
      ensures KeyInv(Step(w, a), key)
    {
      assert KeyInv(w, key);
      hide KeyInv, WorkStep, EnvStep;
      if a.Work? && a.key == key {
        OwnKeeps(w, key, a.reply);
      } else {
        ForeignKeeps(w, a, key);
      }
    }
  }

  // ---------- the spec of a generation ----------

  lemma WorkKeepsSpecs(w: World, key: Key, reply: Reply)
    ensures WorkStep(w, key, reply).specs == w.specs
  {
    var other := Key(key.kind, key.ns, key.name + "'");
    assert |other.name| == |key.name| + 1;
    WorkFrame(w, key, reply, other);
  }

  /** The spec of a generation never changes. */
  lemma SpecStays(w: World, a: Action, key: Key, u: nat, g: nat)
    requires KeyInv(w, key) && (key, u, g) in w.specs
    ensures (key, u, g) in Step(w, a).specs && Step(w, a).specs[(key, u, g)] == w.specs[(key, u, g)]
  {
    if a.Work? {
      WorkKeepsSpecs(w, a.key, a.reply);
    } else if IsWrite(a) && a.key == key {
      WrittenSpec(w, a, u, g);
    } else if IsWrite(a) {
      WriteFrame(w, a, key);
    }
  }

  lemma WrittenSpec(w: World, a: Action, u: nat, g: nat)
    requires IsWrite(a) && SpecsOk(w, a.key) && (a.key, u, g) in w.specs
    ensures (a.key, u, g) in UserStep(w, a).specs && UserStep(w, a).specs[(a.key, u, g)] == w.specs[(a.key, u, g)]
  {
  }

  lemma {:induction false} ReplayKeeps(w: World, acts: seq<Action>)
    requires Inv(w)
    ensures Inv(Replay(w, acts))
    decreases |acts|
  {
    if acts != [] {
      StepKeeps(w, acts[0]);
      ReplayKeeps(Step(w, acts[0]), acts[1..]);
    }
  }

  lemma RunKeeps(w: World, acts: seq<Action>)
    requires Init(w)
    ensures Inv(Replay(w, acts))
  {
    forall key
      ensures KeyInv(w, key)
    {
    }
    ReplayKeeps(w, acts);
  }
}
