/** The custom resources of api/v1alpha1 and their status conditions. */
module Api {
  import opened Base
  import Grants
  import Requeue

  datatype Kind = DatabaseKind | UserKind | GrantKind

  datatype Key = Key(kind: Kind, ns: string, name: string)

  datatype CleanupPolicy = Skip | Delete

  datatype PostgresRef = PostgresRef(name: string, ns: string)

  datatype SecretKeyRef = SecretKeyRef(name: string, key: string)

  datatype Body =
    | DatabaseBody(name: string)
    | UserBody(name: string, password: SecretKeyRef)
    | GrantBody(opts: Grants.GrantOpts)

  datatype Spec = Spec(
    ref: PostgresRef, policy: CleanupPolicy, requeueInterval: Option<int>, retryInterval: Option<int>, body: Body)

  /** The spec of a PostgreSQL resource. All of them lead to the one modelled server. */
  datatype PgSpec = PgSpec(database: string, superuserSecret: SecretKeyRef)

  datatype Error =
    | PgNotFound | SecretNotFound | KeyMissing | DialFailed
    | PasswordSecretNotFound | PasswordKeyMissing
    | SqlFailed | Unavailable

  /** apierrors.IsNotFound looks through the wrapping, so a missing superuser Secret counts like a missing
      PostgreSQL resource. */
  predicate IsNotFound(e: Error) {
    e == PgNotFound || e == SecretNotFound
  }

  datatype Message = Present(name: string) | GrantedTo(database: string, role: string) | Failed(error: Error)

  datatype ConditionType = Ready | Other(name: string)

  /** The reason is Succeeded or Failed with the status, so it is not kept apart. */
  datatype Condition = Condition(
    ctype: ConditionType, status: bool, observedGeneration: nat, transition: nat, message: Message)

  /** `fin` is the operator's finalizer, `others` are the finalizers of anyone else. */
  datatype Object = Object(
    uid: nat, rv: nat, generation: nat, deleted: bool, fin: bool, others: set<string>,
    spec: Spec, conditions: seq<Condition>)

  predicate Fits(kind: Kind, body: Body) {
    match kind
    case DatabaseKind => body.DatabaseBody?
    case UserKind => body.UserBody?
    case GrantKind => body.GrantBody?
  }

  /** spec.name, or metadata.name when it is empty. */
  function TargetName(key: Key, body: Body): string
    requires !body.GrantBody?
  {
    if body.name != "" then body.name else key.name
  }

  function SuccessMessage(key: Key, spec: Spec): Message {
    match spec.body
    case GrantBody(g) => GrantedTo(g.database, g.role)
    case _ => Present(TargetName(key, spec.body))
  }

  // ---------- conditions ----------

  function Find(cs: seq<Condition>, t: ConditionType): (r: Option<Condition>)
    ensures r.Some? ==> r.value in cs && r.value.ctype == t
    ensures r.None? ==> forall c :: c in cs ==> c.ctype != t
  {
    if cs == [] then None
    else if cs[0].ctype == t then Some(cs[0])
    else Find(cs[1..], t)
  }

  /** meta.SetStatusCondition: the transition time moves only when the status flips. */
  function SetCondition(cs: seq<Condition>, new_: Condition): seq<Condition> {
    if cs == [] then [new_]
    else if cs[0].ctype == new_.ctype then
      [new_.(transition := if cs[0].status == new_.status then cs[0].transition else new_.transition)] + cs[1..]
    else [cs[0]] + SetCondition(cs[1..], new_)
  }

  function Count(cs: seq<Condition>, t: ConditionType): nat {
    if cs == [] then 0 else (if cs[0].ctype == t then 1 else 0) + Count(cs[1..], t)
  }

  lemma {:induction false} SetThenFind(cs: seq<Condition>, c: Condition)
    ensures var was := Find(cs, c.ctype);
            Find(SetCondition(cs, c), c.ctype) ==
            Some(c.(transition := if was.Some? && was.value.status == c.status then was.value.transition else c.transition))
    ensures Count(SetCondition(cs, c), c.ctype) == if Count(cs, c.ctype) == 0 then 1 else Count(cs, c.ctype)
    ensures Count(cs, c.ctype) == 0 <==> Find(cs, c.ctype).None?
  {
    if cs != [] {
      SetThenFind(cs[1..], c);
      assert SetCondition(cs, c)[1..] == if cs[0].ctype == c.ctype then cs[1..] else SetCondition(cs[1..], c);
    }
  }

  lemma {:induction false} SetKeepsOthers(cs: seq<Condition>, c: Condition, t: ConditionType)
    requires t != c.ctype
    ensures Find(SetCondition(cs, c), t) == Find(cs, t)
  {
    if cs != [] {
      SetKeepsOthers(cs[1..], c, t);
      assert SetCondition(cs, c)[1..] == if cs[0].ctype == c.ctype then cs[1..] else SetCondition(cs[1..], c);
    }
  }

  /** Setting the same condition again, at any later time, changes nothing. */
  lemma {:induction false} SetTwice(cs: seq<Condition>, c: Condition, later: nat)
    ensures SetCondition(SetCondition(cs, c), c.(transition := later)) == SetCondition(cs, c)
  {
    if cs != [] {
      SetTwice(cs[1..], c, later);
      assert SetCondition(cs, c)[1..] == if cs[0].ctype == c.ctype then cs[1..] else SetCondition(cs[1..], c);
    }
  }

  /** Setting a condition changes the list unless it is there already, with the same status, generation and message. */
  lemma {:induction false} SetSame(cs: seq<Condition>, c: Condition)
    ensures SetCondition(cs, c) == cs <==>
            Find(cs, c.ctype).Some? && Find(cs, c.ctype).value == c.(transition := Find(cs, c.ctype).value.transition)
  {
    if cs != [] {
      SetSame(cs[1..], c);
      if cs[0].ctype != c.ctype {
        assert SetCondition(cs, c)[1..] == SetCondition(cs[1..], c);
        assert cs == [cs[0]] + cs[1..];
      } else {
        assert SetCondition(cs, c)[1..] == cs[1..] && cs == [cs[0]] + cs[1..];
        assert SetCondition(cs, c)[0] == cs[0] <==> SetCondition(cs, c) == cs;
      }
    }
  }

  // ---------- requeue ----------

  /** What a reconciler returns: an error, or a delay of which zero means no requeue. */
  datatype Result = Result(failed: bool, after: int)

  const Done := Result(false, 0)
  const Err := Result(true, 0)

  function RequeueResult(spec: Spec, jitter: int): Result {
    Result(false, Requeue.AddJitter(Requeue.Interval(spec.requeueInterval, Requeue.DEFAULT_REQUEUE), jitter))
  }

  function RetryResult(spec: Spec, jitter: int): Result {
    Result(false, Requeue.AddJitter(Requeue.Interval(spec.retryInterval, Requeue.DEFAULT_RETRY), jitter))
  }
}
