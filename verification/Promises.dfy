/**
 * What the code and the documentation promise about names, places, delays and reports, read off directly. None of the
 * machine's own functions is used here, so that the claims that use these do not depend on them.
 */
module Promises {
  import opened Base
  import opened Api
  import opened Protocol
  import PG = Postgres

  // ---------- names and places ----------

  /** The database or role that a resource is about: spec.name, or metadata.name without one. */
  function NameOf(key: Key, body: Body): string
    requires !body.GrantBody?
  {
    if body.name == "" then key.name else body.name
  }

  /** The namespace of the PostgreSQL resource and of its superuser Secret. */
  function HomeOf(key: Key, spec: Spec): string {
    if spec.ref.ns == "" then key.ns else spec.ref.ns
  }

  predicate HasPg(c: Cluster, key: Key, spec: Spec) {
    (HomeOf(key, spec), spec.ref.name) in c.pgs
  }

  function PgOf(c: Cluster, key: Key, spec: Spec): PgSpec
    requires HasPg(c, key, spec)
  {
    c.pgs[(HomeOf(key, spec), spec.ref.name)]
  }

  function SuperuserOf(key: Key, spec: Spec, pg: PgSpec): (string, string) {
    (HomeOf(key, spec), pg.superuserSecret.name)
  }

  /** The PostgreSQL resource or its superuser Secret is not there. */
  predicate IsMissing(c: Cluster, key: Key, spec: Spec) {
    !HasPg(c, key, spec) || SuperuserOf(key, spec, PgOf(c, key, spec)) !in c.secrets
  }

  /** Grants are run in their own database, everything else in the one the PostgreSQL resource names. */
  function DatabaseOf(spec: Spec, pg: PgSpec): PG.Name {
    if spec.body.GrantBody? then spec.body.opts.database else pg.database
  }

  predicate CanConnect(c: Cluster, key: Key, spec: Spec) {
    && !IsMissing(c, key, spec)
    && var pg := PgOf(c, key, spec);
    && pg.superuserSecret.key in c.secrets[SuperuserOf(key, spec, pg)]
    && DatabaseOf(spec, pg) in c.server.databases
  }

  predicate Reaches(c: Cluster, key: Key, spec: Spec, d: PG.Name) {
    CanConnect(c, key, spec) && DatabaseOf(spec, PgOf(c, key, spec)) == d
  }

  /** The Secret of a role's password is there and has the key; other resources need none. */
  predicate CanRead(c: Cluster, key: Key, spec: Spec) {
    spec.body.UserBody? ==>
      (key.ns, spec.body.password.name) in c.secrets && spec.body.password.key in c.secrets[(key.ns, spec.body.password.name)]
  }

  function PasswordOf(c: Cluster, key: Key, spec: Spec): Bytes
    requires CanRead(c, key, spec)
  {
    if spec.body.UserBody? then c.secrets[(key.ns, spec.body.password.name)][spec.body.password.key] else []
  }

  // ---------- reports and delays ----------

  function SuccessText(key: Key, spec: Spec): Message {
    if spec.body.GrantBody? then GrantedTo(spec.body.opts.database, spec.body.opts.role) else Present(NameOf(key, spec.body))
  }

  /** Nanoseconds until the next attempt, before the jitter. */
  function DelayOf(spec: Spec, ok: bool): int {
    if ok then if spec.requeueInterval.Some? then spec.requeueInterval.value else 30_000_000_000
    else if spec.retryInterval.Some? then spec.retryInterval.value else 5_000_000_000
  }

  /** With the interval and the jitter in range, the delay is their sum, and no wrap-around occurs. */
  predicate IsScheduled(r: Result, spec: Spec, ok: bool, jitter: int) {
    && !r.failed
    && (1 <= DelayOf(spec, ok) <= 9_223_372_031_854_775_808 && 0 <= jitter < 5_000_000_000 ==> r.after == DelayOf(spec, ok) + jitter)
  }
}
