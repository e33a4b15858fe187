# PostgreSQL access operator: a verified model

A model, in Dafny, of an operator that keeps databases, roles and grants of a PostgreSQL server in line with
Kubernetes resources, and proofs of what it guarantees. `dafny verify dfyconfig.toml` checks the project.

## What is modelled

- `Postgres.dfy`: the server: roles with passwords, databases, schemas, tables, their access control lists, default
  privileges, and the thirteen statement forms the operator sends (PostgreSQL 16 manual, sections 5.7 and 22.4 and the
  reference pages of the statements). `Statements.dfy`: what single statements and sequences of them leave.
- `Grants.dfy`: the five grant and four revoke statements, alone and with tables created between them.
- `Api.dfy`: the three kinds of resource, status conditions, and return values. `Requeue.dfy`: 64-bit delays.
- `Protocol.dfy`: the three reconcilers as one small-step machine. Every effect is a step: a read through the informer
  cache (which may lag behind the API server by any number of versions), reads of the PostgreSQL resource and of
  Secrets, the connection, each query and statement, `Update` guarded by the version, and the unguarded status patch
  that replaces the list of conditions. Each effect may fail without effect, take effect and report an error, or be
  cut off by a crash. Between any two steps users may create, edit and delete resources, other writers may change their
  own finalizers and conditions, PostgreSQL resources and Secrets may come and go, and other sessions may put the server
  into any state. Any number of resources is in play, with one worker each.
- `Promises.dfy`: names, places, delays and reports as the code and the documentation promise them, apart from the
  machine's own functions, for the claims to be stated in.
- `Safety.dfy`: the invariant of the machine. `Origins.dfy`: every note the machine keeps of its statements, traced back
  to the steps at which the server executed them. `Runs.dfy`: what follows for every run.
- `Attempts.dfy`: one reconcile, with a script of what others do before each of its effects and how each effect ends.
- `Operator.dfy`, `DatabaseController.dfy`, `UserController.dfy`, `GrantController.dfy`, `Returns.dfy`: the imperative
  code, effect by effect, proved to do and to return, for every script, exactly what the machine does.
- `Undisturbed.dfy`, `Convergence.dfy`, `Answers.dfy`, `Fleet.dfy`, `Teardown.dfy`: one reconcile as a whole, idempotence,
  convergence under faults and interference, what each case is answered with, and many resources on one server. `Interleavings.dfy` joins the machine to the runs of
  `Grants.dfy` with gaps.
- `Literals.dfy`, `ConnStrings.dfy`: the password literal against a lexer (sections 4.1.2.1 and 4.1.2.2 of the manual),
  the connection string against a parser (section 34.1.1.1).

## Where the code and its documentation differ

The model follows the code.

- The README of the repository says that finalizers go when the PostgreSQL resource is deleted; they also go when only
  its superuser Secret is missing (internal/controller/helpers.go:58-68).
- The README and the field's comment offer privilege lists such as SELECT, INSERT; only a single ALL gets through both
  the database and the table statement (internal/sql/grant.go:47-57).
- The comment of `GrantPrivileges` speaks of three statements; there are five (internal/sql/grant.go:35-79).
- The comment in `quoteLiteral` speaks of dollar quoting; the code quotes with single quotes
  (internal/sql/user.go:93-95). Doubling backslashes changes the password when standard_conforming_strings is on.
- The comment of `retryInterval` says that without it the resource is requeued immediately; the code waits at least
  five seconds (api/v1alpha1/common_types.go:42-45, internal/controller/helpers.go:152-158).
- `RevokePrivileges` says that it revokes what was granted; it leaves USAGE on the schema
  (internal/sql/grant.go:81-115).

## Model

| member | source | states |
|---|---|---|
| `Runs.FinalizerAndReady` | internal/controller/postgresqldatabase_controller.go:58-99 | In every run with any edits, deletions, conflicts, faults, crashes and stale reads: behind a stored finalizer stands a whole apply of this very resource on this server, at steps i0 < i1 < ... of the run at which its worker alone moved and the server gave each answer and executed each statement, with the password that the named Secret held when it was read; its last step made the database or role named by spec.name, or else by metadata.name, exist (the role with the stored password) and left every other one alone, or each grant was established right after its step; behind Ready=True stands one of the observed generation, with the spec it had; Ready=True without a deletion mark means that the finalizer is stored |
| `Runs.FinalizerGoesJustified` | internal/controller/postgresqldatabase_controller.go:102-137 | In every run the finalizer goes only by the resource's own worker, from a resource marked deleted, and for the resource as stored at that moment: policy not Delete; or the steps of the same reconcile at which the server executed the drop or revoke of its current target, of which the last removed exactly the database or role named by spec.name or metadata.name; or the PostgreSQL resource, or its superuser Secret beside it, was not found in the same reconcile |
| `Runs.ReleaseOrigin` | internal/controller/postgresqlgrant_controller.go:105-143 | Behind a worker about to remove a finalizer stands the step of the same reconcile that decided it, in a state where the ground held (for a cleanup: the server performed the last event of the log at it), with the worker unmoved since |
| `Runs.CleanupOrigin` | internal/controller/postgresqluser_controller.go:115-133 | A decision for a completed cleanup has all its statements executed on the server of the run, up to the deciding step, with the target gone after it |
| `Origins.SqlOrigin` | internal/sql/database.go:41-76 | A worker within an SQL program has come there step by step: the step that connected, or read the password from the Secret, then one step for each event of its log, performed by the server, with the worker waiting in between |
| `Origins.ApplyOrigin` | internal/controller/postgresqluser_controller.go:58-91 | Every apply that the machine remembers took place on the server of the run, for the spec of its generation |
| `Runs.OnlyReleaseWrites` | internal/controller/postgresqluser_controller.go:93-141 | A worker's step changes nothing of its stored resource but the finalizer or the conditions: it never overwrites anybody's edit, mark or other finalizer |
| `Runs.OnlyAllBecomesReady` | internal/controller/postgresqlgrant_controller.go:81-102 | In every run in which a Grant is never given a single ALL, it never gets the finalizer or Ready=True |
| `Runs.BlockedGrant` | internal/controller/postgresqlgrant_controller.go:112-135 | A deleted Grant keeps its finalizer in every run for as long as its database stays away, its policy stays Delete, and a PostgreSQL resource and every Secret it ever names stay, however that resource is edited |
| `Runs.UsageStaysUntilDrop` | internal/sql/grant.go:66-70 | In every run a role that holds USAGE on a schema keeps it, and cannot be dropped, at any moment until the database goes, whatever any number of grants, revokes and drops of any resources do; other sessions must leave the entry |
| `Runs.BlockedUser` | internal/controller/postgresqluser_controller.go:115-133 | In every run a deleted User whose role holds USAGE keeps its finalizer, and the role stays, until the database goes, the policy or the name is edited, the PostgreSQL resource or a Secret it names goes, or another session takes the entry |
| `Runs.DropProvenance` | internal/controller/postgresqluser_controller.go:108-133 | In every run a worker about to send a DROP or REVOKE holds a resource read with a deletion mark, the finalizer and policy Delete |
| `Runs.NoDeleteNoShrink` | internal/controller/postgresqldatabase_controller.go:109-129 | If no resource is ever given policy Delete, no step of the operator takes away a database, role, table or list entry |
| `Safety.RunKeeps` | internal/controller/helpers.go:124-138 | The invariant behind these claims holds in every state of every run |
| `Safety.FinalizerKeeps` | internal/controller/postgresqldatabase_controller.go:87-92 | The finalizer is added to the very version that was read, and the worker then reports on that version |
| `Safety.DropKeeps` | internal/controller/postgresqldatabase_controller.go:131-134 | Removing the finalizer leaves no version in a lagging cache that could be taken for one with a finalizer to rely on |
| `Safety.ReportKeeps` | internal/controller/helpers.go:124-138 | The unguarded status patch keeps the invariant: a report of success only reaches the resource it is about |
| `DatabaseController.Reconcile` | internal/controller/postgresqldatabase_controller.go:46-100 | For every script of interference and faults, the stores and the rest of the script are those of the machine's attempt, and the return is the one its last effect calls for. In plain terms: a failed read is an error; a live resource comes back after requeueInterval or 30 s, with the jitter, if its database (spec.name or metadata.name) was there during the call and success was reported for the generation read, and after retryInterval or 5 s if a failure with its reason was; a deleted one that holds the finalizer loses it if the policy is not Delete, or the PostgreSQL resource or its superuser Secret was missing, or its database was gone during the call, and otherwise comes back after 5 s |
| `DatabaseController.HandleDeletion` | internal/controller/postgresqldatabase_controller.go:102-137 | The deletion branch of this, for every script: for a resource that holds the finalizer it returns nil without delay exactly with the finalizer just removed, as it does whenever the PostgreSQL resource or its superuser Secret is found missing; an error only when Update was refused or met another version; the fixed 5 s only after a failed cleanup that was called for |
| `UserController.Reconcile` | internal/controller/postgresqluser_controller.go:44-106 | The same for users: success means that during the call the role had the password that its Secret held earlier in the call |
| `UserController.HandleDeletion` | internal/controller/postgresqluser_controller.go:108-141 | The same for dropping the role |
| `GrantController.Reconcile` | internal/controller/postgresqlgrant_controller.go:45-103 | The same for grants: success means that the five statements were executed in the target database during the call |
| `GrantController.HandleDeletion` | internal/controller/postgresqlgrant_controller.go:105-143 | The same for the revoke and its four statements |
| `Returns.NoLostWakeup` | internal/controller/helpers.go:142-163 | With intervals in range, a return without an error and without a positive delay has seen the resource gone or marked deleted; a failed cleanup comes back after exactly 5 s; a success comes back within 5 s above requeueInterval, or above 30 s without one, a failure within 5 s above retryInterval, or above 5 s |
| `Requeue.WakesUp` | internal/controller/helpers.go:161-163 | Every jitter below 5 s is added without wrapping to a positive int64 delay if and only if the interval is at least one nanosecond and at most the largest int64 less the largest jitter |
| `Operators.Operator.Update` | internal/controller/postgresqldatabase_controller.go:88-91 | An error if and only if the effect failed or the live version is not the one that was read; the write leaves the stored status alone |
| `Operators.Operator.PatchCondition` | internal/controller/helpers.go:124-138 | Under every script: the live resource, whatever its version, gets a Ready condition with this status, the generation that was read, this message, and a time that moves only when the status flips, and the other conditions of the list that was read; nothing happens when that condition was there already, the resource is gone or the patch is refused |
| `Operators.Operator.ConnectToPostgres` | internal/controller/helpers.go:51-83 | Under every script, each effect judged by the state that it meets: the PostgreSQL resource of the reference's namespace or the resource's own, the superuser Secret beside it with its key, then the database that the PostgreSQL resource names; each error if and only if its condition is the first to fail |
| `Operators.Operator.ConnectToDatabase` | internal/controller/helpers.go:88-120 | The same, to the target database of the grant |
| `Operators.Operator.GetSecretValue` | internal/controller/helpers.go:166-176 | The value that the Secret holds under the key when it is read, or the error for exactly the part of it that is missing |
| `Operators.Operator.CreateDatabase` | internal/sql/database.go:41-57 | Under any interference: nil means that the database exists right after the call's last effect |
| `Operators.Operator.DropDatabase` | internal/sql/database.go:61-76 | Under any interference: nil means that the database is absent right after the call's last effect |
| `Operators.Operator.CreateOrUpdateRole` | internal/sql/user.go:40-69 | Under any interference: nil means that the role then has the password decoded from the literal, which is the given one if and only if the server decodes backslashes or there are none |
| `Operators.Operator.DropRole` | internal/sql/user.go:72-87 | Under any interference: nil means that the role is absent right after the call's last effect |
| `Operators.Operator.GrantPrivileges` | internal/sql/grant.go:40-79 | nil only for a single ALL, and then the five statements were executed by the server, in order, at five increasing steps of this call, whatever came in between |
| `Operators.Operator.RevokePrivileges` | internal/sql/grant.go:82-115 | nil means that the four statements were executed by the server, in order, at four increasing steps of this call |
| `Undisturbed.AttemptIsReconciled` | internal/controller/postgresqldatabase_controller.go:46-137 | The machine's steps of an undisturbed reconcile add up to the reconcile in one piece, for all three kinds and every outcome |
| `Undisturbed.ExecuteTwice` | internal/sql/grant.go:40-115 | Every SQL program run again ends in the same state with the same outcome, also after it stopped at an error |
| `Convergence.ReconcileTwice` | internal/controller/helpers.go:124-138 | A second undisturbed reconcile at any later time changes nothing at all: server, finalizer, conditions with their transition times, versions; whether or not the first one succeeded |
| `Convergence.LiveConverges` | internal/controller/postgresqluser_controller.go:44-106 | Of any k + 1 reconciles of a live resource of which at most k are not smooth, with any faults, crashes, and anything others do between and within them that leaves the resource live with its spec and its apply feasible, one ends with the database, role or grant present under its name, the finalizer stored and Ready=True with its message for the current generation; after each later one the finalizer is still there |
| `Convergence.DeletedConverges` | internal/controller/postgresqluser_controller.go:108-141 | After k + 1 such reconciles of a deleted resource, with anything others do that leaves its cleanup feasible, not called for, or without its PostgreSQL resource or superuser Secret, the finalizer is gone |
| `Answers.MissingReleases` | internal/controller/helpers.go:58-68 | An undisturbed reconcile removes the finalizer when the PostgreSQL resource or its superuser Secret is missing, and leaves the server alone |
| `Answers.UnreachableKeeps` | internal/controller/postgresqlgrant_controller.go:112-123 | It changes nothing at all when both are there but the Secret lacks the key or the database to connect to does not exist |
| `Answers.SkipReleases` | internal/controller/postgresqldatabase_controller.go:109-137 | It removes the finalizer and leaves the server alone when the policy is not Delete |
| `Answers.ConnectsWhere` | internal/controller/helpers.go:51-83 | A connection leads to a database if and only if the resource, the Secret, the key and the database are there under the names and in the namespaces written out; the two not-found errors, each if and only if its part is missing |
| `Answers.DatabaseAnswers` | api/v1alpha1/postgresqldatabase_types.go:48-53 | A completed apply adds, a completed cleanup removes, exactly the database named by spec.name or metadata.name; all other databases and the roles are as before |
| `Answers.RoleAnswers` | api/v1alpha1/postgresqluser_types.go:53-58 | The same for roles, with the stored password |
| `Answers.GrantAnswers` | internal/controller/postgresqlgrant_controller.go:66-79 | The programs of a grant succeed exactly when it is applicable, and leave a whole grant or revoke |
| `Answers.ReportAnswers` | internal/controller/helpers.go:127-134 | A report on the live version leaves the Ready condition with exactly this status, generation, time and message |
| `Answers.UnreachableIsReported` | internal/controller/postgresqldatabase_controller.go:63-72 | A live resource that cannot be reached gets Ready=False for its generation with the first reason that applies, and the server is left alone |
| `Answers.FailureIsReported` | internal/controller/postgresqldatabase_controller.go:74-82 | A live resource whose statements fail gets Ready=False for its generation, and its finalizer stays as it was |
| `Answers.DelayAnswers` | internal/controller/helpers.go:142-163 | The delay of the report and of the failed cleanup, in nanoseconds |
| `Attempts.Descends` | internal/controller/postgresqldatabase_controller.go:46-137 | Every effect of a reconcile, whatever its reply, lowers a lexicographic measure of the position and the statements left, so every reconcile ends |
| `Fleet.DatabasesConverge` | internal/controller/postgresqldatabase_controller.go:74-129 | All deleted resources in any order, then all live ones in any order, of any kinds and with shared names: the databases are the old ones less those of deleted resources holding the finalizer with Delete, plus those of live resources |
| `Fleet.PassDatabases` | internal/sql/database.go:41-76 | What one reconcile of any resource makes of the set of databases |
| `Teardown.GrantsDatabasesUsers` | internal/controller/postgresqluser_controller.go:115-133 | For any closed set of deleted grants, databases and users with Delete, that order clears every finalizer and removes exactly the named databases and roles |
| `Teardown.DatabaseFirstBlocksGrant` | internal/controller/postgresqlgrant_controller.go:113-120 | With the database dropped first, the grant keeps its finalizer through all further reconciles of anything for as long as the database stays away |
| `Teardown.UserBeforeDatabaseIsBlocked` | internal/sql/grant.go:66-70 | With USAGE held in a database that stays, the role and the user's finalizer stay through any sequence of reconciles of any resources |
| `Interleavings.InterleavedIsExecWith` | internal/sql/grant.go:46-76 | A worker's statements with tables created in between are the statement runs of the two rows below, and the worker gets past them exactly when all went through |
| `Interleavings.GrantRunCovers` | internal/sql/grant.go:46-64 | A worker through its grant has covered every table of the schema except exactly those created between its second and third statement under defaults that did not cover the role |
| `Interleavings.RevokeRunLeavesNothing` | internal/sql/grant.go:88-100 | A worker through its revoke has left no entry of the role on tables and defaults, whatever was created meanwhile |
| `Grants.GrantCoverage` | internal/sql/grant.go:46-76 | The same for the statements alone, with the tables that exist at the end |
| `Grants.TwoGrantsCover` | internal/sql/grant.go:40-79 | Two completed grants in a row cover every table |
| `Grants.RevokeLeavesNothing` | internal/sql/grant.go:82-115 | The same for the revoke's statements alone |
| `Grants.DefaultsMustGoFirst` | internal/sql/grant.go:88-100 | In the other order a table created in between keeps all entries |
| `Grants.GrantThenRevoke` | internal/sql/grant.go:40-115 | From any state of the lists: nothing of the role is left on database, tables, defaults and schema CREATE, USAGE is held, and every other role, schema, table owner and database is as before |
| `Grants.RevokedRoleIsStuck` | internal/sql/grant.go:81-115 | A grant gives the role USAGE on the schema, a revoke after it leaves it, and then no session can drop the role; `Runs.UsageStaysUntilDrop` says for how long |
| `Statements.UsageStays` | internal/sql/grant.go:82-115 | No statement takes USAGE from a role but dropping the database or revoking USAGE itself, not even an attempt to drop the role |
| `Grants.OnlyAllFitsBoth` | internal/sql/grant.go:46-57 | A privilege list is valid for databases and for tables if and only if it is a single ALL or ALL PRIVILEGES |
| `Grants.GrantSucceedsExactly` | internal/sql/grant.go:40-79 | The grant returns nil if and only if the list is ALL and role, database and schema exist |
| `Grants.RevokeSucceedsExactly` | internal/sql/grant.go:82-115 | The same for the revoke |
| `Postgres.OthersGrow` | internal/sql/user.go:40-69 | No statement but a drop or revoke takes anything away |
| `Postgres.ExecKeepsTypes` | internal/sql/grant.go:40-115 | Lists keep holding only privileges of their object's kind |
| `Api.SetThenFind` | internal/controller/helpers.go:127-134 | After setting the condition there is one Ready condition, with a transition time that moves only when the status flips |
| `Api.SetTwice` | internal/controller/helpers.go:127-134 | Setting the same condition later changes nothing |
| `Literals.EscapeString` | internal/sql/user.go:99-112 | The loop computes the byte-wise escape |
| `Literals.LiteralIsContained` | internal/sql/user.go:92-112 | In both modes the literal ends where the encoder ended it and decodes to what the server stores, if and only if the text behind it is not one that continues a string constant |
| `Literals.StoredExactly` | internal/sql/user.go:48-64 | The stored password equals the given one if and only if the mode decodes backslashes or there are none |
| `Literals.LiteralIsInjective` | internal/sql/user.go:92-96 | No two passwords share a literal or, in either mode, a stored value |
| `ConnStrings.RoundTrip` | internal/sql/client.go:43-47 | By the manual's grammar, parsing the printed string gives back the six settings if and only if the four strings are nonempty, without white space and backslash, and do not start with a single quote; the port always survives |

## Left out

- All PostgreSQL resources lead to one server, and a connection opens the named database; host, port and user name appear only in the connection string.
- ConnStrings.RoundTrip: the parser is the one of the manual, not that of the pgx library, which keeps a backslash before an ordinary character of a plain value, so that such a password survives there.
- Operators.Operator.Interfere: interference comes before each effect; a script of the Operator class holds no crash, because a crash ends the call. Crashes are part of the machine's runs and of the convergence claims.
- Undisturbed.AttemptIsReconciled: speaks of the stores, not of the recorded history.
- Reads of PostgreSQL resources and Secrets are of their current state; cache lag is modelled for the reconciled resources.
- Renaming spec.name leaves the old database or role behind; claims about cleanup concern the current name.
- A crash between the SQL and the first Update, or a grant that stops half way, leaves something on the server without a finalizer; nothing is claimed about such leftovers.
- Column privileges, grant options, PUBLIC, role membership and global default privileges.
- Identifiers longer than 63 bytes or with NUL, NUL in passwords, the escapes \u and \U, and comments between string constants.
- The text of privilege lists is modelled as parsed words.
- A status patch that reports a failure may reach a resource created anew under the same name; the model allows it.
- internal/controller/postgresql_controller.go: a connectivity check without finalizer and effect on the server.
- Logging, contexts, TLS, leader election, clocks (an abstract time), the distribution of the jitter.
- cmd, charts, config, generated code and the end-to-end test utilities.
