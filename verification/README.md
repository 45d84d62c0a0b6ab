# dbchan: what its controllers keep true

dbchan is a Kubernetes operator. Five controllers drive custom resources (Datastore, Database, User,
Migration, DatabaseRole) towards state on external database servers. This project models the
controllers as they meet the world and proves what survives of their intentions: in every run, with
other clients acting between any two calls, caches that lag but never go backwards, calls that are lost,
calls that take effect while their reply is lost, and passes that are cut short anywhere.

## How it is built

- `Api` is the API server: a versioned store per kind with optimistic concurrency, finalizers, deletion
  marks and a lagging cache. `Server` is the database side: databases, accounts, roles, and an event log
  per logical database from which the `schema_migrations` table can be read off.
- `Cluster` is the world around one controller. Every call first consumes a slot of a schedule: what
  others do, how far the caches move, and whether the call is lost, loses its reply, or goes through. A
  schedule that runs out leaves a world where every call is lost, which is what a crash looks like, or
  one that is quiet for good. What holds for every schedule holds for every run.
- `Ownership` and `Keeper` are the finalizer protocol, once, for databases, users and roles: store the
  finalizer, create, and on deletion clean up before the finalizer goes. `DatabaseController`,
  `UserController` and `RoleController` are those controllers. Each `Reconcile` keeps `Valid()` under
  every schedule and, in a quiet world, does exactly what a pure pass function says. `Valid()` accounts
  for everything on the servers: for what stands there, by the object that made it or the reason why it
  was left; for what is gone, by others or by a deleting object; for what was granted, by the version of
  an object that listed it. Every version of the store carries a stamp of how far everything else had
  come, so that "before" is part of the statements.
- `MigrationLog`, `MigrationBooks`, `MigrationController` and `MigrationSafety` are the migration
  protocol: two stores that have to agree although no transaction spans them.
- `Grants` and `Idempotence` say what the scripts of a user add up to, cut or complete.
- `Convergence` plays the pass functions of all five controllers against each other.
- `Endings` spells out how an undisturbed pass over a live object of each kind ends; deletion stands with the
  controllers (`DeletingEnds`, `RetryDeletion`).
- `LeakFreedom` and `StatusSafety` read results about whole runs off the invariants.
- `Base64`, `ConnectionStrings` and `DeepCopy` are the codecs at the boundary and the generated copies.

## What is assumed of the world

- One worker per controller, and nobody but a controller clears its finalizer or writes the statuses of
  its kind.
- On the servers nobody but the controller at hand adds or drops what it manages, with these exceptions.
  Logical databases can be dropped under any of them at any time, and, except for the Database controller,
  which is the one to make them, made again. Roles can be made under the role controller at any time, as the
  User controller does on MySQL for the roles it finds missing; nobody answers for such a role
  until the role controller creates it for a DatabaseRole of that name. To the other controllers anything may
  happen to roles. Memberships and privileges of accounts are taken away by nobody: that the members of a
  MySQL role lose it when the role controller drops it is outside the world of `HeldSince`. Runs start from
  servers in any state (logs must have the shape they are then shown to keep).
- A server is the key of the Datastore that leads to it. Two Datastores that lead to one server, or one
  that is edited to lead to another, are two servers or one to this model; who shares an account, a
  database or a role there is told by Datastores (`Compatible`, `NoRival`, `NothingTakenDownAlive`). Which
  Secrets there are, and which servers can be reached, stays the same throughout a run, but for lost calls;
  which ones let the role controller in is told apart in `Convergence`, because it may come with another
  password.
- On PostgreSQL and SQL Server a CREATE ROLE for a role that exists is refused. Whether the refusal reads
  "already exists", as the role controller needs it to, is a parameter of the role controller's world.
- Statements are atomic: they take effect as a whole or not at all, whatever is reported.
- Clean-up and rollback look up references only in the namespace of the object, while creation falls
  back to any namespace; clean-up takes a missing Datastore, and rollback a missing Database, as already
  clean; SQL Server drops are unconditional; role deletion goes on past any Datastore or Secret that
  cannot be read; user reconciliation never checks that the Database is ready. The model does all of
  this, and the results name these cases as the ways in which something can be left behind.

## What turned out false

- An applied migration need not have a record. `SharedVersionLosesRecord` shows how: two objects that
  name one version on one database, one of which is deleted with a rollback. `AppliedIsOnRecord` shows
  that this and dropping the database are the only ways in which the version it named when it was applied
  can lose its record, and `RecordSurvives` says exactly which passes keep a record.
- The version that an applied migration names need not be the one it was applied for: nothing guards
  edits, and nothing ever runs for them (`EditsDoNotRun`). `EditedVersionIsNotOnRecord` is such an input;
  by `AppliedIsLeftAlone` the new version is on record exactly if it was already.
- The record of a version need not be for the SQL that an applied migration names: `RecordOfAnotherText`
  has two texts under one version, the second of which is marked applied without having run.
  `AppliedForItsText` says exactly when the record has the checksum in the status.
- Users that share an account both become ready, but they need not come to rest:
  `SharedAccountNeverSettles` has two PostgreSQL users of one login that go on changing its password.
  `ThenNothingChanges` says exactly when nothing changes any more.
- A string that the webhook admits need not decode (`GateIsTooWide`); it does exactly when its length is
  a multiple of four.
- The connection string of a Datastore is ambiguous exactly if its credentials have another colon
  (`ColonIsAmbiguous`), and the two builders disagree in the cases that `BuildersAgree` names.
- Deleting on SQL Server does not end if the database, account or role is already gone: `DiesAfterDrop` is a
  pass that leaves an object in that state, and `RetryInVain` is every pass after it. `DeletingEnds` and
  `RetryDeletion` say exactly when deletion does end, of migrations and roles, too.
- Roles on PostgreSQL do not work for Datastores that admission lets through: `PostgresRolesAreStuck`.
- The role controller may not get into a Datastore that is ready: it does not fall back to the key
  "password". `RolesTryTheSame` says exactly when it tries the same string.
- A role can be left behind when its object goes: if the Datastore or its Secret is missing, or if the
  call that reads them is lost (`RolesHaveOwners`).

## Model

| member | source | states |
|---|---|---|
| `MigrationSafety.AtMostOncePerFault` | internal/controller/migration_controller.go:257-280 | In every run, with crashes, lost replies and a lagging cache, the SQL of a version takes effect between two removals of its record at most once more than there are passes cut between running and recording it, and so at most once more than there are passes in which a call was lost or a database dropped; not at all if it was on record at the start |
| `MigrationSafety.RunSmoothly` | internal/controller/migration_controller.go:257-280 | Where no call is lost and no database is dropped, whatever else others do, the SQL of a version takes effect at most once between two removals of its record |
| `MigrationSafety.RecordsAndRemovals` | internal/controller/migration_controller.go:258-335 | In every run a record comes directly after an execution that found no record, for an object that held its finalizer and had asked for that SQL by then, before it was applied, on a database that had been ready by then; a removal comes directly after a rollback with a non-empty text, for a deleting object whose Database stood for that place |
| `MigrationSafety.LetGoIsUndone` | internal/controller/migration_controller.go:77-96 | In every run an object with a rollback text loses its finalizer only after its own rollback and, directly after it, the removal of its record, at the place its Database stood for; or if there was no such Database in its namespace |
| `MigrationSafety.AppliedIsOnRecord` | internal/controller/migration_controller.go:205-218 | The applied status of a live object rests on a record that was there before the status was stored, for the version it named, on a database that had been ready before; only a dropped database or the rollback of another object with the same version, asked for since the object came to be, can have taken that record away |
| `MigrationSafety.StatusAndServerAgree` | internal/controller/migration_controller.go:262-278 | If, at the place where that record lies, the version means one text, the database has not been dropped since, and no other deleting object has asked for a rollback of that version there since the object came to be, then the version named when the object was applied is on record with the very checksum in the status, and the text ran directly before it was recorded; if the object still names that version and Database, that is the text it asks for now |
| `MigrationSafety.EditsDoNotRun` | internal/controller/migration_controller.go:108-111 | Under every schedule, caches that lag included, whatever ran on behalf of an applied object it had asked for before it was applied: a later edit never runs |
| `MigrationSafety.AppliedIsLeftAlone` | internal/controller/migration_controller.go:108-111 | An undisturbed pass over an applied object leaves the servers alone, so the version it names by now is on record with the checksum in its status exactly if it was so before |
| `MigrationSafety.EditedVersionIsNotOnRecord` | internal/controller/migration_controller.go:108-111 | Concrete input: an applied object edited to name another version stays applied, and that version is not on record |
| `MigrationSafety.AppliedForItsText` | internal/controller/migration_controller.go:257-268 | A pass that applies an object leaves its version on record, with the checksum of its own text exactly if it was not on record before or was so with that checksum; if it was on record, nothing runs |
| `MigrationSafety.RecordOfAnotherText` | internal/controller/migration_controller.go:257-268 | Concrete input: an object that names a version on record for another text becomes applied with the checksum of its own text, which never ran; the record keeps the other one |
| `MigrationSafety.RecordSurvives` | internal/controller/migration_controller.go:77-96 | An undisturbed pass over any object keeps a record exactly if that object is not a deleting one with its finalizer and a rollback text, whose Database is found at home, stands for that very place, can be reached, and which names that very version |
| `MigrationSafety.SharedVersionLosesRecord` | internal/controller/migration_controller.go:325-335 | Concrete run in which sharing a version breaks that agreement: deleting one of two applied objects takes away the record of the other |
| `MigrationSafety.RecordsTellTheText` | internal/controller/migration_controller.go:500-515 | A record holds the checksum of the one text that its version means at that place, and that text ran immediately before |
| `MigrationSafety.AppliedIsForGood` | internal/controller/migration_controller.go:108-111 | Every stored status is coherent, and once applied it never changes again while the object exists: not the phase, the time or the checksum |
| `MigrationSafety.RemovalHasAnotherOwner` | internal/controller/migration_controller.go:77-96 | While an object is live, every removal of its record was made for another object that was being deleted, as it stood since the first one came to be |
| `MigrationLog.AtMostOncePerLapse` | internal/controller/migration_controller.go:257-280 | In a log of the right shape a version runs at most once more than its record lapses, as long as nothing wipes the record |
| `MigrationLog.RecordMeans` | internal/controller/migration_controller.go:460-479 | A version is on record exactly when it was recorded at some point and not wiped since, and the checksum is that of the SQL that ran just before |
| `MigrationLog.RecordStays` | internal/controller/migration_controller.go:258-268 | A record stays with its checksum until it is wiped, and until then the version neither runs nor is recorded again |
| `MigrationLog.LapsesAppend` | internal/controller/migration_controller.go:270-278 | How one more event changes the number of executions without a record |
| `MigrationBooks.OthersAct` | cmd/main.go:128 | Whatever others do between two calls, caches, drops and databases made again included, keeps the shape of every log, the attribution of every event, the evidence behind every applied status and the reason behind every release |
| `MigrationBooks.NotingKeeps` | internal/controller/migration_controller.go:257-280 | A statement keeps all of that if its event fits the log, is warranted by an object that holds its finalizer, and, if it is a rollback, was asked for no earlier than the cache has come |
| `MigrationBooks.StatusKeepsEvidence` | internal/controller/migration_controller.go:205-218 | Writing a status keeps the evidence if what it claims rests on a record |
| `MigrationBooks.ReleaseKeeps` | internal/controller/migration_controller.go:77-96 | Taking the finalizer off keeps all of that if the object has nothing to roll back, was rolled back, or its Database was missing |
| `MigrationController.MigrationReconciler.Reconcile` | internal/controller/migration_controller.go:62-222 | One pass: keeps the invariant under every schedule of faults and interference; if a version ran without being recorded, the pass is not done and a call was lost or that database dropped in it; in a quiet world it leaves objects, servers and result exactly as the pass function says, wherever the reference leads |
| `MigrationController.MigrationReconciler.RunWorker` | internal/controller/migration_controller.go:62-222 | Any sequence of passes keeps the invariant, and where nothing goes wrong none of them is cut |
| `MigrationController.MigrationReconciler.ExecuteAndRecord` | internal/controller/migration_controller.go:270-278 | Runs a version that is not on record and records it; it gets only half way if a call was lost or the database dropped meanwhile, and then it fails and is counted |
| `MigrationController.MigrationReconciler.Execute` | internal/controller/migration_controller.go:482-488 | The SQL runs for an object that holds its finalizer, with no record present, after its database was ready |
| `MigrationController.MigrationReconciler.Record` | internal/controller/migration_controller.go:500-515 | The record is written directly after the execution, with the checksum of what ran; it fails only if a call was lost, the database was dropped, or there was no table |
| `MigrationController.MigrationReconciler.RunOnce` | internal/controller/migration_controller.go:252-280 | Creates the table, skips a version on record, otherwise runs and records it; success means that the version is on record |
| `MigrationController.MigrationReconciler.Apply` | internal/controller/migration_controller.go:225-281 | Success yields the evidence that the applied status rests on; in a quiet world it succeeds exactly if the place can be reached |
| `MigrationController.MigrationReconciler.Rollback` | internal/controller/migration_controller.go:284-338 | Looks for the Database at home only, runs the rollback, removes the record; under every schedule success means that both happened, one directly after the other, or that the Database was missing |
| `MigrationController.MigrationReconciler.RemoveRecord` | internal/controller/migration_controller.go:518-532 | The record is removed only directly after a rollback with a non-empty text |
| `MigrationController.DeletingEnds` | internal/controller/migration_controller.go:77-96 | From whatever state earlier passes were cut in, one undisturbed pass lets a deleting migration go exactly if its rollback text is empty, there is no such Database in its namespace, or that one can be reached and has the table of records; what it adds to the log is a rollback and the removal; otherwise the objects stay and the pass is an error |
| `MigrationController.MigrationReconciler.RetryDeletion` | internal/controller/migration_controller.go:77-96 | Whatever cuts the passes before, once the world is quiet one more pass lets the deleting migration go exactly if nothing keeps it |
| `Endings.MigrationEnds` | internal/controller/migration_controller.go:108-222 | How an undisturbed pass over a live migration ends, case by case: left alone if applied; "Failed", "Waiting" or "Applied" by what is there and can be reached; what is added to the log, the finalizer, and the result |
| `MigrationController.PreparingSettles` | internal/controller/migration_controller.go:113-122 | Storing "Pending" on the way makes no difference to where a pass ends |
| `LeakFreedom.DatabasesHaveOwners` | internal/controller/database_controller.go:74-105 | In every run in which its Datastore is steady, nobody abroad refers to that name and identities are not edited, a database that the controller made or took over exists only while the Database object of that name holds its finalizer and refers to that Datastore, which had been ready before; one that stood at the start counts too once it is made again |
| `LeakFreedom.AccountsHaveOwners` | internal/controller/user_controller.go:77-102 | The same for accounts: some User object holds its finalizer whose user name is that of the account, and, on MySQL and MariaDB, whose host, on that Datastore |
| `LeakFreedom.RolesHaveOwners` | internal/controller/database_role_controller.go:140-180 | The same for roles, with no assumption on edits or namespaces, while the User controller may make roles at any time; those count once this controller creates them too; the only other way is an object that was let go, and then a version of it was deleting whose Datastore was missing or has no Secret, or a call was lost |
| `LeakFreedom.NothingForsaken` | internal/controller/database_role_controller.go:140-180 | Where no call is lost and every Datastore that is named is there with its Secret, no role that the controller made is left behind |
| `LeakFreedom.NothingTakenDownAlive` | internal/controller/database_controller.go:247-289 | In every run what stood at the start, and what the controller made since, is still there unless others took it away or a deleting object named it through a Datastore in its namespace |
| `LeakFreedom.DatabasesStay` | internal/controller/database_controller.go:451-490 | A logical database is gone only if others dropped it, or the Database object named after it was deleting |
| `LeakFreedom.PrivilegesHaveAuthors` | internal/controller/database_role_controller.go:228-245 | Whatever a role has that it did not have at the start, the object it is named after listed, in that scope, as of a version that held its finalizer |
| `LeakFreedom.RoleDatastoreIsFixed` | internal/webhook/database_role_webhook.go:142-144 | In every run of admitted updates a role refers to the same Datastore for as long as it exists |
| `LeakFreedom.LeakFree` | internal/controller/database_controller.go:247-288 | What stands on a server and is not forsaken is answered for by an object that holds its finalizer and still names it |
| `Ownership.LookingUpSettles` | internal/controller/database_controller.go:247-260 | Once the Datastore of a deleting object has been looked up, at most the one thing it names there is left to answer for |
| `Ownership.ReleasingKeeps` | internal/controller/database_controller.go:83-91 | Taking the finalizer off keeps the books if nothing is left to answer for |
| `Ownership.CreatingKeeps` | internal/controller/database_controller.go:96-105 | Creating a thing keeps the books if its object still holds its finalizer |
| `Ownership.OthersKeep` | cmd/main.go:128 | Whatever others do keeps the books |
| `Keeper.Keeper.Hold` | internal/controller/database_controller.go:96-105 | A pass goes on only once the finalizer is stored on a live object; a stale copy that shows it still proves that it is held |
| `Keeper.Keeper.SqlCreate` | internal/controller/database_controller.go:216-244 | A thing is created only on behalf of a live object that holds its finalizer and names it through a ready Datastore that was found, and from then on it is accounted for |
| `Keeper.Keeper.SetStatus` | internal/controller/database_controller.go:201-209 | A status that claims success is written only over the copy that was read, after a ready Datastore was seen and the thing was seen in place |
| `Keeper.Keeper.Forsake` | internal/controller/database_role_controller.go:144-173 | An object is let go without clean-up only with a witness: its Datastore missing from a version of the store, its Secret missing, or a call lost |
| `Keeper.Keeper.Release` | internal/controller/database_controller.go:83-91 | The finalizer goes only once nothing is left to clean up |
| `Keeper.Keeper.LookUp` | internal/controller/database_controller.go:247-260 | Clean-up looks in the namespace of the object only |
| `Api.LiveAhead` | internal/controller/database_controller.go:64-105 | A live object that shows its finalizer at or ahead of the cache holds it to this day |
| `Api.Incarnation` | internal/controller/user_controller.go:105-114 | An incarnation exists without a gap, stays deleted, and moves only lawfully |
| `Api.PutKeeps` | internal/controller/database_controller.go:83-105 | Any write keeps the laws of the store if it keeps deletion marks, moves the status lawfully, and releases only deleting copies that the cache has shown |
| `Api.MovesKeep` | cmd/main.go:128 | Creations, edits and deletions by others keep the laws of the store and every held finalizer |
| `DatabaseController.DatabaseReconciler.Reconcile` | internal/controller/database_controller.go:58-213 | One pass: keeps the invariant under every schedule, and in a quiet world leaves objects, servers and result exactly as the pass function says, wherever the reference leads |
| `DatabaseController.DatabaseReconciler.EnsureDatabase` | internal/controller/database_controller.go:377-448 | The three dialects refine one "ensure exists": success means that the database is there, nothing else is added, and in a quiet world it always succeeds, so a second call changes nothing |
| `DatabaseController.DatabaseReconciler.Cleanup` | internal/controller/database_controller.go:247-289 | A missing Datastore counts as clean; otherwise success means that the database was dropped |
| `DatabaseController.DatabaseReconciler.Drop` | internal/controller/database_controller.go:451-490 | The three dialects of dropping; only SQL Server minds that the database is not there |
| `DatabaseController.DatabaseReconciler.Serve` | internal/controller/database_controller.go:118-200 | Resolves at home or anywhere, waits for readiness, creates; under every schedule it is ready only after a ready Datastore was seen and the database stood on its server |
| `DatabaseController.DeletingEnds` | internal/controller/database_controller.go:74-94 | From whatever state earlier passes were cut in, one undisturbed pass lets a deleting object go, with the database dropped, exactly if it is not blocked: server out of reach or unsupported, or SQL Server without the database; otherwise nothing happens |
| `DatabaseController.DatabaseReconciler.RetryDeletion` | internal/controller/database_controller.go:74-94 | Whatever cuts the passes before, once the world is quiet one more pass lets the deleting object go, with the database dropped, exactly if it is not blocked |
| `DatabaseController.DatabaseReconciler.DiesAfterDrop` | internal/controller/database_controller.go:483-490 | On SQL Server a process that dies between the drop and the release leaves a deleting object that is blocked |
| `DatabaseController.DatabaseReconciler.RetryInVain` | internal/controller/database_controller.go:74-94 | Any number of later undisturbed passes over a blocked object change nothing, and each is an error |
| `Endings.DatabaseEnds` | internal/controller/database_controller.go:118-212 | How an undisturbed pass over a live Database ends, case by case: "Failed", "Waiting" or "Ready" by what is there, can be reached and is of a known type; the first time with the time; nothing but that database is added |
| `DatabaseController.PreparingSettles` | internal/controller/database_controller.go:107-116 | Storing "Creating" on the way makes no difference to where a pass ends |
| `StatusSafety.DatabaseStatuses` | internal/controller/database_controller.go:201-209 | Ready exactly in phase "Ready", only once created, and the creation time is written once |
| `UserController.UserReconciler.Reconcile` | internal/controller/user_controller.go:61-271 | One pass: keeps the invariant under every schedule, and in a quiet world leaves objects, servers and result exactly as the pass function says, wherever the references lead |
| `UserController.UserReconciler.EnsureUser` | internal/controller/user_controller.go:441-576 | The pass adds the executed part of its script to what the servers were told; success means that every grant and membership took effect; in a quiet world it succeeds with the effect of the whole script |
| `UserController.UserReconciler.EnsureMySQL` | internal/controller/user_controller.go:441-502 | Create if missing, grant, create and grant roles, flush; once a role is granted, failing to make it the default is ignored |
| `UserController.UserReconciler.CreateOrAlter` | internal/controller/user_controller.go:505-515 | Create, or else set the password; afterwards the account is there |
| `UserController.UserReconciler.EnsurePostgreSQL` | internal/controller/user_controller.go:505-545 | Create or alter, grant privileges, grant memberships |
| `UserController.UserReconciler.EnsureSQLServer` | internal/controller/user_controller.go:548-576 | Create or alter the login; with a Database, create its user, failing silently, and grant privileges |
| `UserController.UserReconciler.GrantRoles` | internal/controller/user_controller.go:467-489 | The role loop: three statements a role, of which the third may fail |
| `UserController.UserReconciler.GrantPrivileges` | internal/controller/user_controller.go:451-464 | The privilege loop stops at the first failure; success means that every grant took effect |
| `UserController.UserReconciler.Drop` | internal/controller/user_controller.go:579-618 | The three dialects of dropping an account |
| `UserController.UserReconciler.Cleanup` | internal/controller/user_controller.go:311-353 | A missing Datastore counts as clean; otherwise success means that the account was dropped |
| `UserController.UserReconciler.CreateOrUpdate` | internal/controller/user_controller.go:274-308 | Connects before it decodes the password; the script issued is that of the specification at hand; success means that the account is there |
| `UserController.UserReconciler.FindDatabase` | internal/controller/user_controller.go:186-241 | The Database only has to exist; nobody asks whether it is ready |
| `UserController.HeldSince` | internal/controller/user_controller.go:441-502 | In every run an account holds exactly what it held after some pass, if it was there, and what later passes granted, each as far as it got, while none dropped it; where it was not there, exactly what it has been granted since, the pass that created it included; its default role is the last one whose SET succeeded |
| `UserController.GrantsHaveAuthors` | internal/controller/user_controller.go:451-464 | Whatever privilege an account has been granted since some pass, a User that names it listed, as of a version that held its finalizer |
| `UserController.RolesHaveAuthors` | internal/controller/user_controller.go:467-489 | The same for roles |
| `UserController.DropsHaveAuthors` | internal/controller/user_controller.go:311-353 | An account disappears only on behalf of a deleting User that holds its finalizer and names it |
| `UserController.DeletingEnds` | internal/controller/user_controller.go:77-93 | From whatever state earlier passes were cut in, one undisturbed pass lets a deleting object go, with the account dropped, exactly if it is not blocked: server out of reach or unsupported, or SQL Server without the account; otherwise nothing happens |
| `UserController.UserReconciler.RetryDeletion` | internal/controller/user_controller.go:77-93 | Whatever cuts the passes before, once the world is quiet one more pass lets the deleting object go, with the account dropped, exactly if it is not blocked |
| `UserController.UserReconciler.DiesAfterDrop` | internal/controller/user_controller.go:579-618 | On SQL Server a process that dies between the drop and the release leaves a deleting object that is blocked |
| `UserController.UserReconciler.RetryInVain` | internal/controller/user_controller.go:77-93 | Any number of later undisturbed passes over a blocked object change nothing, and each is an error |
| `Endings.UserEnds` | internal/controller/user_controller.go:116-271 | How an undisturbed pass over a live User ends, case by case, missing Databases and passwords that do not decode included: when ready, there is the account of exactly its user name and, on MySQL and MariaDB, its host, with the password where one is set; no other account changes |
| `UserController.AccountsAreShared` | internal/controller/user_controller.go:441-545 | Two users of one server stand for one account exactly if they have the same user name and, on MySQL and MariaDB, the same host |
| `Convergence.SharingMeans` | internal/controller/user_controller.go:441-545 | Two users share an account exactly if they name one Datastore in one namespace, have the same user name and, on MySQL and MariaDB, the same host |
| `UserController.PreparingSettles` | internal/controller/user_controller.go:105-114 | Storing "Creating" on the way makes no difference to where a pass ends |
| `Grants.Accumulation` | internal/controller/user_controller.go:441-502 | Over any sequence of passes with changing specifications, each cut anywhere, from the one that creates the account on, grants and memberships are the union of what took effect |
| `Grants.PassAdds` | internal/controller/user_controller.go:441-502 | One pass, cut anywhere, whether or not the account was there, adds exactly the statements that took effect |
| `Idempotence.CompletePass` | internal/controller/user_controller.go:441-502 | A complete pass from any partial state gives what a clean pass gives on a server without the account, on top of what was there |
| `Grants.ThoroughIsAll` | internal/controller/user_controller.go:505-515 | Leaving out statements that would change nothing leads to the same servers as the whole script |
| `StatusSafety.UserStatuses` | internal/controller/user_controller.go:244-267 | Ready implies created implies a time; created never reverts; the time is written once |
| `RoleController.RoleReconciler.Reconcile` | internal/controller/database_role_controller.go:51-137 | One pass: keeps the invariant under every schedule; whatever it forsakes, it forsakes for a reason that came up in that pass; in a quiet world it leaves objects, servers and result exactly as the pass function says, on every engine |
| `RoleController.RoleReconciler.Cleanup` | internal/controller/database_role_controller.go:140-180 | Under every schedule success means that the role was dropped, or that the Datastore or its Secret could not be read in this pass, with the reason: then nothing was sent to the server, and a lost call was that very read; in a quiet world it succeeds exactly if the drop does or they cannot be read |
| `RoleController.RoleReconciler.EnsureRole` | internal/controller/database_role_controller.go:183-253 | Success means that the role is there with every listed privilege, on every engine and under every schedule; in a quiet world it succeeds exactly if the role can be made or the controller can tell that it exists |
| `RoleController.RoleReconciler.GrantAll` | internal/controller/database_role_controller.go:228-245 | The grant loop: success means that the role holds exactly what it held and what is listed |
| `RoleController.RoleReconciler.Drop` | internal/controller/database_role_controller.go:326-376 | The three dialects of dropping a role; failing to flush is only logged |
| `RoleController.RoleReconciler.Serve` | internal/controller/database_role_controller.go:82-136 | Datastore and Database are looked up at home only and must be ready; under every schedule it is ready only after the role stood on its server |
| `RoleController.DeletingEnds` | internal/controller/database_role_controller.go:140-180 | From whatever state earlier passes were cut in, one undisturbed pass lets a deleting role go exactly if its Datastore or Secret is missing, or the server can be reached and is of a type spelled mysql, mariadb, postgresql, or sqlserver with the role still there; then only that role is gone; otherwise nothing changes and the pass is an error |
| `RoleController.RoleReconciler.RetryDeletion` | internal/controller/database_role_controller.go:140-180 | Whatever cuts the passes before, once the world is quiet one more pass lets the deleting role go exactly if nothing keeps it |
| `Endings.RoleEnds` | internal/controller/database_role_controller.go:70-136 | How an undisturbed pass over a live role ends, case by case: the finalizer first; "Failed", "Pending" or "Ready" by what is there, ready, can be reached and is spelled as this controller knows it; only that role changes, and has what it had and what is listed |
| `Endings.PostgresRolesAreStuck` | internal/controller/database_role_controller.go:207-216 | On a Datastore of type "postgres", the only spelling that admission lets through, a role never becomes ready, and is never let go while Datastore and Secret are there |
| `RoleController.ContainsString` | internal/controller/database_role_controller.go:402-409 | True exactly for members |
| `RoleController.RemoveString` | internal/controller/database_role_controller.go:412-420 | Removes every occurrence and keeps the order of the rest |
| `StatusSafety.RoleStatuses` | internal/controller/database_role_controller.go:379-391 | Ready exactly in phase "Ready", and exactly when created |
| `RoleWebhook.ValidateUpdate` | internal/webhook/database_role_webhook.go:99-151 | One error for each check that fails, at its field and in the order of the checks, so none exactly if every check holds; what is admitted keeps its Datastore (the outcomes of the name, privilege and existence checks are given) |
| `RoleWebhook.UsersInOrder` | internal/webhook/database_role_webhook.go:310-327 | Users are found in the order in which they are listed, each once |
| `RoleWebhook.FindUsersUsingRole` | internal/webhook/database_role_webhook.go:310-327 | The names of the users that list the role, in order, each user once |
| `DatastoreController.DatastoreReconciler.Reconcile` | internal/controller/datastore_controller.go:132-276 | One pass: keeps the invariant under every schedule, and in a quiet world leaves objects and result exactly as the pass function says, wherever the reference to the Secret leads |
| `DatastoreController.DatastoreReconciler.Try` | internal/controller/datastore_controller.go:154-250 | Ready only if a Secret of the right name has the password and a server accepts the connection string |
| `DatastoreController.ReadyExactly` | internal/controller/datastore_controller.go:222-269 | After an undisturbed pass a Datastore is ready exactly if the Secret its reference leads to has a value under the key that is named ("password" if none is), the type is known, and a server accepts the string with that value; otherwise "Failed"; nothing else changes |
| `DatastoreController.RolesTryTheSame` | internal/controller/database_role_controller.go:187-197 | The role controller takes the key as it is written: it tries the string that an admitted Datastore was opened with exactly if a key is named or the password is empty |
| `DatastoreController.SecretNamed` | internal/controller/datastore_controller.go:183-196 | The scan finds a Secret of the wanted name if there is one |
| `DatastoreController.ReadyWasOpened` | internal/controller/datastore_controller.go:250-269 | Whatever is ready at some version of a run had been opened by then: the Secret it asked for has a value under the key it names, and a server accepts the string with that value |
| `StatusSafety.ReadyFollowsDatastore` | internal/controller/database_controller.go:175-206 | Whatever Database, User or role is ready at some version of a run had by then named a Datastore that had been ready by then, and what it asked for there had stood on the server by then |
| `Cluster.Cluster.ResolveDatastore` | internal/controller/database_controller.go:118-172 | A reference resolves at home if it can, otherwise to an object of that name elsewhere; missing only if there is none |
| `Cluster.FirstNamed` | internal/controller/database_controller.go:140-147 | The first listed object of the wanted name: no earlier one has it |
| `Cluster.Cluster.Update` | internal/controller/database_controller.go:83-105 | A write is refused unless the copy is current; it may be lost, or take effect and look lost |
| `Cluster.Cluster.UpdateStatus` | internal/controller/database_controller.go:201-209 | The same for the status |
| `Cluster.Cluster.Exec` | internal/controller/migration_controller.go:454-456 | A statement may be lost, be refused, or take effect and look lost |
| `Convergence.ThreeSweeps` | internal/controller/migration_controller.go:108-222 | Without faults, any three sweeps over resources whose references resolve at home and whose connections are accepted, in any order, make every Datastore, Database, User and role ready (roles on MySQL, or where the controller can tell that one exists) and every Migration applied, with every account and role holding all that is listed for it, and every version on record if those applied to begin with were |
| `Convergence.ThenNothingChanges` | internal/controller/user_controller.go:172-271 | After three sweeps nothing changes any more, on the servers or in the store, but the times on roles, exactly if users that share an account agree on its password, or, on MySQL, on the last role listed |
| `Convergence.SharedAccountNeverSettles` | internal/controller/user_controller.go:505-515 | Two PostgreSQL users of one login with different passwords: both become ready, and some later visit always changes the password again |
| `Convergence.NothingChanges` | internal/controller/migration_controller.go:108-111 | Once everything is ready, and users that share an account agree, no run of visits changes anything but the times on roles |
| `Convergence.SweepReaches` | internal/controller/database_role_controller.go:70-136 | One sweep reaches the next stage for everything it visits and loses nothing that was reached |
| `Convergence.KeepsReached` | internal/controller/database_controller.go:174-212 | No visit, of whatever resource, takes back what another has reached |
| `Convergence.VisitReaches` | internal/controller/datastore_controller.go:132-276 | A visit reaches what the resource was waiting for once everything before it in the chain has been reached |
| `Idempotence.NextPassIsIdle` | internal/controller/user_controller.go:441-576 | A pass over a user that has everything changes nothing at all, default role included |
| `Idempotence.CompletePassHasAll` | internal/controller/user_controller.go:441-576 | A complete pass, from any state, leaves the user with everything |
| `Idempotence.OthersSpared` | internal/controller/user_controller.go:441-576 | A pass over one user leaves other accounts and existing roles alone |
| `Idempotence.HasAllMeans` | internal/controller/user_controller.go:441-576 | A user has all it asks for exactly if all it lists is there, the password is its own but on MySQL, and the default role is its last one on MySQL |
| `Base64.SymbolsAreThoseOfTheTable` | internal/controller/user_controller.go:292-295 | The symbols are those of table 1 of RFC 4648, at their places |
| `Base64.FourSymbols` | internal/controller/user_controller.go:292-295 | Four symbols decode to the three bytes of the same number, written with the digits of the table; behind padding, what is too small for a byte is dropped |
| `Base64.LineEndsAreSkipped` | internal/controller/user_controller.go:292-295 | The decoder passes over line ends wherever they stand |
| `Base64.AdmittedMeans` | internal/webhook/user_webhook.go:178-197 | Admitted exactly if there are at least four characters, all symbols but for at most two signs of padding at the end |
| `Base64.EncodedPasswordsPass` | internal/webhook/user_webhook.go:178-197 | Every non-empty byte string, once encoded (section 4 of RFC 4648), passes the gate and decodes to itself |
| `Base64.AdmittedDecodes` | internal/controller/user_controller.go:292-295 | An admitted string decodes exactly when its length is a multiple of four |
| `Base64.GateIsTooWide` | internal/webhook/user_webhook.go:184-189 | An admitted string that does not decode |
| `Base64.CanonicalPasswordsDiffer` | internal/controller/user_controller.go:292-295 | Two admitted strings with clear unused bits stand for the same password exactly when they are equal |
| `ConnectionStrings.Unambiguous` | internal/controller/datastore_controller.go:59-94 | Within an engine, for any password, over admitted names, hosts, ports, SSL modes and instances and user names without a colon, two connection strings are equal exactly when everything the engine looks at is, up to the SSL default |
| `ConnectionStrings.ReadsBack` | internal/controller/datastore_controller.go:59-94 | With or without colons, two admitted strings of an engine are equal exactly when everything the engine looks at is, of the credentials only user:password as one text |
| `ConnectionStrings.ColonIsAmbiguous` | internal/controller/datastore_controller.go:66 | Admitted credentials share their connection string with others exactly if user:password has a colon past its first character other than the one behind the user name |
| `ConnectionStrings.BuildersAgree` | internal/controller/database_controller.go:305-344 | For matching data the two builders agree exactly on MySQL, on PostgreSQL unless the port is 3306, on SQL Server unless the port is 3306 or an instance is named |
| `ConnectionStrings.MissingPort` | internal/controller/database_controller.go:315-341 | A Secret without a port gives the string of port 3306 on MySQL, 5432 on PostgreSQL and 1433 on SQL Server, as a specification with port 0 does |
| `ConnectionStrings.MissingPortAndInstance` | internal/controller/database_controller.go:332-341 | With an instance and no port a SQL Server gets 1433 and the instance without a slash |
| `ConnectionStrings.UnknownType` | internal/controller/datastore_controller.go:90-93 | For any other type both builders give the user name and the name |
| `ConnectionStrings.ConcreteMySQL` | internal/controller/datastore_controller.go:61-66 | What both builders give for concrete data, character by character |
| `ConnectionStrings.ConcretePostgreSQL` | internal/controller/datastore_controller.go:68-77 | The same on PostgreSQL |
| `ConnectionStrings.ConcreteSQLServer` | internal/controller/datastore_controller.go:79-88 | The same on SQL Server, for the builder from the specification |
| `ConnectionStrings.ConcreteSQLServerFromSecret` | internal/controller/database_controller.go:332-341 | The same on SQL Server, for the builder from the Secret |
| `ConnectionStrings.DecimalInjective` | internal/controller/datastore_controller.go:66 | Ports read back from their decimal form |
| `DeepCopy.UserList.DeepCopy` | api/v1/zz_generated.deepcopy.go:453-464 | A copy of a list has equal items, tells an absent slice from an empty one, and all its slices and pointers are fresh and pairwise disjoint |
| `DeepCopy.User.DeepCopyInto` | api/v1/zz_generated.deepcopy.go:485-503 | Equal contents, absent kept apart from empty, nothing shared |
| `DeepCopy.WritesToTheCopyStayThere` | api/v1/zz_generated.deepcopy.go:453-464 | Whatever is written to a copy, the original keeps its value |
| `DeepCopy.RoleList.DeepCopy` | api/v1/zz_generated.deepcopy.go:115-136 | The same for lists of roles |
| `DeepCopy.Role.DeepCopyInto` | api/v1/zz_generated.deepcopy.go:88-94 | Equal contents, absent kept apart from empty, nothing shared |
| `DeepCopy.WritesToTheRolesStayThere` | api/v1/zz_generated.deepcopy.go:115-136 | Whatever is written to a copy of a list of roles, the original keeps its value |

## Left out

- SQL text, drivers and the network: a statement is its effect and its possible failure. The SQL of a
  migration is taken to be acceptable unless the call is lost.
- PostgreSQL and SQL Server migrations: the placeholders and the table definition they use depend on
  drivers that are not part of this model, so their statements are modelled as on MySQL.
- UserController.UserReconciler.EnsurePostgreSQL: a role granted to a PostgreSQL user is taken to exist, because predefined roles and login roles are not part of the state, and so is the database that a privilege is granted on; on MySQL the role is created just before, and a grant needs no database.
- UserController.UserReconciler.EnsureUser: the same; a PostgreSQL pass over a user whose Database lies on another Datastore, or is not made yet, fails in the original and succeeds here.
- UserController.HeldSince: memberships that end when a MySQL role is dropped, because the role controller is outside the world of the User controller.
- RoleWebhook.ValidateUpdate: whether names, privileges and references pass their checks is given, because those are membership checks in fixed tables; what is stated is how the outcomes combine.
- UserController.UserReconciler.EnsureSQLServer: the database user that SQL Server keeps beside the login is not part of the state.
- SHA-256: the checksum is any function of the text.
- Which of several equally named objects in other namespaces a reference resolves to is left to the order of the listing.
- Clock values and delays: only whether a time is set, and whether a pass is to be repeated.
- Admission of the controllers' own metadata writes, and webhooks other than those named above; reserved names and privilege tables.
- validateHostFormat and validateNamingConventions of users: membership checks that would only add easy members.
- Object metadata and times in deep copies are library code.
- More than one worker or replica, leader election and manager wiring.
- Webhook ValidateDelete: its verb is not registered, so it gates nothing.
