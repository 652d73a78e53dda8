# sunbeam-migrate: the migration manager, verified

sunbeam-migrate moves resources from one OpenStack cloud to another. Its manager walks a graph: a
resource's *dependencies* are migrated before it, its *members* after it, and a table of migrations is
the only memory between calls. A resource is white (no visible row, or the newest one FAILED), grey
(newest row IN_PROGRESS) or black (newest row in one of the four migrated statuses). Exceptions travel
up dependency chains and stop at member loops. Deleting the source copy is layered on top.

This project models that manager, the table, the four handlers that copy references (port, router,
user, load balancer) and the commands `start`, `start-batch`, `cleanup-source` and `register-external`,
and proves what a sequence of such commands does and does not do.

## How it is built

- `Store` (rows, visibility, newest row, queries), `World` (the frozen, finite resource graph and the
  oracle that decides which handler calls raise and which ids they return; it may depend on all calls
  made before).
- `Orchestration` and `Commands` say what the manager and the commands compute, as functions from state
  to state. They terminate on every finite graph, cyclic ones included: each nested call is made with
  fewer white resources, because nothing the manager does makes a settled resource white again.
- `Manager` is the program itself: classes for the table, the handlers and the manager, with the loops,
  early returns and row writes of the source, each method proved equal to its specification.
- `Steps` is a transition system of single guarded writes and handler calls; every command refines it,
  whether it returns or raises. `Safety` proves invariants of the steps, hence of all runs.
- `Reach`: how far a start gets on any graph, with any handlers. `DryRun`, `DryCalls`, `Parts`, `Closure`,
  `Returns`, `Reruns`, `Histories`: what a start migrates, when it returns, how the dry run relates to it, and
  what starting a migrated resource again does. `Catalogue`: the same on the graph of a cloud, from the types
  the handlers report. `Containment`, `Blame`, `Members`, `Connections`, `Batches`, `Cleanups`, `Deletions`,
  `Archive`, `External`: failures, cleanup, the connect step, batches, cleanup-source, the scope of source
  deletion, archived rows, declared copies. `Examples`: concrete inputs.
- `Base`, `Destination`, `Port`, `Router`, `User`, `LoadBalancer`, `LoadBalancerTree`, `Reports`: the handlers,
  against a destination cloud that accepts or refuses requests. `GraphImage` joins them with the manager,
  `CloudImage` with the manager and the cloud.

Two words recur. A dependency cycle *traps* the resources on it and those that depend on them. A start is
*entangled* if it may come to a resource that depends on one whose own dependencies are still being
migrated: nested starts lead from its root to a resource that goes on to one of its dependencies, and from
there to something that depends on it, where no nested start is of a resource that an outer one has come to
or dealt with before. A network and its subnets name each other, and so do a domain, its projects and their
users; but no start on them is entangled, so the results on what a start migrates apply to them.

Absent strings (ids, references) are the empty string. A raised exception is an `Err`, and the state it
leaves is part of the outcome. `AskDeps`, `AskMembers`, `Create`, `Connect` and `DeleteSource` are the
handler calls in the trace; `Declare` is the operator's statement, through `register-external`, that a
copy exists.

## What does not hold

The code is kept as it is; these are proved of it.

- The dry run marks nothing, so it never ends on a network and its subnet, which name each other, while
  the start does (`Returns.DryRunNeverReturnsOnNetwork`, `Returns.StartReturnsOnNetwork`). It returns
  exactly when no cycle of unmigrated resources is in the way (`DryRun.DryRunReturnsIff`).
- Members that were migrated are not all connected to their parent. A member is handed to the connect step
  exactly when it is unsettled at its turn and its start returns (`Members.ListedIff`). Told from the state
  the start begins in: exactly when it is unsettled and no path through unsettled resources leads to it
  from a dependency of the parent or a member listed earlier (`Connections.ConnectedIff`). So a router's
  second subnet on a network is left out (`Connections.SecondSubnetIsNotConnected`).
- A start does not migrate all that its root leads to, even if it returns: a role of a domain leads to the
  users below the domain, and those that have the role are left unmigrated. On the graph of a cloud it creates
  exactly what is reachable, if and only if its root is not a role that something reachable has
  (`Catalogue.StartMigratesCloudIff`, `Catalogue.TenantStarts`); on any graph it does unless it is entangled
  (`Closure.StartMigratesReachable`), and never migrates a dependent of its root that the members of the root
  do not lead to (`Closure.DependentsLeftOut`).
- Without --include-dependencies the dry run announces a resource whatever its dependencies are; the start
  returns exactly when all of them are migrated and have destination ids (`Returns.BareStartReturnsIff`,
  `Returns.SampleSubnet`).
- A failed source cleanup is forgotten by the next start, exactly when that start does not clean up or
  cannot list the members (`Containment.FailedCleanupRememberedIff`, `Examples.FailedCleanupIsForgotten`);
  `cleanup-source` never picks such a row up (`Blame.CleanupSourceMarksExactly`).
- A failed member does not keep its parent's source: its deletion is tried exactly when the parent's copy
  was created and its members could be listed (`Blame.RootDeletionIff`, `Examples.FailedMemberLosesParent`).
- The parent stays PENDING_CLEANUP, its source gone, exactly when that of a flagged dependency cannot be
  deleted and its own can (`Blame.StartCleanupStatusIff`, `Examples.FailedDependencyCleanupShows`).
- The batch skips an id that any type of resource completed (`Batches.SkippedMeaning`,
  `Batches.OtherTypeHidesResource`). It has migrated the resource of its own type exactly when it did not
  skip the id, or that resource was migrated already (`Batches.BatchMigratesIff`).
- Asking for archived rows without including them gives the visible ones
  (`Archive.ArchivedFilterIsOverwritten`, `Archive.ArchivedFilterHeldIff`).
- Restoring undoes a soft deletion exactly when nothing it matches was archived before
  (`Archive.RestoreUndoesDeleteIff`).
- A port without a network, or without a group list, and a router gateway with subnets but no network
  cannot be copied (`Port.PortIsImageIff`, `Router.RouterIsImageIff`). The port handler reports no
  network for the first, the router handler no subnets for the last.
- Declaring an earlier copy again is ignored while a later one is in use
  (`External.GoingBackIsIgnored`, `External.DeclarationTakesEffectIff`).
- Role assignments stop at the first one whose scope is neither the default project nor the own domain
  (`User.UserIsImage`, `User.AllAssignmentsIff`).
- A load balancer is relabelled faithfully exactly when no two listeners share a pool
  (`LoadBalancerTree.RelabelledIffNoSharedPools`).

## Model

| member | source | states |
|---|---|---|
| Store.NewestBelow | sunbeam_migrate/db/api.py:41-49 | the result is the highest visible row of the resource, and there is none exactly when no visible row exists |
| Store.SelectBelow | sunbeam_migrate/db/api.py:44-49 | a query returns exactly the rows that match, newest first |
| Store.QueryFindsNewest | sunbeam_migrate/manager.py:109-113 | the first row the manager's query returns is the newest visible row of that type and id |
| Store.QueryIff | sunbeam_migrate/db/api.py:32-49 | a query returns a row exactly when every column the filter restricts holds the wanted value; archived rows are among the results only on request |
| Store.NewestDependsOnShown | sunbeam_migrate/db/api.py:41-49 | tables that show the same rows of a resource agree on its newest row |
| World.NewestAfterInsert | sunbeam_migrate/manager.py:126-134 | a new row becomes the newest of its own resource and of no other |
| World.NewestAfterUpdate | sunbeam_migrate/db/models.py:25-34 | saving a row again never changes which row is newest |
| Orchestration.AskAssociated | sunbeam_migrate/manager.py:310-336 | asking for dependencies writes no row |
| Orchestration.CleanupAll | sunbeam_migrate/manager.py:83-86 | cleaning up touches the listed rows only, keeps them migrated copies, and changes no newest row |
| Orchestration.DepLoop | sunbeam_migrate/manager.py:155-207 | the dependency loop leaves every old row and settled resource alone, returning or raising, and lists only rows it created |
| Orchestration.Resolve | sunbeam_migrate/manager.py:126-219 | up to the create call only rows of other resources are added |
| Orchestration.TryMigrate | sunbeam_migrate/manager.py:126-241 | the new row stays the newest of its resource; it is FAILED and otherwise untouched on any exception, and else still IN_PROGRESS with only its destination id set |
| Orchestration.MemberLoop | sunbeam_migrate/manager.py:254-308 | the member loop leaves every old row and settled resource alone |
| Orchestration.MemberPhase | sunbeam_migrate/manager.py:59-77 | so does the whole member phase |
| Orchestration.Finish | sunbeam_migrate/manager.py:56-94 | from PENDING_MEMBERS on, of the old rows only those to be cleaned up and the own one are written, and they stay migrated |
| Orchestration.Perform | sunbeam_migrate/manager.py:24-94 | a start writes no old row but the own one of a migrated resource, un-settles nothing, and when it returns its row is the newest of the resource and migrated |
| Orchestration.FrameShrinksWhite | sunbeam_migrate/manager.py:155-194 | what is settled stays settled, so the set of resources still to migrate never grows |
| Orchestration.NestedFrame | sunbeam_migrate/manager.py:254-306 | a nested call, whether it returns or raises, leaves no more resources to migrate than there were |
| Orchestration.InsertShrinksWhite | sunbeam_migrate/manager.py:126-134 | the IN_PROGRESS row strictly shrinks the set of resources to migrate |
| Manager.Database.GetMigrations | sunbeam_migrate/db/api.py:32-49 | the query on the table object returns the specified rows in the specified order |
| Manager.Database.Save | sunbeam_migrate/db/models.py:25-34 | replaces exactly one row |
| Manager.Database.DeleteMigrations | sunbeam_migrate/db/api.py:53-62 | no row goes away, those that match are archived and otherwise kept; a later query without archived rows gives what it gave before, in order, less the rows that matched |
| Manager.Database.RestoreMigrations | sunbeam_migrate/db/api.py:68-75 | no row goes away, archived ones that match are shown again; a later query gives what it gave before and exactly the archived rows that match both |
| Manager.MigrationManager.Existing | sunbeam_migrate/manager.py:109-113 | finds the newest visible row of a resource |
| Manager.MigrationManager.GetAssociatedResources | sunbeam_migrate/manager.py:310-336 | the loop splits the reported dependencies in order, or raises at the first migrated one without ids |
| Manager.MigrationManager.CleanupMigrationSource | sunbeam_migrate/manager.py:373-392 | deletes the source and marks the row, or marks it SOURCE_CLEANUP_FAILED and raises |
| Manager.MigrationManager.MigrateDependencies | sunbeam_migrate/manager.py:153-207 | the loop of dependencies has the specified effect and collects the flagged rows in order |
| Manager.MigrationManager.TryToMigrate | sunbeam_migrate/manager.py:137-226 | the try block ends in the specified state with the specified exception |
| Manager.MigrationManager.MigrateParentResource | sunbeam_migrate/manager.py:96-241 | reuses a migrated row unchanged; otherwise has exactly the effect of TryMigrate |
| Manager.MigrationManager.MigrateMemberResources | sunbeam_migrate/manager.py:243-308 | the loop of members has the specified effect and collects the migrated ones in order |
| Manager.MigrationManager.PerformIndividualMigration | sunbeam_migrate/manager.py:24-94 | table, calls and result are those of Perform |
| Manager.MigrationManager.FinishMigration | sunbeam_migrate/manager.py:56-94 | the same from PENDING_MEMBERS on |
| Manager.MigrationManager.PerformBatchMigration | sunbeam_migrate/manager.py:338-371 | table, calls and result are those of the batch specification, with and without dry run |
| Manager.MigrationManager.DryRun | sunbeam_migrate/manager.py:407-482 | calls and result are those of the dry-run specification; the table is not written |
| Manager.MigrationManager.CleanupMigrationSources | sunbeam_migrate/cmd/cleanup_source.py:25-65 | table, calls and result are those of CleanupSource |
| Manager.MigrationManager.RegisterExternally | sunbeam_migrate/cmd/register_external.py:41-69 | table, calls and result are those of RegisterExternal |
| Steps.PerformReaches | sunbeam_migrate/manager.py:24-308 | a start, however it ends, is a sequence of single guarded writes and calls |
| Steps.ResolveReady | sunbeam_migrate/manager.py:138-226 | when the handler is called all its dependencies are migrated and the list it is given is the complete one |
| Commands.RunReaches | sunbeam_migrate/manager.py:338-392 | so is every run of commands; only register-external takes the step that declares a copy |
| Safety.SplitTranslates | sunbeam_migrate/manager.py:321-336 | with nothing pending the list has one entry per reported dependency, in order, with its recorded destination id |
| Safety.DoneNext | sunbeam_migrate/constants.py:14-19 | only a successful create or a declaration makes a resource migrated, nothing undoes it, and no step of the manager changes its destination id |
| Safety.StepWritesLegally | sunbeam_migrate/manager.py:56-233 | IN_PROGRESS goes only to FAILED or, with the id set, PENDING_MEMBERS; FAILED rows are never written; migrated rows stay migrated |
| Safety.RunKeepsRows | sunbeam_migrate/manager.py:56-233 | over any run every row keeps its key and its destination id once set, and only moves along the status relation |
| Safety.NoSourceLost | sunbeam_migrate/manager.py:79-86 | from an empty database, over any run: each source deletion comes after a copy was created or declared, and a row with its source removed is migrated and names that copy |
| Safety.ExternalIffDeclared | sunbeam_migrate/cmd/register_external.py:58-69 | over any run from an empty database: a row names a copy exactly when its status says that there is one, which a create call of its resource returned or, exactly for the external rows, a declaration named |
| Safety.CreatesAreAskedFor | sunbeam_migrate/manager.py:138-226 | over any run the call right before a create call asked, successfully, for the dependencies of the same resource, so the list handed over is up to date |
| Safety.RunRecordsTruly | sunbeam_migrate/manager.py:24-392 | over any run every recorded call has the outcome, and every create the id, that the handler gives it after the calls before |
| Safety.AtMostOnce | sunbeam_migrate/manager.py:109-122 | over any run a resource migrated at the start is never created again and any other at most once, and what was created stays migrated |
| Safety.DestinationIsImage | sunbeam_migrate/manager.py:211-228 | over any run each create call was given, position by position, the ids its dependencies still have; each dependency was migrated before; the id returned is the one recorded |
| Safety.CycleNeverMigrates | sunbeam_migrate/manager.py:209-219 | no resource on a cycle of unmigrated dependencies is ever migrated by any run without register-external |
| Safety.StartOnCycleRaises | sunbeam_migrate/manager.py:147-233 | a start on such a resource raises and leaves its new row FAILED |
| Safety.StartSettlesNewRow | sunbeam_migrate/manager.py:126-241 | a start on an unmigrated resource leaves its new row the newest: FAILED with the start raising, or migrated |
| Safety.StartRefused | sunbeam_migrate/manager.py:44-47 | a start on a resource without an id, or of a type that is not registered, raises and does nothing |
| DryRun.Dry | sunbeam_migrate/manager.py:407-482 | the dry run leaves the table as it is |
| DryCalls.DryLists | sunbeam_migrate/manager.py:441-479 | on any graph, with any handlers: the dry run makes only listing calls, those its flags ask for; it ends at the first that raises, and one that returns made the listing calls for all it announces |
| DryRun.DryMeaning | sunbeam_migrate/manager.py:441-479 | the dry run of a resource returns exactly when those it goes on to do, and announces it and what they announce |
| DryRun.MoreFuel | sunbeam_migrate/manager.py:407-482 | a dry run that returns does so under any larger recursion limit |
| DryRun.AnnouncedIffReachable | sunbeam_migrate/manager.py:441-479 | it announces exactly the resources reachable through unmigrated ones |
| DryRun.StuckNeverReturns | sunbeam_migrate/manager.py:441-479 | on a cycle of unmigrated resources it exhausts any recursion limit |
| DryRun.DryRunReturnsIff | sunbeam_migrate/manager.py:407-482 | it returns exactly when its root is in no such cycle nor leads into one |
| Reach.StartWithin | sunbeam_migrate/manager.py:153-308 | on any graph, with any handlers: once its own row is in, a start adds rows and makes create and connect calls only for itself and for resources reached from its dependencies and members through unsettled ones |
| Reach.StartStaysInReach | sunbeam_migrate/manager.py:153-308 | so each new row and create call is for a resource reachable from the root through unmigrated ones |
| Reach.UnreachedStays | sunbeam_migrate/manager.py:155-306 | a resource out of reach keeps its newest row |
| Closure.DryRunPredictsStart | sunbeam_migrate/manager.py:24-241 | if the dry run returns, handlers do not raise and nothing announced is in progress, the start returns, creates exactly what was announced, each once and after its dependencies, and adds rows for nothing else |
| Closure.StartMigratesReachable | sunbeam_migrate/manager.py:96-308 | on cyclic graphs too: with calm handlers a start that is not entangled returns and creates exactly the resources reachable through unmigrated ones, each once and after its dependencies |
| Closure.DependentsWait | sunbeam_migrate/manager.py:137-219 | on any graph, with any handlers: while the dependencies of a resource are being migrated nothing that depends on it is |
| Closure.DependentsLeftOut | sunbeam_migrate/manager.py:137-219 | so a start migrates a resource that depends on its root only if members of the root lead to it |
| Closure.StartMigratesDependencies | sunbeam_migrate/manager.py:153-219 | on any graph, with any handlers: when a start returns, all that its root depends on, however indirectly, is migrated |
| Closure.ReturningIsNotEntangled | sunbeam_migrate/manager.py:441-479 | a start whose dry run returns is not entangled |
| Parts.PerformGood | sunbeam_migrate/manager.py:24-94 | a start nested in one that is not entangled returns and migrates only resources of the part it is in, with all they lead to as far as that is not in progress |
| Returns.StartReturnsIff | sunbeam_migrate/manager.py:147-233 | with calm handlers a start, with or without members, returns exactly when no dependency cycle traps its root |
| Returns.BareStartReturnsIff | sunbeam_migrate/manager.py:138-151 | without --include-dependencies a start with calm handlers returns exactly when all dependencies are migrated and have destination ids |
| Returns.BareDryRunReturns | sunbeam_migrate/manager.py:441-479 | the dry run without flags announces the resource whatever its dependencies are |
| Returns.SampleSubnet | sunbeam_migrate/manager.py:138-151 | a concrete subnet that the dry run announces and whose start raises |
| Returns.DryRunNeverReturnsOnNetwork | sunbeam_migrate/handlers/neutron/network.py:54-67 | a network and any subnet of it exhaust any recursion limit of the dry run |
| Returns.NetworkIsSturdy | sunbeam_migrate/handlers/neutron/subnet.py:34-48 | a start on a network is not entangled if none of the owners it and its subnets report is |
| Returns.StartReturnsOnNetwork | sunbeam_migrate/handlers/neutron/subnet.py:34-48 | on the same graph, with any number of subnets and in multi-tenant mode, the start returns and migrates the network with all its subnets |
| Returns.SampleNetwork | sunbeam_migrate/handlers/neutron/network.py:54-67 | a concrete network with two subnets where both are seen |
| Histories.HistoriesAreSane | sunbeam_migrate/manager.py:137-233 | from an empty database, over any run: between commands nothing is in progress and every migrated resource has a destination id |
| Histories.StartReturnsUnlessTrapped | sunbeam_migrate/manager.py:24-94 | so after any run a start returns exactly when no dependency cycle traps its root |
| Histories.StartMigratesClosure | sunbeam_migrate/manager.py:96-308 | and if it is not entangled it creates exactly what is reachable through unmigrated resources |
| Histories.RaisingStartIsExplained | sunbeam_migrate/manager.py:147-233 | and if it raises, it does so in its cleanup, or a path of FAILED dependencies leads to a resource that was refused, whose handler call failed, whose dependencies were not included, or that depends on one of the path |
| Catalogue.OnlyRolesEntangle | sunbeam_migrate/handlers/keystone/domain.py:35-57 | on a graph whose handlers report the types they declare no start is entangled but that of a role: projects, users and roles in multi-tenant mode included |
| Catalogue.StartMigratesCloudIff | sunbeam_migrate/handlers/keystone/role.py:33-47 | there a start with calm handlers returns and creates exactly what is reachable through unmigrated resources, if and only if its root is not a role that something reachable has |
| Catalogue.StartAfterRunIff | sunbeam_migrate/handlers/keystone/user.py:36-63 | the same after any run from an empty database |
| Catalogue.RerunAfterRun | sunbeam_migrate/manager.py:56-66 | and a start on a resource already migrated creates exactly what is reachable from its unmigrated members |
| Catalogue.StartIsSmooth | sunbeam_migrate/handlers/keystone/project.py:35-73 | so after any run the results on connected members apply to every start with members on a resource that is no role |
| Catalogue.TenantStarts | sunbeam_migrate/handlers/keystone/role.py:33-47 | a concrete domain with project, user, role, network and subnet: a start on the network migrates them all, one on the role leaves out the user |
| Containment.PerformSettles | sunbeam_migrate/manager.py:137-233 | when a start returns or raises no row it created is IN_PROGRESS |
| Containment.StartLeavesNoneBusy | sunbeam_migrate/manager.py:229-233 | and no resource is newly in progress |
| Containment.OutcomeIgnoresMembers | sunbeam_migrate/manager.py:289-306 | without cleanup a start raises exactly when its own migration or its member listing does; failed members change nothing |
| Containment.DependencyFailureShows | sunbeam_migrate/manager.py:189-194 | a dependency loop that raises does so for a dependency that was refused, is FAILED, or was migrated and could not list its members |
| Containment.RerunOnlyCompletes | sunbeam_migrate/manager.py:109-122 | starting a migrated resource again with settled members makes no create call and writes nothing but COMPLETED in its row |
| Containment.RerunIsIdentity | sunbeam_migrate/manager.py:56-94 | so starting a COMPLETED resource again leaves the table as it was |
| Containment.FailedCleanupRememberedIff | sunbeam_migrate/manager.py:56-94 | after a start on a SOURCE_CLEANUP_FAILED row its source is gone or the row still shows it, exactly when the start cleans up and can list the members; else the row is COMPLETED or PENDING_MEMBERS with its source there |
| Reruns.RerunStaysInReach | sunbeam_migrate/manager.py:56-77 | on any graph, with any handlers: a start on a migrated resource adds rows and makes create calls only for what is reachable from its unmigrated members |
| Reruns.RerunMigratesMembers | sunbeam_migrate/manager.py:56-66 | with calm handlers, if no start of an unmigrated member is entangled, it returns and creates exactly that, with the dependencies of the members and under the same flags |
| Reruns.RerunConnects | sunbeam_migrate/manager.py:67-71 | on any graph, with any handlers: when it returns it made one connect call with the recorded id, and a member is handed over exactly when its turn finds it unsettled and its start under the same flags returns |
| Reruns.RerunStatusIff | sunbeam_migrate/manager.py:56-94 | it raises exactly when the members cannot be listed or, with cleanup, its own source cannot be deleted; its row is PENDING_MEMBERS, SOURCE_CLEANUP_FAILED or COMPLETED accordingly and otherwise kept |
| Reruns.RerunScoped | sunbeam_migrate/manager.py:59-86 | with cleanup it deletes its own source, and otherwise only sources in the scope of its members, after their copies were created; each at most once |
| Blame.StartBlames | sunbeam_migrate/manager.py:147-233 | whatever exception ends a start, it was raised in its cleanup, or a path of FAILED dependencies leads from its root to a resource that was refused, whose own handler call was the last and failed, whose dependencies were not included or had no copy, or that depends on one in progress before or on the path itself |
| Blame.DepLoopBlames | sunbeam_migrate/manager.py:189-194 | a dependency loop that raises names such a dependency |
| Blame.DepLoopLeaves | sunbeam_migrate/manager.py:155-207 | one that returns leaves each listed dependency migrated, or it was in progress before |
| Blame.CleanupStops | sunbeam_migrate/manager.py:373-392 | cleaning up in order: the sources before the first failure are gone, that row is SOURCE_CLEANUP_FAILED, the rest is untouched |
| Blame.CleanupRaisesIff | sunbeam_migrate/manager.py:83-86 | cleaning up raises exactly when one of the deletions does, made in order after those before it |
| Blame.CleanupStatusIff | sunbeam_migrate/manager.py:79-94 | after a cleanup the row is SOURCE_CLEANUP_FAILED exactly when its own source cannot be deleted, PENDING_CLEANUP with its source gone exactly when that of a dependency cannot, and COMPLETED exactly when it returns |
| Blame.StartCleanupStatusIff | sunbeam_migrate/manager.py:56-94 | the same of a whole start whose copy was created and whose members were listed; the flagged dependency is then SOURCE_CLEANUP_FAILED |
| Blame.CleanupSourceMarksExactly | sunbeam_migrate/cmd/cleanup_source.py:49-65 | cleanup-source, when it returns, marks exactly the visible COMPLETED rows of its options whose source was there, and changes no other row |
| Blame.CleanupSourceStops | sunbeam_migrate/cmd/cleanup_source.py:57-65 | when it raises, it did the rows before the failing one and none after it |
| Cleanups.CleanupSourceHolds | sunbeam_migrate/cmd/cleanup_source.py:44-63 | with --dry-run cleanup-source returns and does nothing; without it, and without a filter or --all, it raises and does nothing |
| Cleanups.CleanupSourceDeletes | sunbeam_migrate/cmd/cleanup_source.py:44-65 | otherwise it deletes the sources of exactly the selected rows, newest first, up to the first that cannot be deleted, and makes no other call |
| Cleanups.CleanupRefused | sunbeam_migrate/manager.py:373-392 | a row of a type that is not registered is marked SOURCE_CLEANUP_FAILED and raises; one without an id raises and is left |
| Blame.RootDeletionIff | sunbeam_migrate/manager.py:79-83 | with cleanup the root's source deletion is issued exactly when its copy was created and its members could be listed, whatever became of them |
| Examples.FailedCleanupIsForgotten | sunbeam_migrate/manager.py:56-94 | a concrete run: a start with cleanup leaves SOURCE_CLEANUP_FAILED, and the next start makes the row COMPLETED with the source still there |
| Examples.FailedMemberLosesParent | sunbeam_migrate/manager.py:79-86 | a concrete network one of whose subnets is never created: the source of the network is deleted |
| Examples.FailedDependencyCleanupShows | sunbeam_migrate/manager.py:83-86 | a concrete port whose floating IP cannot be deleted from the source: the port ends PENDING_CLEANUP with its source gone |
| Members.MemberLoopPasses | sunbeam_migrate/manager.py:254-308 | the connect step's list holds, in member order and once each, members that were not settled before, are migrated now, with their recorded ids |
| Members.OnlyNewMembersAreConnected | sunbeam_migrate/manager.py:68-71 | the connect step is the last call of the member phase and is given such a list |
| Members.ListedIff | sunbeam_migrate/manager.py:254-308 | on any graph, with any handlers: a member is handed to the connect step exactly when, at some place where it is listed, it was unsettled at its turn and its start returned |
| Members.StartConnects | sunbeam_migrate/manager.py:67-71 | a start that returns makes one connect call for its root, with the root's recorded id and exactly that list |
| Connections.MemberIsConnected | sunbeam_migrate/manager.py:254-308 | on any graph: with calm handlers an unsettled member to which nothing started before it leads is connected, if no dependency cycle traps it |
| Connections.ConnectedIff | sunbeam_migrate/manager.py:254-308 | in a start that is not entangled a member is connected exactly when it is unsettled and no path through unsettled resources leads to it from a dependency or an earlier member |
| Connections.SiblingIsNotConnected | sunbeam_migrate/manager.py:261-281 | so a second subnet on a network is not connected to their router |
| Connections.SecondSubnetIsNotConnected | sunbeam_migrate/manager.py:261-281 | a concrete router with two subnets on one network: both are migrated, the first only is connected |
| Members.MigratedMemberIsNotConnected | sunbeam_migrate/manager.py:261-281 | a member settled before is not in it |
| Members.MembersAreConnectedToTheCopy | sunbeam_migrate/manager.py:67-71 | a start with members that returns made the connect call with the destination id recorded for its root |
| Batches.SkippedMeaning | sunbeam_migrate/manager.py:353-356 | an id is skipped exactly when some visible COMPLETED row of any type has it |
| Batches.BatchCompletes | sunbeam_migrate/manager.py:352-371 | a batch that returns leaves a COMPLETED row for every listed id |
| Batches.BatchIsIdempotent | sunbeam_migrate/manager.py:352-363 | running it again does nothing at all |
| Batches.BatchConcat | sunbeam_migrate/manager.py:352-371 | a batch over a concatenation is the two batches in turn |
| Batches.BatchStopsAtFirstFailure | sunbeam_migrate/manager.py:364-371 | a batch that raises ends in the state and with the exception of the first start that raised; later ids are not started |
| Batches.BatchMigratesIff | sunbeam_migrate/manager.py:352-371 | a batch that returns has migrated the resource of its own type for a listed id, by the end of its turn, exactly when it did not skip the id or the resource was migrated already |
| Batches.OtherTypeHidesResource | sunbeam_migrate/manager.py:353-363 | a copy declared for another type with the same id makes the batch return without doing anything |
| Batches.DryBatchReturnsIff | sunbeam_migrate/manager.py:352-371 | a dry batch leaves the table and, with calm handlers, returns exactly when the dry run of every id it does not skip does |
| Batches.BatchRefused | sunbeam_migrate/manager.py:338-352 | start-batch on a type that is not registered, or whose resources cannot be listed, raises that and does nothing |
| Batches.DryBatchIff | sunbeam_migrate/manager.py:338-371 | start-batch --dry-run writes no row and makes only listing calls; with calm handlers it returns exactly when the type is registered, its resources were listed, and every listed id has a COMPLETED row or a dry run that returns |
| Batches.BatchIsRun | sunbeam_migrate/manager.py:338-371 | without --dry-run it is a run of single starts on listed ids, in order and under the same flags, and does what its loop does; if it returns every listed id has a COMPLETED row |
| Deletions.StartDeletesNothing | sunbeam_migrate/manager.py:79-86 | without cleanup no source is deleted |
| Deletions.StartScoped | sunbeam_migrate/manager.py:59-86 | with cleanup each source is deleted at most once, after its copy was created by the same start, and only for the root, for members below it created in the order of the member path to them, and for their flagged direct dependencies created just before them, after the resource they are members of |
| Deletions.DepLoopCleanupList | sunbeam_migrate/manager.py:189-207 | the rows a dependency loop hands on for cleanup are of flagged dependencies it created, one row each |
| Deletions.FlaggedAreListed | sunbeam_migrate/manager.py:195-207 | and every flagged dependency the loop found unsettled when it came to it is among them |
| Deletions.StartRemoves | sunbeam_migrate/manager.py:79-86 | a start with cleanup that returns has deleted the source of its root and, if it created the root, of every dependency on its list |
| Deletions.FlaggedDependencyIsRemoved | sunbeam_migrate/manager.py:79-86 | a start with cleanup that returns has deleted the source of every flagged direct dependency that was unsettled and to which nothing started before it led |
| Deletions.MemberLoopRemoves | sunbeam_migrate/manager.py:289-299 | every member handed to the connect step by a start with cleanup has lost its source |
| External.DeclarationTakesEffectIff | sunbeam_migrate/cmd/register_external.py:48-69 | a declaration is the copy dependents will use unless it was declared before and a newer row took its place; then nothing is written |
| External.RegisterReturnsIff | sunbeam_migrate/cmd/register_external.py:41-69 | a declaration returns exactly when type and both ids are given and the type is registered or the copy was declared before; it adds one external COMPLETED row, unless it was, and writes nothing when it raises |
| External.GoingBackIsIgnored | sunbeam_migrate/cmd/register_external.py:48-56 | declaring copies a, b and a again leaves b in use |
| Archive.RestoreUndoesDeleteIff | sunbeam_migrate/db/api.py:52-75 | restoring undoes a soft deletion with the same filter exactly when no row fitting it was archived before |
| Archive.ArchivedFilterIsOverwritten | sunbeam_migrate/db/api.py:41-42 | a filter on the archived column has no effect unless archived rows are included |
| Archive.ArchivedFilterHeldIff | sunbeam_migrate/db/api.py:41-49 | a query gives the rows its archived filter asks for exactly when it includes archived rows, asks for visible ones, or nothing fits the rest of the filter |
| Archive.VisiblePerform | sunbeam_migrate/manager.py:109-122 | a start makes the same calls with the same outcome and leaves the same visible rows as without the archived rows |
| Archive.ArchivedRowsDoNotInterfere | sunbeam_migrate/db/api.py:32-49 | the same over any run of commands |
| Base.FindDestination | sunbeam_migrate/handlers/base.py:279-295 | the search returns the first entry of that type and id, or raises NotFound |
| Base.LookupFindsFirst | sunbeam_migrate/handlers/base.py:279-295 | the lookup the handlers speak of finds the first entry of that type and id, and raises NotFound exactly when there is none |
| Base.LookupCovered | sunbeam_migrate/handlers/base.py:279-295 | given one entry per reported dependency a lookup succeeds exactly for those reported, with the recorded id |
| Base.ReportIdentityDependencies | sunbeam_migrate/handlers/base.py:212-232 | appends the owners to the caller's list, in multi-tenant mode only |
| Base.GetIdentityBuildKwargs | sunbeam_migrate/handlers/base.py:234-269 | translates the owners that are set, or raises at the first that is missing |
| Base.OwnersAreImages | sunbeam_migrate/handlers/base.py:212-269 | reported owners are always found, and translated to their recorded ids |
| Port.PortHandler.GetAssociatedResources | sunbeam_migrate/handlers/neutron/port.py:40-82 | reports owner, network, subnets, groups and, flagged for cleanup, floating IPs, in this order |
| Port.PortHandler.PerformIndividualMigration | sunbeam_migrate/handlers/neutron/port.py:84-199 | issues the create request and then the floating IP updates in order, stopping where a lookup or the cloud raises, and returns the new id exactly if nothing did |
| Port.PortIsImageIff | sunbeam_migrate/handlers/neutron/port.py:101-197 | given the manager's list the request is the source port with every reference translated in place, exactly when network and group list are there; it is followed by exactly one update per floating IP of the port, in order and with its recorded id, if these are preserved, and by nothing if not |
| Port.NetworkReportedIff | sunbeam_migrate/handlers/neutron/port.py:50-53 | the network that is looked up is reported exactly when its id is set |
| Port.PortFields | sunbeam_migrate/handlers/neutron/port.py:101-188 | the same field by field: network, groups and fixed IPs carry the recorded ids in order, fixed IPs only if they are preserved, and the owner only in multi-tenant mode |
| Router.RouterHandler.GetAssociatedResources | sunbeam_migrate/handlers/neutron/router.py:37-70 | reports owner, gateway network and gateway subnets, the subnets only along with the network |
| Router.RouterHandler.PrepareExternalGatewayInfo | sunbeam_migrate/handlers/neutron/router.py:195-250 | copies the gateway with network and subnets translated, or raises at the first missing one |
| Router.RouterHandler.PerformIndividualMigration | sunbeam_migrate/handlers/neutron/router.py:97-148 | issues exactly the derived request, or none if a lookup raises |
| Router.RouterIsImageIff | sunbeam_migrate/handlers/neutron/router.py:37-250 | given the manager's list the request is the image of the router, exactly when the gateway names a network or asks for no subnet |
| Router.AllMembersConnected | sunbeam_migrate/handlers/neutron/router.py:150-174 | if the cloud refuses just duplicate interfaces, the router ends with its old interfaces and one to every member's copy, none added twice |
| Router.InterfaceTurn | sunbeam_migrate/handlers/neutron/router.py:150-174 | with any cloud: at its turn a member's interface is added unless that raises, and the loop goes on unless it has ended or this raise is no conflict |
| Router.ConnectRaisesIff | sunbeam_migrate/handlers/neutron/router.py:150-174 | so the connect step raises exactly when some member does, other than with a conflict, and adds nothing from that member on |
| Router.RouterHandler.ConnectMemberResourcesToParent | sunbeam_migrate/handlers/neutron/router.py:150-174 | one interface per member in order; a conflict is swallowed, any other exception ends the loop |
| User.UserHandler.GetAssociatedResources | sunbeam_migrate/handlers/keystone/user.py:36-63 | reports domain, default project and the roles of all assignments |
| User.UserHandler.RecreateRoleAssignments | sunbeam_migrate/handlers/keystone/user.py:118-179 | reads role and scope at the destination and assigns, in order, up to the first lookup, read or assignment that raises |
| User.UserHandler.PerformIndividualMigration | sunbeam_migrate/handlers/keystone/user.py:65-116 | takes an existing user as it is; a created one is returned whatever becomes of its assignments |
| User.UserIsImage | sunbeam_migrate/handlers/keystone/user.py:104-179 | given the manager's list, the user gets exactly the images of the assignments before the first whose scope is not reported; of that one only the role is read |
| User.AllAssignmentsIff | sunbeam_migrate/handlers/keystone/user.py:36-63 | these are all of them exactly when every scope is the default project or the own domain |
| LoadBalancer.LoadBalancerHandler.GetAssociatedResources | sunbeam_migrate/handlers/octavia/load_balancer.py:37-98 | reports owner, VIP subnet and network, the subnets of all default pools' members and the VIP's floating IPs, in this order |
| LoadBalancer.LoadBalancerHandler.GatherPools | sunbeam_migrate/handlers/octavia/load_balancer.py:136-153 | the dictionary ends up with exactly the default pools that exist |
| LoadBalancer.LoadBalancerHandler.CopyTree | sunbeam_migrate/handlers/octavia/load_balancer.py:166-226 | the loops with their dictionaries issue exactly the planned requests, up to the first that raises |
| LoadBalancer.LoadBalancerHandler.CarriesIff | sunbeam_migrate/handlers/octavia/load_balancer.py:182-188 | the dictionaries say that a pool is to be copied exactly when it exists and no earlier listener names it |
| LoadBalancer.LoadBalancerHandler.AttachFloatingIps | sunbeam_migrate/handlers/octavia/load_balancer.py:228-257 | reattaches the floating IPs that were migrated and skips the others |
| LoadBalancer.LoadBalancerHandler.PerformIndividualMigration | sunbeam_migrate/handlers/octavia/load_balancer.py:108-258 | issues the load balancer request and the whole plan in order, up to the first request that raises |
| LoadBalancerTree.ChildrenOnlyWhileActive | sunbeam_migrate/handlers/octavia/load_balancer.py:155-226 | listeners, pools, monitors and members are created only while the load balancer is ACTIVE, and it is ACTIVE at the end |
| LoadBalancerTree.LookupsSucceed | sunbeam_migrate/handlers/octavia/load_balancer.py:296-475 | given the manager's list no lookup fails: VIP, members and floating IPs all get their recorded ids |
| LoadBalancerTree.PlanBuildsImage | sunbeam_migrate/handlers/octavia/load_balancer.py:166-226 | the requests, resolved by the ids they name, build one listener per source listener in order, with a full copy of each existing default pool under the first listener naming it |
| LoadBalancerTree.PlanBuildsTree | sunbeam_migrate/handlers/octavia/load_balancer.py:166-226 | the same field by field: attributes, monitor and members of each copy, and which listeners get a pool |
| LoadBalancerTree.FloatingIpsFollow | sunbeam_migrate/handlers/octavia/load_balancer.py:228-257 | given the manager's list, the loop over the floating IPs moves all those of the source's VIP port to the new one, in order, and none if it has no VIP port |
| LoadBalancerTree.PlanMovesFips | sunbeam_migrate/handlers/octavia/load_balancer.py:155-257 | the whole plan first waits for and builds children of the load balancer it is made for, and then makes exactly those moves if both VIP ports are set, and nothing else |
| LoadBalancerTree.EachPoolOnce | sunbeam_migrate/handlers/octavia/load_balancer.py:182-188 | every existing default pool is copied exactly once, under the first listener naming it |
| LoadBalancerTree.RelabelledIffNoSharedPools | sunbeam_migrate/handlers/octavia/load_balancer.py:182-188 | every listener with a pool gets a copy with one exactly when no two listeners share a pool |
| Reports.IdentityReports | sunbeam_migrate/handlers/base.py:212-232 | the owners reported are the project and then the user, if set, in multi-tenant mode, and none outside it |
| Reports.PortReports | sunbeam_migrate/handlers/neutron/port.py:40-82 | the whole list a port reports, entry by entry, with order and cleanup flags |
| Reports.PortFipsReported | sunbeam_migrate/handlers/neutron/port.py:71-80 | a floating IP is reported exactly when it is the port's and these are preserved; it is then flagged for cleanup, and nothing else is |
| Reports.RouterReports | sunbeam_migrate/handlers/neutron/router.py:37-70 | the whole list a router reports; none of it is flagged |
| Reports.UserReports | sunbeam_migrate/handlers/keystone/user.py:36-63 | the whole list a user reports, one role per assignment; none of it is flagged |
| Reports.LbReports | sunbeam_migrate/handlers/octavia/load_balancer.py:37-98 | the whole list a load balancer reports; none of it is flagged |
| GraphImage.CoveredIsImage | sunbeam_migrate/handlers/base.py:279-295 | with a covering list each of the four handlers creates the image of its source, or refuses for a reason of the source's own |
| GraphImage.DestinationGraphIsImage | sunbeam_migrate/manager.py:211-228 | over any run of start, start-batch and cleanup-source, every port, router, user and load balancer is created as the image of its source under the destination ids recorded at the end, and so are its attachments |
| GraphImage.HandlersFitCatalogue | sunbeam_migrate/handlers/octavia/load_balancer.py:27-98 | each of the four handlers reports resources of the types it declares only |
| GraphImage.UserReportFits | sunbeam_migrate/handlers/keystone/user.py:36-63 | a user reports one default project at most, and the domain before the roles |
| CloudImage.PerformIndividualMigration | sunbeam_migrate/handlers/octavia/load_balancer.py:108-258 | the create call of each of the four handlers returns exactly when every lookup succeeds and the cloud accepts all requests it takes; it has issued them in order up to the first refused |
| CloudImage.CloudHoldsImages | sunbeam_migrate/manager.py:211-228 | over any such run with the handlers on a destination cloud, the cloud holds at the end, for every source created, the requests that make its image under the recorded ids, at the place its recorded id names; and no two share a place |
| CloudImage.CopiesAreDistinct | sunbeam_migrate/manager.py:211-228 | so if the cloud gives no id twice, different resources have different copies |
| CloudImage.CloudIsCalm | sunbeam_migrate/manager.py:211-228 | if the cloud refuses nothing but duplicate interfaces and no source is refused for its own reason, no handler on it raises when given all dependencies |
| CloudImage.ConnectedHaveInterfaces | sunbeam_migrate/handlers/neutron/router.py:150-174 | a start that returns makes the router's copy on the cloud have an interface to the copy of every member handed to the connect step, besides those it had, and no other |
| CloudImage.RouterInterfacesIff | sunbeam_migrate/handlers/neutron/router.py:150-174 | if the start is not entangled these are exactly the unsettled members to which nothing started before them led |

## Left out

- OpenStack SDK, Manila client, sessions, role grants to the current user and polling: foreign calls; a
  handler call either raises or returns, and creates return a non-empty id. Reads a handler makes of its
  own source resource are assumed to succeed and to agree with what it reported.
- SQLAlchemy sessions, timestamps and uuids: rows are kept in insertion order, so creation times never
  tie, and database errors do not occur.
- Command-line parsing, output, logging, error messages and configuration files; configuration flags are
  parameters. The service column is a function of the resource type, as the handlers define it.
- DryRun.Dry: the interpreter's recursion limit is a parameter counting nested resources, not stack
  frames.
- The migration of temporary images inside the volume and instance handlers, which calls the manager
  again from within a handler: handlers are assumed not to do so.
- Handlers other than port, router, user and load balancer are only known by their dependency and member
  lists; attributes copied unchanged are one opaque value.
- CloudImage.CloudHoldsImages: a user is taken not to exist at the destination; one that does is taken as
  it is. What other handlers do to the cloud during their calls is left open.
- Catalogue.StartMigratesCloudIff: takes the roles of a domain to be assigned to users of that domain; one
  that a user of another domain has can entangle more starts than that of the role.
- The lists of members are those the oracle's graph holds; how a handler lists them is not modelled.
- Concurrent commands and crashes in the middle of one: a stale IN_PROGRESS row can only be part of the
  state a theorem starts from.
- What else disappears with a deleted source: a deletion concerns one resource.
- Hard deletion of rows: it erases the memory the run invariants speak of.
- Safety.CycleNeverMigrates: says nothing of runs with register-external, which breaks a cycle by
  declaring one of its resources copied.
