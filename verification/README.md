# Symphony Pilot: the lifecycle broker and its publication

A Dafny model of the host side of Symphony Pilot, and proofs about it. The control database is a class whose methods
insert and update rows inside transactions; the lifecycle broker reconciles an Architect's result, which may be wrong in
any way, step by step over those rows; the publisher drives a remote branch and a pull request around the database while
calls fail and processes disappear; preparation, allocation and `after_run` close the loop with the retained Git checkout.

How the files fit together:

- `Schema`, `Results`, `Queries`: rows, result files, and the broker's read-only questions about one task's rows.
- `Reconciliation`, `Managed`: what each managed operation means, free of the order of checks and writes: one predicate
  on the old rows says when it commits (`Enabled`), one function gives the new rows (`Effect`).
- `Tables`, `Database`, `Lifecycle`, `Guards`, `Evidencing`, `Licences`, `Concluding`, `Broker`: the operations as the
  source performs them on tables holding all tasks' rows, each proved to commit exactly when `Enabled` holds, to leave
  exactly `Effect`, to touch no other task's rows, and otherwise to leave every table as it was.
- `Histories`, `Evidence`, `Invariants`, `Preservation`, `Runs`, `Progress`, `Acceptances`: invariants over every run of
  one task, and what follows from them. `ControlRuns`, `References` and `Service` lift them to the whole database and to
  the imperative methods.
- `Checkouts`, `Workspaces`, `Barriers`, `ForeignReports`: preparation, attempts and reconciliation on a checkout;
  barrier and handoff, and the one case in which the barrier does not hold.
- `Remotes`, `Publishing`, `PublicationRuns`, `Operations`: publication against a remote that moves, with a fate for
  every call, and the whole system with publication attempts among all other requests.
- `Identifiers`, `Registry`, `Pages`: identifiers and branches, profile validation and ports, bounded pagination.

`dafny verify dfyconfig.toml` checks everything.

## What was found to hold only under a condition

A result is reconciled against the task it names, while its Git head was judged against the base of the task whose
workspace it came from, and the two are never compared. So, after `after_run`:

- Every accepted head still descends from its own task's base exactly when the head did not move or also descends from
  the named task's base (`Barriers.AncestryIsTheHostsDuty`); for a result that names its own workspace's task the check
  made by `verify_git_truth` is that condition.
- No attempt of the workspace's task is left started exactly when the accepted result named that task, or, with no
  result accepted, when none was started or the failure could be recorded (`Barriers.AttemptReturns`).

`ForeignReports.ForeignReport` reaches the failing case from an empty database with the broker's own operations: task B
has an accepted plan and a started implementation; task A, on another base, has its planning started; A's workspace
stands at a new commit on A's branch, and its outbox holds an implementation result for B. It is accepted, B's current
head does not descend from B's base, and A's attempt stays started.

## Model

| member | source | states |
|---|---|---|
| Results.ReadResult | runtime/lifecycle.py:356-432 | the one-pass boundary check accepts exactly the well-formed results: active expected state, distinct specialized roles, findings that speak only for their packet's role, blocker kinds that match the classification |
| Guards.CheckRoles | runtime/lifecycle.py:585-612 | the phase's role and outcome table, the possible prefixes of planning and the subset rule for blocked results |
| Guards.CheckVerdicts | runtime/lifecycle.py:613-624 | every packet's verdict is one its role may give under the outcome |
| Guards.CheckHead | runtime/lifecycle.py:625-657 | what the phase allows of the Git head, of a correction's verdict and of a blocked IMPLEMENTER's licences |
| Guards.CheckRulings | runtime/lifecycle.py:664-688 | rulings suit the outcome, a correction rests on its phase's own licensed finding, a block on blocker-producing evidence |
| Guards.GuardsAreAdmissible | runtime/lifecycle.py:565-731 | the guards in source order accept exactly the results that one outcome-by-outcome condition on the old rows admits |
| Lifecycle.CheckCurrent | runtime/lifecycle.py:566-580 | the checks by primary key succeed exactly when identifier, state, started attempt, workpad version and starting head are current for the named task |
| Lifecycle.FindAcceptance | runtime/lifecycle.py:547-562 | the backwards scan finds an acceptance exactly when one is logged after the last head change |
| Lifecycle.InsertRoleResult | runtime/lifecycle.py:465-481 | a specialized run starts and finishes as one finished row at its role's next round, with both events, and nothing else changes |
| Lifecycle.InsertFinding | runtime/lifecycle.py:484-503 | one finding row with its event, and its blocker when the ruling calls for one |
| Lifecycle.Finish | runtime/lifecycle.py:519-530 | finishing commits exactly when the named run of the task is still started, and rewrites that row only |
| Evidencing.InsertRoleResults | runtime/lifecycle.py:659-663 | all packets' runs go in exactly when every packet head agrees with Git's, and the run map names them |
| Evidencing.InsertFindings | runtime/lifecycle.py:689-692 | all findings go in, each under its role's run or else the Architect's |
| Evidencing.WriteEvidence | runtime/lifecycle.py:658-692 | the evidence phase passes exactly when heads agree and rulings fit, and then leaves exactly the evidenced rows |
| Evidencing.CheckAcceptances | runtime/lifecycle.py:698-703 | the acceptances the outcome builds on are current for the actual head |
| Evidencing.EvidenceReads | runtime/lifecycle.py:659-731 | checks made after rows were inserted read the same licences and acceptances as before them |
| Concluding.EvidenceGuards | runtime/lifecycle.py:693-707 | the unresolved-licence and missing-licence guards can never fire once the earlier guards passed |
| Concluding.RunReadBack | runtime/lifecycle.py:709-744 | the IMPLEMENTER run read back by key has the round that was next before the evidence was written |
| Licences.ResolveRequested | runtime/lifecycle.py:708-729 | row-by-row resolution succeeds exactly when the request names each licensed finding once and all are pinned to the run's round, and then resolves exactly those |
| Licences.RolloverBlockedCorrection | runtime/lifecycle.py:137-168 | every licence pinned to the blocked run's round moves to the next IMPLEMENTER round, in place, and no row is missed |
| Licences.StillMovable | runtime/lifecycle.py:159-168 | the update that moves a licence always finds its row, so its row count is always 1 |
| Concluding.SettleRequested | runtime/lifecycle.py:708-731 | resolutions are accepted exactly for a completed correction that names its licences, and otherwise only when none are requested |
| Concluding.EnsureBlocked | runtime/lifecycle.py:732-737 | a blocked attempt with no open blocker gets one made from its first blocked packet, or else its summary |
| Concluding.StoppedIsBlocked | runtime/lifecycle.py:738-741 | so the guard that rejects a blocked result without an open blocker never fires |
| Concluding.MoveOn | runtime/lifecycle.py:742-746 | a blocked IMPLEMENTER's licences, read before the evidence, always move on, and the round guard never fires |
| Concluding.MoveHead | runtime/lifecycle.py:747-754 | the head and its event are written exactly when the head moved |
| Concluding.Advance | runtime/lifecycle.py:755-769 | the state advances and the acceptance is recorded for the actual head under the run that gave it |
| Concluding.RewriteWorkpad | runtime/lifecycle.py:771-779 | the workpad is replaced and its version incremented exactly when the expected version is still there |
| Broker.Reconcile | runtime/lifecycle.py:565-780 | the interleaved transaction commits exactly when the side-effect-free condition on the old rows holds, leaves exactly the pure transition for the named task and every other task untouched, and on rejection leaves every table as it was |
| Broker.AllocateAttempt | runtime/lifecycle.py:231-298 | an attempt is granted exactly to an eligible task with none started, with the packet of the very rows it was allocated from; a lost race leaves nothing, a broken invariant exactly one blocker |
| Broker.FailAttempt | runtime/lifecycle.py:783-793 | exactly one started attempt is failed with one infrastructure blocker; with none, or with several, nothing changes |
| ControlPlane.ControlPlaneDatabase.Rollback | runtime/control_db.py:777-786 | every table is as it was when the transaction began |
| ControlPlane.ControlPlaneDatabase.CreateTask | runtime/control_db.py:788-850 | the next identifier is one past the highest, its branch derived from it, and creation fails exactly when 999,999 is used |
| ControlPlane.ControlPlaneDatabase.QueueTask | runtime/control_db.py:859-890 | exactly a prepared task of the selected project is queued, and gets its first workpad |
| ControlPlane.ControlPlaneDatabase.RecordBlocker | runtime/control_db.py:1095-1132 | one open blocker and its event are added to an existing task |
| ControlPlane.ControlPlaneDatabase.ResolveBlocker | runtime/control_db.py:1141-1152 | exactly the open blocker with this key is closed, for the one task it belongs to |
| ControlPlane.ControlPlaneDatabase.StartPublication | runtime/control_db.py:1215-1294 | the intent is recorded exactly for the current ARCHIVIST head with its evidence and without blockers; an intent already started must match and is kept |
| ControlPlane.ControlPlaneDatabase.FinalizePublication | runtime/control_db.py:1296-1358 | publication row, task row, state and both events change together, exactly when the matching intent stands and nothing blocks |
| ControlPlane.ControlPlaneDatabase.FailPublication | runtime/control_db.py:1360-1418 | a failure keeps every identity already recorded, adds one blocker, and never touches a finalized task |
| ControlPlane.OpenBlockerFound | runtime/control_db.py:1141-1152 | a blocker key found open is seen by its own task, and a missing or closed one by none |
| Histories.LevelIsCurrentAcceptance | runtime/lifecycle.py:547-562 | on any log at all, the level read forwards reaches 1 exactly when the backwards scan finds the review, and a level of 2 or 3 makes it find the adversary or validation acceptance |
| Acceptances.LevelIsTheScan | runtime/lifecycle.py:547-562 | at the end of every run the backwards scan finds each of the three acceptances, for any head, exactly when the chain has come that far |
| Histories.LevelThreeIsOrderedChain | runtime/lifecycle.py:693-769 | a head is fully accepted exactly when review, adversary and validation follow each other, in that order, after the last head change |
| Histories.RoundsAreOneToN | runtime/lifecycle.py:129-134 | rounds taken as maximum plus one are, per role, exactly 1 to n in order |
| Evidence.RoundsUsed | runtime/lifecycle.py:465-481 | a result's evidence uses up one round of each role that reported and none of any other |
| Identifiers.PrintAndParse | runtime/control_db.py:788-795 | parsing an identifier undoes printing it, up to 999,999 |
| Identifiers.ParseAndPrint | runtime/control_db.py:788-795 | printing undoes parsing on every well-formed identifier |
| Identifiers.TextOrderIsNumericOrder | runtime/control_db.py:788-795 | the order of identifiers as text is the order of their numbers |
| Identifiers.BranchesAreInjective | runtime/control_db.py:146-158 | whatever the UUID prefixes, different identifiers derive different branches |
| Invariants.NewCaseConsistent | scripts/task.py:98-105 | a task as the operator creates it satisfies every invariant |
| Invariants.AllocateKeeps | runtime/lifecycle.py:231-298 | allocation keeps every invariant, and its start row describes the task |
| Invariants.FailAttemptKeeps | runtime/lifecycle.py:783-793 | failing an attempt keeps every invariant |
| Invariants.FailPublicationKeeps | runtime/control_db.py:1360-1418 | a publication failure keeps every invariant |
| Preservation.ReconcileKeeps | runtime/lifecycle.py:565-780 | every accepted result keeps every invariant: licences, evidence, rounds, attempts, head, publication |
| Preservation.StepKeeps | runtime/lifecycle.py:231-793 | so does every managed operation |
| Runs.WholeRunsAreConsistent | runtime/lifecycle.py:565-780 | every state of every run from creation satisfies every invariant |
| Runs.ReadyInEveryRun | runtime/control_db.py:1242-1262 | ready for a human merge means one head current, published and on record, reviewed, attacked and validated in that order since it last moved, closed by an ARCHIVIST run and descended from the base |
| Runs.PublicationEvidenceIsThere | runtime/control_db.py:1237-1262 | at ARCHIVIST publication can start exactly when no blocker is open: the evidence checks never fail |
| Runs.AcceptanceAndLicenceGuardsNeverReject | runtime/lifecycle.py:693-729 | in reachable states a result that passed the earlier guards is never rejected for a missing acceptance at its head, nor a completed correction for a licence's round: it is accepted exactly when heads, rulings, names and marker fit |
| Runs.LicencesNeverGoStale | runtime/lifecycle.py:137-168 | in every state of every run each licence is pinned to the next IMPLEMENTER round, and licences exist only in the three correctable states |
| Runs.AttemptsAddUp | runtime/lifecycle.py:533-544 | ARCHITECT rounds are the finished attempts the workpad version counts plus failed plus at most one started, and failed attempts never outnumber infrastructure blockers |
| Runs.ReconcileMovesDistance | runtime/lifecycle.py:585-596 | an advancing result lowers the distance to ARCHIVIST by one, a correction sets it to five, a blocked result leaves it |
| Runs.AdvancesAtArchivist | runtime/lifecycle.py:755-763 | at ARCHIVIST the advancing results are exactly 6 plus 1, 2 or 3 for each correction from the three correctable states |
| Progress.NoAttemptIsWedged | runtime/lifecycle.py:565-780 | from every reachable state with a started attempt there is a well-formed result that is accepted and advances, given a new commit where an IMPLEMENTER acts |
| Progress.ResolvingUnblocks | runtime/lifecycle.py:249-270 | without a started attempt, resolving the open blockers makes allocation possible |
| Progress.PacketStaysTrue | runtime/lifecycle.py:180-220 | while its attempt is started the input packet stays exactly true under every other operation |
| Progress.ActionNamesTheBranch | runtime/lifecycle.py:570-596 | an accepted result carries out, or reports blocked on, the action its packet announced, by its roles, and resolves exactly the licences it listed |
| Progress.SpentForever | runtime/lifecycle.py:519-530 | an attempt that ended is never started again |
| Progress.ReplayIsRejected | runtime/lifecycle.py:572-574 | a result accepted once is rejected in every later state |
| Progress.HeadMovesWithImplementer | runtime/lifecycle.py:747-754 | the head changes only in a step that records an IMPLEMENTER run and logs the new head |
| Progress.SelectedHeadIsActual | runtime/lifecycle.py:747-754 | after any accepted result the selected head is the head Git showed |
| Progress.PublicationIsMonotone | runtime/control_db.py:1215-1418 | over every run recorded head, branch and pull request are never forgotten, and a finalized task and its row never change |
| Progress.BlockerHolds | runtime/lifecycle.py:265-268 | an open blocker outlives every step but its own resolution and stops allocation and publication |
| ControlRuns.NewNameIsNew | runtime/control_db.py:788-795 | the identifier printed for a new task was never used by any existing one |
| ControlRuns.DbStepConsistent | runtime/control_db.py:777-850 | every committed transaction keeps all tasks consistent and all names and branches distinct |
| ControlRuns.ReachableIsConsistent | runtime/control_db.py:705-850 | so does every run of the database from empty |
| ControlRuns.ReadyTasksAreBacked | runtime/control_db.py:1242-1262 | in every reachable database every ready task is backed by published, ordered, current evidence for its head |
| ControlRuns.RunsAsSeen | runtime/control_db.py:777-786 | any run of the database is, for each task in it, a run of that task alone |
| ControlRuns.HistoryOf | runtime/control_db.py:797-850 | whatever a reachable database says of a task is the end of a whole run of that task |
| References.PairedKeysHold | runtime/control_db.py:312-398 | in every reachable database each finding and log row that names a run names a run of its own task |
| Service.Serve | runtime/control_db.py:705-1418 | the imperative methods, under requests with any arguments in any order, make a run of committed transactions from the empty database and reach only consistent ones: ready tasks are backed, attempts single, branches distinct; a report whose head does not descend from the named task's base is not passed on |
| Workspaces.ReconcileWorkspace | runtime/lifecycle.py:796-813 | a report is reconciled exactly when the marker's run is started, the file is well formed, the checkout is true and the result is admissible |
| Workspaces.AfterRun | runtime/after_run.py:17-40 | the report is reconciled, or else the workspace's own attempt is failed unless even that fails; nothing else happens |
| Workspaces.Prepare | runtime/prepare_workspace.py:450-571 | preparation succeeds exactly under its checks and ends clean at the selected head on the task branch; a continuation never moves branch or head; any failure once the task is known adds exactly one infrastructure blocker |
| Workspaces.CheckContinuation | runtime/prepare_workspace.py:490-526 | the continuation comparisons are read-only and each divergence is recorded once |
| Workspaces.PrepareAttempt | runtime/lifecycle.py:301-325 | the marker names the run that was started, or a staging failure has failed exactly that run |
| Barriers.AttemptReturns | runtime/after_run.py:22-35 | after after_run no attempt of the workspace's task is started exactly unless a result for another task was accepted or the failure of a started one could not be recorded; a rejected or blocked attempt leaves the state unchanged and a blocker open, an accepted unblocked one adds none; the database stays consistent exactly unless an accepted head is foreign to the task it is for |
| Barriers.HeldUntilResolved | runtime/lifecycle.py:265-268 | until that blocker is resolved no run allocates, starts or finalizes anything |
| Barriers.MarkerRunIsResultRun | runtime/lifecycle.py:802-808 | the marker's run and the run an accepted result names are the same although they are never compared |
| Barriers.AncestryIsTheHostsDuty | runtime/lifecycle.py:443-457 | an accepted result keeps the invariants exactly when the head stayed or descends from the named task's base |
| ForeignReports.ForeignReport | runtime/lifecycle.py:796-813 | a reachable database, workspace and report, all checks passing, after whose acceptance the named task's head does not descend from its base and the reporting attempt is still started |
| Barriers.Handoff | runtime/prepare_workspace.py:484-526 | the checkout an accepted result leaves passes the next preparation exactly when the host's steps do, for a first preparation as for a continuation |
| Barriers.HandOver | runtime/prepare_workspace.py:450-571 | reconciling and then preparing: once the workspace's own result is accepted the preparation succeeds exactly when locks, fetch, tools and marker writing do, on the same commit of the same branch, and the database stays consistent |
| Remotes.Remote.PushAbsent | runtime/publication.py:308-319 | an existing ref is never replaced, and the write is of this branch's one head |
| Remotes.Remote.OpenPull | runtime/publication.py:233-246 | one pull request is opened, for a branch for which none was, and it can be found from then on |
| Remotes.PullsForMeans | runtime/publication.py:196-209 | the listing for an owner's branch is empty exactly when no pull request comes from it, and lists each under its number |
| Publishing.ReconcilePullRequest | runtime/publication.py:212-247 | the one exact pull request is adopted, one is opened only when the branch has none, and success means the proof was read back |
| Publishing.PublishBranch | runtime/publication.py:260-319 | a first publication pushes the branch itself; an existing ref is accepted only at this head after a recorded attempt |
| Publishing.CarryOut | runtime/publication.py:374-428 | finalization is reached only after the head was seen on the branch and then on the open draft pull request |
| Publishing.AttemptLeaves | runtime/publication.py:370-428 | up to the intent the task row is untouched, and finalized it is ready at the same head |
| Publishing.PublishTaskLocked | runtime/publication.py:322-447 | under any failures and disappearances, whatever the outcome: only permitted operations are taken, intent precedes every outside effect, every finalization was of the current head after it was seen on the branch and then on the open draft, a first publication pushed the branch itself, a handled failure is recorded, and with nothing in the way publication completes |
| PublicationRuns.PublicationKeepsHead | runtime/publication.py:322-447 | no operation of a publication moves head, branch or base |
| PublicationRuns.PermittedKeeps | runtime/control_db.py:1215-1418 | permitted publication operations keep every invariant |
| PublicationRuns.ReadyIsProven | runtime/publication.py:374-428 | a task that publication operations brought from ARCHIVIST to ready records the head, branch and pull request of a finalization that had been proved |
| Operations.Operate | runtime/publication.py:322-447 | from an empty database, under any requests with publication attempts of any tasks in between, each on any checkout and with any failures and crashes: the broker writes only to registered tasks' branches, pushes only a task's accepted head and only to an absent ref, opens at most one pull request per task, and every ready task is backed by its evidence and was seen on its branch and then on the recorded draft before it was finalized |
| Registry.NamespacesNeverOverlap | runtime/prepare_workspace.py:134-150 | projects with different safe slugs own namespaces that never contain one another |
| Registry.SlashesOverlap | runtime/prepare_workspace.py:134-150 | a slug with a slash in it would put its workspaces inside those of another project |
| Registry.CheckNamespaces | runtime/project_registry.py:81-94 | the pairwise comparison finds nothing exactly when no two projects' namespaces contain one another |
| Registry.ValidateProfiles | runtime/project_registry.py:28-97 | validation accepts exactly well-formed profiles that share no slug, repository, service or port; the namespace comparison then finds nothing more |
| Registry.ExhaustedExactlyWhenFull | runtime/project_registry.py:119-127 | all ports are taken exactly when there are 64,512 valid profiles |
| Registry.SuggestPort | runtime/project_registry.py:119-127 | the suggestion is the least free port, and fails exactly when none is left |
| Pages.FetchAll | runtime/rulesets.py:13-26 | the loop returns the pages up to the first that is not full, and fails exactly when the first hundred are full |
| Pages.FetchStable | runtime/publication.py:196-209 | a stable listing is returned whole exactly when it has fewer than 10,000 items |
| Pages.FetchRulesetDetails | runtime/rulesets.py:29-42 | all details are fetched, in listing order, exactly when every summary names a ruleset that can be fetched |
| Pages.RequireDefaultBranchRuleset | runtime/rulesets.py:62-84 | a ruleset is selected exactly when, among the details of the whole listing, it alone applies to the default branch and it protects it |

## Left out

- Text: byte bounds, control characters, credential markers, timestamps and JSON encoding of rows and payloads; event
  payloads keep the fields some reader looks at. Title, objective, finding kind and severity are not rows' fields here.
- UUIDs and commit names are opaque numbers; fresh UUIDs come from an increasing supply, so row order is key order.
- Errors are a rejection without a message: which exception was raised is not distinguished, and a row that is missing
  is not distinguished from one that belongs to another task.
- The commit graph is a descent relation given to the operations that ask Git about ancestry; the SQLite engine is
  tables, keys, transactions and rollback only, and concurrent writers are serialized transactions.
- Operations that bypass the broker (`update_heads`, `transition_task`, `record_publication`, `record_event`,
  `create_role_run`, `record_finding`, and `create_task` with a seeded state or head).
- Service.Serve: a report whose head does not descend from the named task's base is dropped before reconciliation, which
  the source does not do; what happens when it is not dropped is Barriers.AttemptReturns and ForeignReports.
- Operations.Operate: one project's remote; tasks of other projects take part in everything but publication. Other
  processes' database operations happen between publication attempts, not inside one.
- Publishing.PublishTaskLocked: a pull-request listing is one observation; the deploy key, bundle, deployment and
  rulesets are steps that may fail, with the protection fingerprint compared as a number.
- Workspaces.Prepare: locks, process ownership, toolchains and marker writing are conditions that may fail; the path
  checks on the workspace directory are not part of this model.
- The hash behind the protection fingerprint.
- Containment, host API, notifications, deployment, backup and migration code.
