# KnoVa execution and deployment, modelled and proved

The project models the parts of the KnoVa provider whose correctness spans many steps: switching
a Consumer from one Deployment to another, the event stream of an operation, the mapping of
restricted SQL to ingestion steps, the retrying inference run, and the checks and encodings that
have to agree between training and inference.

| file | subject |
|---|---|
| `Cluster.dfy`, `ConsumerSwitch.dfy` | the journalled stop-before-start switch of the consumer-only deployer |
| `ReleaseSwitch.dfy` | the switch between releases of the RayCluster deployer |
| `Events.dfy`, `Reporters.dfy`, `Sessions.dfy` | the event protocol on values: one call, one reporter, any interleaving |
| `Runtime.dfy`, `Drivers.dfy` | the reporter and the Redis stream as objects, and the driver that must end the stream |
| `Relational.dfy`, `SqlMeaning.dfy` | rows and transform steps, and what a parsed SELECT means |
| `TrainingQuery.dfy`, `TrainingMeaning.dfy`, `ClassBalance.dfy` | training queries: acceptance, plan, meaning, class sampling |
| `EntityGrain.dfy`, `TrainingInput.dfy` | one row per entity, and the whole input of a training run |
| `InferenceQuery.dfy` | inference queries: steps, predicted row count, tensor column order |
| `Batching.dfy`, `InferenceRun.dfy` | batch sizes, progress, retries and the single write |
| `Topology.dfy`, `Labels.dfy` | the relation tree and the label codes |
| `Paths.dfy`, `ArtifactPaths.dfy` | published artifact paths and where inference looks for them |
| `Wrappers.dfy` | `Option` and text checks |

How the models are built:

- Both deployers are classes whose every kubectl call and journal write may succeed, raise before
  or after its effect, or be the point where the process dies. A `reliable` constant switches
  these faults off, and a `smooth` one says that the new Consumer works out; with both, the contracts
  say exactly when a command succeeds, and with the first alone, that a failed switch has been rolled
  back. Latches record whether any state of the whole run so far was unsafe.
- A reporter's call is one step: nothing of it reads the stream except the atomic script, so a step
  is placed where the script runs, with the clock and the cancel key as the check before it saw
  them. The class form (`Runtime.KnovaReporter`) is proved equal to the value form the
  interleaving theorems are about.
- SQL starts from its parsed parts. Decoding a parameter and comparing a cell are arbitrary
  functions of an `Engine`, shared by the meaning of the SQL and the steps; theorems hold for all
  of them. A table is a sequence of rows, so LIMIT takes the first ones.

Results that are not what a reader might expect:

- An unfinished switch of the consumer-only deployer can be stuck for good, in exactly two ways
  (`ConsumerSwitch.StuckExactly`): a restore has deleted the new Deployment and the journal does not
  say so, or a new Deployment has been applied, perhaps running, and its identity is not journalled.
  The process may have died in between, or the call that took effect or the write after it raised.
  From then on no command succeeds or changes anything (`ConsumerSwitch.Deployer.Execute`,
  `Operate`); both are steps of a first deployment (`ConsumerSwitch.FirstDeploymentStrands`). Every
  other unfinished switch can be rolled back.
- A request with an entity key trains on one row of each entity, whichever the grouping takes and in
  whatever order. For every such choice, the rows are ones its statement may denote if and only if,
  for one SELECT, no two rows of the read share an entity, and for a balanced statement, every class
  is left its quota or all there was of it (`TrainingInput.TrainingRowsMayBeDenoted`). A table with
  one entity in two classes fails for every choice (`TrainingInput.SharedEntity`).
- Per-class quotas are met on all rows handed to the sampler exactly when the engine equates no two
  decoded classes (`ClassBalance.AcceptedQuotasMet`). The integer classes "1" and "01" are accepted
  and fail (`TrainingInput.CollidingClasses`), and so do "1" as Int32 and "1.0" as Float64, whose
  values differ (`TrainingInput.MixedNumberClasses`).
- A storage prefix with a dot or an empty segment passes planning and then refuses every published
  Bundle (`ArtifactPaths.UnspelledPrefixRefused`, `DotPrefixNeverPublishes`); so does an S3 bucket
  written with a slash at an end (`ArtifactPaths.SlashedBucketNeverPublishes`).
- A shared bucket whose normalised form ends in white space is the one case where an accepted
  manifest does not resolve to the published place (`ArtifactPaths.SharedRoundTrip`); the bucket
  "/d /." is one (`ArtifactPaths.SpacedBucketMisses`).
- The adaptive batch size meets the target number of batches exactly when the configured maximum
  leaves room for it (`Batching.TargetMetIff`).

## Model

| member | source | states |
|---|---|---|
| `ConsumerSwitch.Deployer.Operate` | deploy/production/consumer-only/deploy.py:786-846 | over any run of applies and rollbacks, each failing or dying at any call, no state ever lets both Consumers run, every start follows a passed check, other Deployments are untouched, and an unfinished switch is stuck only in the two known ways |
| `ConsumerSwitch.Deployer.Execute` | deploy/production/consumer-only/deploy.py:786-846 | no command replaces the snapshots of an unfinished switch; a stuck switch rejects every command unchanged, and any other can be rolled back when the calls succeed |
| `ConsumerSwitch.StuckExactly` | deploy/production/consumer-only/deploy.py:580-588 | an unfinished switch with a true journal is not recognised exactly when the known target is gone or an unrecorded one is there |
| `ConsumerSwitch.DeletionStrands` | deploy/production/consumer-only/deploy.py:598-603 | deleting the new Deployment before saying so is the first way |
| `ConsumerSwitch.ApplyStrands` | deploy/production/consumer-only/deploy.py:708-712 | applying a new Deployment before journalling its identity is the second, with the Deployment wanting Pods |
| `ConsumerSwitch.FirstDeploymentStrands` | deploy/production/consumer-only/deploy.py:580-716 | both happen at a first deployment, from states its switch goes through |
| `ConsumerSwitch.Deployer.SwitchAndBack` | deploy/production/consumer-only/deploy.py:580-745 | an apply that failed anywhere past its journal, then rollbacks until one returns, leaves both Consumers exactly as before the apply |
| `ConsumerSwitch.Deployer.Deploy` | deploy/production/consumer-only/deploy.py:607-745 | which applies are refused untouched, that the same release changes nothing, the order of a completed switch and its journal, and what every failure leaves behind; while the calls work, an accepted switch succeeds or has been rolled back with both Consumers as before |
| `ConsumerSwitch.Deployer.Restore` | deploy/production/consumer-only/deploy.py:580-604 | a restore that returns has each snapshot back at its recorded spec and no target that was not there; one that fails recognition changes nothing; without faults it returns exactly when it recognises the Deployments |
| `ConsumerSwitch.Deployer.RollBack` | deploy/production/consumer-only/deploy.py:825-837 | the manual rollback: its guards, its effect on both Consumers, and the only journal changes it can make |
| `ConsumerSwitch.Deployer.Begin` | deploy/production/consumer-only/deploy.py:678-745 | past the guards a switch completes, or nothing has changed, or the journal can undo it; while the calls work, one that fails is journalled as rolled back and both Consumers are as before |
| `ConsumerSwitch.Deployer.RollBackAfterFailure` | deploy/production/consumer-only/deploy.py:724-745 | keeps the snapshots, and a journal that says rolled back is true; while the calls work, whatever is recognised is restored and journalled so |
| `ConsumerSwitch.Deployer.Switch` | deploy/production/consumer-only/deploy.py:694-716 | stop everything recorded, check again, start, wait and journal, in that order |
| `ConsumerSwitch.Deployer.StartNew` | deploy/production/consumer-only/deploy.py:707-716 | the new Consumer is applied only after a check and while the old one cannot run |
| `ConsumerSwitch.Deployer.Record` | deploy/production/consumer-only/deploy.py:709-716 | the journal names the identity and the spec of what was started |
| `ConsumerSwitch.KnownAccepted` | deploy/production/consumer-only/deploy.py:581-588 | a target whose identity is journalled is recognised as long as it is there |
| `ConsumerSwitch.StoppedAccepted` | deploy/production/consumer-only/deploy.py:695-707 | with everything stopped and nothing started a restore recognises what is there |
| `ConsumerSwitch.Deployer.Prepare` | deploy/production/consumer-only/deploy.py:658-677 | nothing is changed, and the snapshots are the Deployments as they stand; refused exactly for a foreign target or a missing old Consumer |
| `ConsumerSwitch.Deployer.Unchanged` | deploy/production/consumer-only/deploy.py:628-653 | reports an unchanged deployment only while identity, ownership and spec match the journal and enough replicas are ready |
| `ConsumerSwitch.Deployer.StopRecorded` | deploy/production/consumer-only/deploy.py:695-703 | every recorded Deployment is at rest, otherwise as recorded, old one first |
| `ConsumerSwitch.Deployer.ScaleDown` | deploy/production/consumer-only/deploy.py:338-355 | returns only when the Deployment wants no replicas and has no Pods, and changes nothing but its replica count |
| `ConsumerSwitch.Deployer.StopReplacement` | deploy/production/consumer-only/deploy.py:581-593 | recognition first, then stop, journal and check; nothing touched when recognition fails |
| `ConsumerSwitch.JournalApplied` | deploy/production/consumer-only/deploy.py:708-712 | applying the target, or failing to, keeps a journal true that says nothing of it yet |
| `ConsumerSwitch.Deployer.AssertIdentities` | deploy/production/consumer-only/deploy.py:581-588 | passes exactly when every snapshot and the target are the ones the journal knows |
| `ConsumerSwitch.Deployer.AssertIdentity` | deploy/production/consumer-only/deploy.py:488-495 | passes exactly for the expected identity and, where asked, ownership |
| `ConsumerSwitch.Deployer.Reapply` | deploy/production/consumer-only/deploy.py:594-597 | puts the snapshots back in order without both Consumers ever being able to run, wherever a call fails |
| `ConsumerSwitch.Deployer.PutBack` | deploy/production/consumer-only/deploy.py:594-601 | both Consumers as recorded, a target that was absent removed, others untouched |
| `ConsumerSwitch.RestoreStep` | deploy/production/consumer-only/deploy.py:594-597 | re-applying one snapshot, failed or not, keeps the restore recoverable and advances it when the effect happened |
| `ConsumerSwitch.RestoreStarts` | deploy/production/consumer-only/deploy.py:581-590 | recognised and with the target at rest, each snapshot that wants replicas is free to start |
| `ConsumerSwitch.BackInPlace` | deploy/production/consumer-only/deploy.py:594-601 | all snapshots re-applied and an unrecorded target deleted is the state before the switch |
| `ConsumerSwitch.StopStep` | deploy/production/consumer-only/deploy.py:695-703 | stopping one more recorded Deployment, failed or not, keeps what is already stopped |
| `ConsumerSwitch.SwitchDone` | deploy/production/consumer-only/deploy.py:708-716 | everything stopped and the target applied is the completed switch |
| `ConsumerSwitch.SnapshotFacts` | deploy/production/consumer-only/deploy.py:665-677 | snapshots have distinct names and are exactly the old Consumer and the target where they exist |
| `ConsumerSwitch.FreshJournal` | deploy/production/consumer-only/deploy.py:678-693 | a journal taken past the guards can undo the switch it starts |
| `ReleaseSwitch.Releaser.Operate` | deploy/production/deploy.py:411-650 | over any run of applies and rollbacks with faults anywhere, previous and new Consumer never both want replicas, the new one is never started without the preflight of its apply, the count to go back to is the previous Consumer's at the start of a run without a journal and never changes, and nothing else is touched |
| `ReleaseSwitch.Releaser.Apply` | deploy/production/deploy.py:415-650 | which applies are refused with nothing changed (among them every one during an unfinished switch or with other Consumers than the journal's), that the first journal is kept, what success means; while the calls work, an accepted apply succeeds or has been rolled back |
| `ReleaseSwitch.Releaser.Install` | deploy/production/deploy.py:533-647 | the count to go back to is the one at the first switch, and a journal that says rolled back is true |
| `ReleaseSwitch.Releaser.SwitchOver` | deploy/production/deploy.py:623-647 | previous off before new on, journal true in every outcome; while the calls work, a switch that fails has been undone |
| `ReleaseSwitch.Releaser.RestoreSwitch` | deploy/production/deploy.py:391-409 | new off before previous back to its recorded count; Consumers that are not the journal's are left alone, and nothing else stands in the way |
| `ReleaseSwitch.Releaser.RollBack` | deploy/production/deploy.py:411-414 | goes back from any state of a journal whose Consumers are still the ones recorded, and changes nothing otherwise |
| `ReleaseSwitch.KnownGoesBack` | deploy/production/deploy.py:365-409 | targets that pass validation are all a restore needs: new off and previous at its count is back where the journal says, exclusive throughout and still valid |
| `ReleaseSwitch.ScaledExclusive` | deploy/production/deploy.py:393-401 | giving one Consumer replicas while the other wants none keeps them exclusive |
| `ReleaseSwitch.AppliedSwitches` | deploy/production/deploy.py:534-534 | creating the release at rest keeps every identity a journal relies on |
| `Events.ScriptSound` | src/tributo_knova/reporter.py:12-37 | the script keeps at most one terminal event, last, and a retained suffix; it refuses exactly an ended stream, and admits an admission only into an empty one |
| `Events.AppendSound` | src/tributo_knova/reporter.py:33-36 | appending and trimming keep the newest events |
| `Events.NewestRetained` | src/tributo_knova/reporter.py:13-23 | looking at the newest retained entry decides whether the whole history has ended |
| `Events.TrimmedReplay` | src/tributo_knova/reporter.py:146-174 | after trimming, every field some retained event carries is recovered with its latest value |
| `Events.ReplayKeys` | src/tributo_knova/reporter.py:163-174 | exactly the fields some event carries are recovered |
| `Reporters.EventShape` | src/tributo_knova/reporter.py:341-475 | an event is terminal exactly when its call is, of the same kind, and always says its phase |
| `Reporters.EventCarries` | src/tributo_knova/reporter.py:341-475 | every progress field is the call's, else the last known, else zero; a completion says 100 percent |
| `Reporters.PhaseKept` | src/tributo_knova/reporter.py:258-264 | a failure or cancellation without a phase of its own is reported where the work stood; phases stay within the protocol's names |
| `Reporters.CallPhaseGiven` | src/tributo_knova/reporter.py:348-348 | any other call speaks of the phase it names, or of the reporter's |
| `Reporters.PhaseTable` | src/tributo_knova/reporter.py:39-61 | the broker's phases as the two protocols name them |
| `Reporters.WireKind` | src/tributo_knova/reporter.py:341-475 | what every kind of call is called on the wire |
| `Reporters.ReportsCarried` | src/tributo_knova/reporter.py:371-463 | metrics, starts, completions and failures carry what they are about |
| `Reporters.CheckExact` | src/tributo_knova/reporter.py:178-200 | which interrupt a check raises, exactly when, and in which phase: cancellation first, then the deadline |
| `Reporters.ConfigureExact` | src/tributo_knova/reporter.py:202-216 | a limit counts from the request's reception, and the earlier deadline stays |
| `Reporters.PublishExact` | src/tributo_knova/reporter.py:248-330 | a call appends its event exactly when it fits, nothing has ended, no check stops a completion and an admission comes first; the reporter keeps what it told, or learns that the stream has ended; when it raises |
| `Reporters.RestoreIsReplay` | src/tributo_knova/reporter.py:141-176 | newest first with missing keys filled in is the replay oldest first with overwriting, and closed exactly when a retained event is terminal |
| `Reporters.RestoredPhase` | src/tributo_knova/reporter.py:161-162 | the phase is the newest event's |
| `Sessions.TerminalExclusion` | src/tributo_knova/reporter.py:12-37 | over every interleaving of any reporters: one terminal event at most, nothing after it, exactly the newest events within the bound retained, and local closed flags true |
| `Sessions.RunCoherent` | src/tributo_knova/reporter.py:248-330 | the invariant of every interleaving, and that an ended stream never changes again |
| `Sessions.PublishCoherent` | src/tributo_knova/reporter.py:248-330 | one call keeps the invariant and appends its own event or nothing |
| `Sessions.EmitExact` | src/tributo_knova/reporter.py:248-330 | in every state that can be reached a call appends its event exactly when it delivers it, and otherwise leaves the stream alone |
| `Sessions.AdmissionComesFirst` | src/tributo_knova/reporter.py:24-28 | an admission is recorded only as the first event |
| `Sessions.CompletionRespectsLimit` | src/tributo_knova/reporter.py:189-216 | once a limit is set, whatever happens in between, completion is published only before it and with no cancel key seen |
| `Sessions.RunKeepsLimit` | src/tributo_knova/reporter.py:202-216 | no call moves a reporter's deadline later |
| `Sessions.RunKnows` | src/tributo_knova/reporter.py:314-329 | a single writer's snapshot is the replay of the whole history while the stream is open |
| `Sessions.FirstReporterKnows` | src/tributo_knova/reporter.py:131-139 | the first reporter of a new operation starts out knowing its stream |
| `Sessions.SuccessorRecovers` | src/tributo_knova/reporter.py:141-176 | a replacement agrees with the writer on every retained field and on the phase, and on everything when nothing was trimmed |
| `Sessions.SuccessorReports` | src/tributo_knova/reporter.py:452-463 | while the stream fits its bound, a replacement that cancels an inference reports exactly the writer's progress |
| `Runtime.Redis.Eval` | src/tributo_knova/reporter.py:12-37 | the script on the stream object is the script the theorems are about |
| `Runtime.KnovaReporter.constructor` | src/tributo_knova/reporter.py:131-139 | a new reporter is a fresh one that has read back the retained events |
| `Runtime.KnovaReporter.RestoreSnapshot` | src/tributo_knova/reporter.py:141-176 | the loop over the entries, newest first, computes the restored value |
| `Runtime.KnovaReporter.CheckControl` | src/tributo_knova/reporter.py:178-200 | the check on the object is the check on values, whose interrupts `Reporters.CheckExact` gives |
| `Runtime.KnovaReporter.ConfigureTimeout` | src/tributo_knova/reporter.py:202-216 | the limit on the object is the limit on values |
| `Runtime.KnovaReporter.Publish` | src/tributo_knova/reporter.py:248-330 | publishing on the object, reporter and stream together, is publishing on values, which `Reporters.PublishExact` describes |
| `Drivers.Driver.Drive` | src/tributo_knova/execution_driver.py:351-438 | the stream ends with exactly one terminal event however dispatch ends; alone on the stream, it is COMPLETED exactly for exit code 0, CANCELLED exactly when the check that ended the run saw the cancel key or the execution gave up as cancelled, every step taken is told in order, and completion respects the cancel key, the deadline and every limit set |
| `Drivers.Driver.Attempt` | src/tributo_knova/execution_driver.py:353-379 | a check before and after preparation, each of which stops the run where it stands; a stream nobody else ends is completed exactly when nothing is raised |
| `Drivers.Driver.Dispatch` | src/tributo_knova/execution_driver.py:318-330 | steps in order, each told in the open stream, completion last and only past a check; what ends it is a check, the execution itself or an event too large |
| `Drivers.Driver.Do` | src/tributo_knova/reporter.py:178-330 | one call: an event that fits is in the open stream, a check raises exactly what it saw, a limit is set |
| `Drivers.Driver.Complete` | src/tributo_knova/reporter.py:255-256 | the completion is published only past a check, and what it raises otherwise |
| `Drivers.OversizedPhase` | src/tributo_knova/training.py:1780-1809 | a training completion that is too large is reported as a failure of evaluating, an inference one in the phase the reporter is in |
| `Drivers.Driver.Report` | src/tributo_knova/execution_driver.py:380-438 | one terminal event of the right kind for every failure, unless another writer was first |
| `Drivers.NoticePhase` | src/tributo_knova/execution_driver.py:380-436 | an interrupt, or a failure without a phase of its own, is reported with its kind in the phase the reporter is in |
| `Drivers.CallEnds` | src/tributo_knova/reporter.py:255-315 | a terminal call that fits and passes its check ends the stream |
| `Drivers.CallKeeps` | src/tributo_knova/reporter.py:255-330 | any call keeps stream and flag sound, drops no deadline, and ends the stream only if it is terminal |
| `Relational.FilterRun` | src/tributo_knova/training.py:1109-1150 | a chain of filter steps keeps the rows that satisfy all conditions |
| `Relational.ChoosingRun` | src/tributo_knova/inference.py:834-879 | filters in sequence and one limit choose the rows of WHERE and LIMIT |
| `Relational.ChosenScan` | src/tributo_knova/training.py:953-959 | choosing after reading columns is choosing before, when the filtered columns are read |
| `TrainingQuery.ColumnMapping` | src/tributo_knova/training.py:574-587 | accepted exactly when sources and results correspond one to one; the mapping and its order |
| `TrainingQuery.MappingFacts` | src/tributo_knova/training.py:579-587 | the accepted mapping is injective, so renaming loses no column |
| `TrainingQuery.ProjectionColumns` | src/tributo_knova/training.py:778-805 | accepted exactly for distinct columns under distinct names of the one table |
| `TrainingQuery.NativeClickhouseRead` | src/tributo_knova/training.py:1079-1159 | accepts exactly the statements that read the declared columns with typed filters using every parameter; filters, limit, then selection |
| `TrainingQuery.MakePlan` | src/tributo_knova/training.py:953-998 | the plan of accepted steps: required and filter columns read once each, renaming last |
| `TrainingInput.Ingestion` | src/tributo_knova/training.py:920-1016 | accepts exactly the plain statements of unbalanced and the per-class statements of balanced requests, and returns plan and quotas; a balanced one is read without steps |
| `TrainingInput.TrainingRowsMayBeDenoted` | src/tributo_knova/training.py:219-247 | for both forms and every way to keep one row per entity, training runs on rows the statement may denote if and only if the reduction costs it nothing |
| `TrainingInput.UnreducedRowsDenoted` | src/tributo_knova/training.py:219-247 | without an entity key they are the very rows the statement denotes, in order |
| `TrainingInput.SingleRows` | src/tributo_knova/training.py:229-244 | for one SELECT the reduction keeps the same rows, up to their order, exactly when no two share an entity |
| `TrainingInput.PerClassRows` | src/tributo_knova/training.py:182-247 | for a balanced statement the sample is one the statement may give exactly when enough of every class is left |
| `TrainingInput.DistinctEntitiesSuffice` | src/tributo_knova/training.py:229-244 | a read without a repeated entity is enough for either form and every order of the groups |
| `TrainingInput.SharedEntity` | src/tributo_knova/training.py:229-247 | an accepted request with classes told apart and a table on which, whichever row is kept, training misses a row the statement must give |
| `TrainingInput.CollidingClasses` | src/tributo_knova/training.py:902-917 | an accepted request whose two classes decode to one value, with quotas that some rows do not meet |
| `TrainingInput.MixedNumberClasses` | src/tributo_knova/training.py:868-917 | the same for two different values of different types that the engine equates |
| `TrainingMeaning.PlanMeansQuery` | src/tributo_knova/training.py:953-998 | over every table the plan of an accepted statement yields exactly the rows that pass its conditions, up to its limit, each with its select list's names and cells |
| `SqlMeaning.ResolveExact` | src/tributo_knova/training.py:1131-1149 | a condition resolves exactly when its parameter is there and decodes, to its own comparison |
| `SqlMeaning.WantedAreKept` | src/tributo_knova/training.py:1109-1150 | filtering by resolved conditions keeps the rows that pass the conditions |
| `SqlMeaning.ProjectedItems` | src/tributo_knova/training.py:785-805 | projecting by the select list's mapping is reading its items |
| `SqlMeaning.AnswerIsSql` | src/tributo_knova/training.py:1079-1159 | the answer of the resolved query is what the statement means |
| `TrainingMeaning.OutputColumns` | src/tributo_knova/training.py:1155-1158 | each output row has the result columns only, each with its declared cell; filter-only columns do not survive |
| `TrainingMeaning.RenameProjects` | src/tributo_knova/training.py:990-998 | selecting the sources and renaming all at once is projecting |
| `TrainingMeaning.ColumnsRead` | src/tributo_knova/training.py:953-959 | every required and every filtered column is read |
| `ClassBalance.ClassAmountSampler` | src/tributo_knova/training.py:808-917 | accepts exactly the balanced statements, and the quotas it returns |
| `ClassBalance.ReadBranch` | src/tributo_knova/training.py:868-911 | one branch is accepted exactly when it reads the declared columns of a known class for its amount with a typed value |
| `ClassBalance.CheckAmounts` | src/tributo_knova/training.py:830-839 | amounts are accepted exactly when each class has a name and a positive amount and there is one |
| `ClassBalance.BranchesMatchClasses` | src/tributo_knova/training.py:845-916 | equal counts and full coverage make branches and classes correspond one to one, each with its own amount |
| `ClassBalance.NoRepeats` | src/tributo_knova/training.py:846-847 | as many entries as values leaves none twice |
| `ClassBalance.SampledReadMeansUnion` | src/tributo_knova/training.py:182-192 | on the whole read, the union of filtered and limited branches is what the UNION ALL of the branches' own statements means |
| `ClassBalance.BranchMeans` | src/tributo_knova/training.py:188-191 | one quota on result columns is its branch's statement on source columns |
| `ClassBalance.SampleSize` | src/tributo_knova/training.py:188-192 | the sample has, per quota, the smaller of quota and class count |
| `ClassBalance.QuotasMetIffApart` | src/tributo_knova/training.py:175-192 | for any symmetric and transitive equality, every class gets exactly its share of any rows the sampler is given if and only if no two quota values are equated |
| `ClassBalance.SqlEqualityOk` | src/tributo_knova/training.py:188-191 | equality with NULL equal to nothing and 1 equal to 1.0 is one of those |
| `ClassBalance.AcceptedQuotasMet` | src/tributo_knova/training.py:845-917 | for an accepted request, exactly when the engine equates no two of its decoded classes |
| `EntityGrain.DuplicatesDetected` | src/tributo_knova/training.py:229-244 | whichever row of each entity is kept, the count drops, and rows are lost, exactly when some entity occurs twice |
| `EntityGrain.FirstRowsQualify` | src/tributo_knova/training.py:200-234 | keeping first rows is one such choice |
| `EntityGrain.NoEntityTwice` | src/tributo_knova/training.py:182-247 | of classes told apart, every sampled row is left of the read, of a class, and no entity is sampled twice |
| `EntityGrain.BranchOfFew` | src/tributo_knova/training.py:188-191 | one quota takes rows of its class from the read, each entity once, and as many as from the whole read exactly when enough are left |
| `EntityGrain.SharesAfterReduction` | src/tributo_knova/training.py:229-247 | of classes told apart, each gets its share of the whole read exactly when the reduction leaves its quota, or all of it |
| `InferenceQuery.QueryTransforms` | src/tributo_knova/inference.py:801-879 | accepted exactly when aliases match and every filter is typed; filters first, at most one limit last |
| `InferenceQuery.InputLayout` | src/tributo_knova/inference.py:731-798 | accepted exactly when the projection is the declared one; the columns read and the steps |
| `InferenceQuery.FeatureNamesDiffer` | src/tributo_knova/inference.py:939-961 | an accepted layout names its features apart |
| `InferenceQuery.InputMeansQuery` | src/tributo_knova/inference.py:731-798 | the rows that reach the model are those that pass the statement's conditions, up to its limit, and named by their declarations they are the rows it means |
| `InferenceQuery.MeasureInputRows` | src/tributo_knova/inference.py:1417-1484 | counts exactly when every step can be counted, every column is there and text meets text; then the rows of all filters, cut by the limit |
| `InferenceQuery.CountRowsIsKept` | src/tributo_knova/inference.py:1420-1440 | each clause is compared with its own filter's value |
| `InferenceQuery.MeasureAgrees` | src/tributo_knova/inference.py:1419-1484 | for every pipeline the mapping builds, the count is the length of the output |
| `InferenceQuery.EmptyInputExact` | src/tributo_knova/inference.py:1419-1484 | the count is the number of rows that would reach the model, so zero exactly when there is none |
| `InferenceQuery.LayoutCountable` | src/tributo_knova/inference.py:1152-1164 | an accepted layout has only countable steps and reads every column it filters |
| `InferenceQuery.WrappedType` | src/tributo_knova/inference.py:1467-1477 | a type is compared as text as its inner type is, once nullable or once in a dictionary |
| `InferenceQuery.LimitFirstIff` | src/tributo_knova/inference.py:1420-1423 | with a limit before the filters the count would be right exactly when the limited rows all pass or none after them does |
| `InferenceQuery.Sink.PrepareModel` | src/tributo_knova/inference.py:563-605 | accepted exactly when model and declared names agree; the sink's columns and names follow the model's order |
| `InferenceQuery.TensorAligned` | src/tributo_knova/inference.py:575-583 | each tensor position is the declared column of the name the model has there |
| `InferenceQuery.TensorPermutes` | src/tributo_knova/inference.py:575-582 | the tensor's columns are a permutation of the declared ones |
| `InferenceQuery.DeclarationOrderIrrelevant` | src/tributo_knova/inference.py:575-582 | any order of declaration gives the same columns |
| `Batching.BaseWithinBounds` | src/tributo_knova/inference.py:1353-1368 | the base batch lies between one and both the measured rows and the maximum |
| `Batching.TargetMetIff` | src/tributo_knova/inference.py:1343-1368 | the target number of batches is met exactly when the size it needs is within the maximum |
| `Batching.BaseExact` | src/tributo_knova/inference.py:1343-1368 | the base is the smallest size from the minimum on that keeps to the target, as far as rows and maximum go |
| `Batching.BoundsTaken` | src/tributo_knova/inference.py:1348-1359 | the requested bounds hold unless they are the wrong way round |
| `Batching.TargetTaken` | src/tributo_knova/inference.py:1343-1347 | twenty batches unless another positive number is asked for |
| `Batching.PolicyTakesOptions` | src/tributo_knova/inference.py:1361-1390 | every requested size and concurrency is what an accepted request gets |
| `Batching.MeasuredAccepted` | src/tributo_knova/inference.py:1361-1370 | what is accepted before the rows are counted is accepted after |
| `Batching.SinkDefaultSmall` | src/tributo_knova/inference.py:1380-1384 | the default sink batch exceeds neither base, minimum nor 50000 |
| `Batching.RetryAccepted` | src/tributo_knova/inference.py:1361-1379 | a retry runs with exactly the batch it asks for, and is refused only if the first attempt was |
| `Batching.HalvedMeans` | src/tributo_knova/inference.py:2162-2162 | halving k times is dividing by two to the k, rounded down |
| `Batching.TenthsMonotone` | src/tributo_knova/inference.py:1918-1921 | the published percentage never falls as rows are processed and stays below 100 |
| `Batching.RoundDivNearest` | src/tributo_knova/inference.py:1918-1921 | rounding is to the nearest tenth |
| `Batching.TenthsNearest` | src/tributo_knova/inference.py:1918-1921 | the published tenths are the nearest to the share processed, capped at 999 |
| `Batching.TiesToEven` | src/tributo_knova/inference.py:1918-1921 | halfway the even tenth is taken |
| `InferenceRun.InferenceProgress.Pump` | src/tributo_knova/inference.py:1898-1927 | processed is the sum of the batches taken, fewer than an interval of rows is unreported, events times interval never exceed processed, and reports rise |
| `InferenceRun.SpacedCount` | src/tributo_knova/inference.py:1911-1925 | reports an interval apart are at most processed rows divided by the interval |
| `InferenceRun.AccountsPublished` | src/tributo_knova/inference.py:1911-1925 | one more report keeps the account rising and spaced |
| `InferenceRun.Execution.Write` | src/tributo_knova/inference.py:1975-2076 | whatever fails before the write leaves nothing written, it writes once, and the last report has the rows of all batches |
| `InferenceRun.Execution.TryOnce` | src/tributo_knova/inference.py:2123-2141 | a rebuilt request and sink carry the prepared model, binding, columns and names instead of the declared ones, and an attempt writes at most once |
| `InferenceRun.Execution.Attempts` | src/tributo_knova/inference.py:2122-2182 | at most four attempts, each with the prepared model, binding and column order and the batch halved once more, at least one; every attempt but the last ran out of memory before the write with a batch to halve, left alone the last did not unless it was the fourth, its result is the run's outcome, and only it may have written |
| `InferenceRun.Execution.Prepare` | src/tributo_knova/inference.py:2093-2103 | the layout, the policy and the model's names decide, and the prepared request follows the model's order |
| `InferenceRun.Execution.CountInput` | src/tributo_knova/inference.py:2103-2104 | the number counted is the number of rows that reach the model |
| `InferenceRun.Execution.Finish` | src/tributo_knova/inference.py:2183-2207 | the closing events, either of which may fail after the write, end the progress at 100 percent |
| `InferenceRun.Execution.ExecuteInference` | src/tributo_knova/inference.py:2093-2207 | attempts are made only on input rows, whenever there are any, and sized by their number; retries follow memory alone and the last attempt decides the outcome; a completed run wrote exactly once and its progress rose to 100 percent, with all rows, at the very end; EMPTY_INPUT is raised only, and with nothing else in the way always, when no row reaches the model |
| `InferenceRun.PolicyBatch` | src/tributo_knova/inference.py:2123-2125 | the batch of a rebuilt request is the one the retry asked for |
| `Topology.CheckTopology` | src/tributo_knova/validation.py:70-124 | accepts exactly the tables and relations that grow from one primary table to all the others |
| `Topology.ReadTables` | src/tributo_knova/validation.py:74-90 | accepts exactly well-formed tables with distinct aliases and at most one primary, which it finds |
| `Topology.CheckForm` | src/tributo_knova/validation.py:109-120 | a relation is well formed exactly with a known join type and columns on both sides of every condition |
| `Topology.AcceptedIsTree` | src/tributo_knova/validation.py:94-123 | one relation fewer than tables, every other table joined by exactly one relation, and exactly one walk from the primary to each table |
| `Topology.ConnectedReachable` | src/tributo_knova/validation.py:95-121 | every connected table can be walked to |
| `Topology.OnePath` | src/tributo_knova/validation.py:98-104 | two walks to one table are the same |
| `Labels.AllCodesDiffer` | src/tributo_knova/validation.py:169-170 | as many codes as labels leaves no code shared |
| `Labels.LabelsRoundTrip` | src/tributo_knova/training.py:282-306 | labels are encoded exactly when all are mapped, as class codes that both ways back turn into the original labels |
| `Labels.CodesRoundTrip` | src/tributo_knova/inference.py:1683-1692 | every class code is written as the label that encodes to it |
| `Labels.CodesPreserved` | src/tributo_knova/training.py:285-305 | numeric targets pass unchanged exactly when they are classes |
| `Labels.MixedColumnRefused` | src/tributo_knova/training.py:282-303 | a column with a missing cell, or of labels and numbers together, is refused |
| `Labels.StrInjective` | src/tributo_knova/training.py:1513-1517 | codes written as text stay different, so the report's inverse loses none |
| `Paths.NormpathWalks` | src/tributo_knova/training.py:1314-1316 | normalising a path is walking its segments: enter a name, leave by "..", stay at the root |
| `Paths.NormpathLeaves` | src/tributo_knova/training.py:1314-1316 | entering a name and leaving it again is staying |
| `Paths.NormpathEnters` | src/tributo_knova/training.py:1314-1316 | entering a name adds it |
| `Paths.NormpathAtRoot` | src/tributo_knova/training.py:1314-1316 | there is nothing above the root |
| `Paths.ParentsStay` | src/tributo_knova/training.py:1295-1295 | a relative path keeps the parents it starts with |
| `Paths.NormpathIdempotent` | src/tributo_knova/training.py:1314-1316 | normalising twice is normalising once |
| `Paths.ContainedIff` | src/tributo_knova/training.py:1295-1302 | the containment test passes exactly for a plainly spelled outer path strictly above by segments |
| `Paths.NormpathShortens` | src/tributo_knova/inference.py:192-192 | normalising never lengthens an absolute path |
| `Paths.RelpathBelow` | src/tributo_knova/training.py:1330-1330 | the relative path to something below is its remaining segments |
| `ArtifactPaths.S3AcceptedIff` | src/tributo_knova/training.py:1289-1305 | an S3 Bundle is accepted exactly when walking its path leads strictly below a plainly spelled prefix |
| `ArtifactPaths.SharedAcceptedIff` | src/tributo_knova/training.py:1313-1326 | a shared Bundle is accepted exactly when its path is absolute and walking it leads strictly below where the bucket and a plainly spelled prefix lead |
| `ArtifactPaths.EscapeRefused` | src/tributo_knova/training.py:1313-1326 | a Bundle whose path leaves the requested prefix by ".." is refused however it begins |
| `ArtifactPaths.PrivateBundleRefused` | src/tributo_knova/training.py:1313-1326 | such a Bundle under "/srv/models" is refused |
| `ArtifactPaths.S3RoundTrip` | src/tributo_knova/inference.py:174-209 | a manifest path inference accepts resolves to the Bundle's normalised S3 location and that path, strictly below the requested root |
| `ArtifactPaths.SharedRoundTrip` | src/tributo_knova/inference.py:174-209 | the same for shared storage, exactly when the normalised bucket ends in no white space |
| `ArtifactPaths.PublishedFileFound` | src/tributo_knova/training.py:1426-1450 | every published file inference accepts is found where it was put, for both kinds of storage |
| `ArtifactPaths.FoundInPlace` | src/tributo_knova/inference.py:200-209 | where a published shared file is found needs no further normalising |
| `ArtifactPaths.ManifestStaysInBucket` | src/tributo_knova/inference.py:174-209 | whatever a manifest says, what is accepted of it for shared storage leads strictly below its bucket |
| `ArtifactPaths.ManifestPathSegments` | src/tributo_knova/training.py:1426-1426 | a file of an artifact lies below the artifact's directory |
| `ArtifactPaths.SpacedBucketMisses` | src/tributo_knova/inference.py:141-192 | with the bucket "/d /." a published and accepted file is looked for somewhere else |
| `ArtifactPaths.UnspelledPrefixRefused` | src/tributo_knova/training.py:1296-1305 | a prefix not spelled out by its segments refuses every Bundle |
| `ArtifactPaths.DotPrefixNeverPublishes` | src/tributo_knova/training.py:521-525 | the prefix "." is accepted for planning and then never publishes |
| `ArtifactPaths.SlashedBucketNeverPublishes` | src/tributo_knova/training.py:1289-1294 | an S3 bucket that contains a slash never publishes |
| `ArtifactPaths.SlashedBucketPlanned` | src/tributo_knova/training.py:556-559 | a bucket with a slash at its end is accepted for planning |
| `ArtifactPaths.PrefixIsForm` | src/tributo_knova/training.py:521-525 | an accepted prefix is not empty, has no slash at either end and no parent segment |

## Left out

- kubectl, Redis, Ray, ClickHouse, S3, JSON encoding and hashing themselves: apply replaces labels and spec and keeps the identity, the script is atomic, a journal write is a rename, and equal comparison in SQL and in the engine is one function.
- ConsumerSwitch.Deployer.RollBackAfterFailure: when calls fail during the rollback itself the journal still tells what can be undone, and undoing it is a rollback by hand.
- Calls that take effect after they have been given up on, other actors editing the cluster during a command, and two deployers at once; a Deployment keeps its identity unless it is deleted.
- A cluster that already runs both Consumers at the start: safety is shown from states in which at most one of them may run, and in which neither has Pods left without its Deployment.
- `probe.require_idle` set to false, which only `apply` refuses; a rollback's check is then no proof that the system is idle.
- Pods in the RayCluster deployer: it waits for `rollout status`, which may return while Pods still terminate, so the claim there is about desired replicas. Journals without a `state` field and journals of another context are not modelled either.
- ReleaseSwitch.Releaser.Look: the preflight Job, the waits and the probe for active jobs are one call that may raise.
- ConsumerSwitch.Deployer.Restore: that a journal saying `rolled_back` is true holds after the restore that wrote it; a later rollback of an in-place update stops the target again before it writes its own phase.
- Snapshots and their identities are stored together in the model; `clean_document` removes only fields the model does not have, and a three-way merge of annotations is not modelled.
- Publishing through plain `xadd` on a client without `eval`, which is not atomic.
- Events larger than the size limit are modelled by whether they fit; a terminal event of the driver's own handlers is assumed to fit. The mapping of error codes and the text of messages carry no state.
- Drivers.Driver.Drive: starts from a reporter that exists; before that the driver exits with 1 and publishes nothing. An execution is its sequence of reporter calls, its failure, or its completion as the last act. A progress thread that outlives its ten-second join is not modelled.
- Regular expressions and SQL text; parsing into projection, conditions and limit is where the models begin. Row order is that of the table sequence; ClickHouse may choose other rows for a LIMIT without ORDER BY.
- TrainingInput.TrainingRowsMayBeDenoted: two rows are of one entity when their key cells are the same value, so rows with a NULL key are one entity; the final selection of feature and target columns is not modelled.
- InferenceRun.Execution.CountInput: a failed connection or statement is one outcome beside the refusals, without its error code.
- Floating point: percentages are exact and rounded to tenths, halves to even, and the adaptive size uses an integer ceiling where the code divides floats.
- ConsumerSwitch.Deployer.WriteJournal: a temporary file and a rename are one step that lands whole or not at all.
- InferenceRun.Execution.RunInference: that failures reported as materialization precede the write is proved for the sink and assumed of the runtime around it.
- Boolean and mixed-type target columns, label columns of encoded text digits read as numbers by pandas, and the binary threshold labels.
- Uniqueness of feature ids, enumerations, numeric bounds and the other one-field checks of request validation.
- Leading double slashes, paths relative to a working directory, and queries or fragments in S3 URIs.
- Model verification, normalisation and export, explanation models, metrics, credentials, logging, manifests and the acceptance and packaging scripts.
