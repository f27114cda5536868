# Change-drift operator: a verified model

The operator watches maintenance windows (CHGs) on a fleet of clusters. An agent on every cluster writes reports
about its applications; the aggregator turns the reports of one application into one row per target cluster; the
change-window reconciler reads those rows, evaluates eleven gates, drives the phase of the window, keeps a timeline,
retries, reports and signs its conclusion; a Kafka consumer creates the windows. This project models that logic in
Dafny and proves what it keeps over whole runs.

## How it is organised

| file | what it holds |
|---|---|
| `base.dfy`, `text.dfy`, `model.dfy` | options, clock and duration arithmetic; Go's string operations; the records |
| `gates.dfy`, `gate_loops.dfy`, `gate_theorems.dfy`, `gate_states.dfy`, `gate_words.dfy`, `gate_issues.dfy`, `gate_orders.dfy` | the gate evaluator: its value, its nested loops, its order-free meaning, its three states, what it says, its issues, and when the map order decides |
| `evidence.dfy`, `window.dfy`, `window_controller.dfy` | signed reports; one reconcile as a function; the same reconcile on a heap with shared pointers and slices |
| `runs.dfy`, `run_theorems.dfy`, `retries.dfy`, `refresh_runs.dfy`, `observations.dfy`, `reports.dfy`, `quiescence.dfy`, `steady_state.dfy` | runs of the reconciler, what they keep and what every stored field means |
| `ingest.dfy`, `ingested_runs.dfy` | the Kafka consumer with failures, crashes and replays; what becomes of the windows it creates |
| `gauges.dfy`, `propagation.dfy`, `propagation_controller.dfy`, `propagation_runs.dfy`, `gauge_runs.dfy` | metric gauges, aggregation, its loops, lag clock and gauges over runs |
| `local_report.dfy`, `events.dfy`, `object_changes.dfy` | the agent: diagnostics gating, event summary, annotation parser |
| `redundancy.dfy` | gates that never decide anything |
| `causal.dfy` | the causal graph, the DAG and the operator order |
| `end_to_end.dfy`, `end_to_end_apps.dfy`, `end_to_end_runs.dfy`, `example_run.dfy` | all of it as one transition system; whose reports count for which application; whole runs; runs that pass |

A controller that works step by step is a method or a class proved equal to a specification function; the theorems
are lemmas about that function. Reconciles are functions of the stored status, of everything they read and of the
clock; an explicit flag says whether the write went through. The order in which Go ranges over a map is a parameter,
constrained only to list every key once. Hashes, HMAC and JSON rendering are arbitrary functions (`Evidence.Env`).
Time is in whole seconds since Go's zero time. Runs assume a clock that never goes back.

Main results:

- A stored `Succeeded`, after any interleaving of report writes, object edits, aggregations on stale caches, window
  reconciles and failed writes, is backed by an unbroken block of stored passing reconciles spanning the stabilization
  period. Each found, application by application, the rows of one aggregation of an object found for that application,
  and through them what agents wrote in that very run: descriptors that said healthy, in sync and at the revision that
  object expected, and telemetry clean on all nine gates that look at every row (`EndToEndRuns.SuccessIsBacked`).
- Phase and overall status of every stored step are known both ways from the verdicts and the clock
  (`RunTheorems.PhaseAndOverall`, `StoredPhaseAndOverall`), and the stored report is that of the last step that
  concluded (`SignedReportMeaning`).
- The action records list exactly the stored steps that asked for a refresh when one was due: a greedy schedule with a
  maximum and a wait (`RefreshRuns.RefreshesExactly`).
- The gate loops mean an order-free formula for nine gates and the word of the last reporting row for two
  (`GateTheorems.GateMeaning`, `LastWriterGates`, `PassedMeaning`). False and Unknown are told apart over the whole map
  (`GateStates.FalseMeaning`, `UnknownMeaning`); every verdict quotes a row that is really like that, and the issues are
  exactly the objections there are (`GateWords.VerdictIsWarranted`, `IssuesExactly`). When Go's map order decides is
  known exactly
  (`GateOrders.StatusIgnoresOrderExactly`, `PassesInEveryOrderExactly`, `PassesInSomeOrderExactly`).
- The shallow parts of the generated deep copy are harmless (`WindowController.ChangeWindow.Reconcile`).
- Ingestion with crashes refines a crash-free first-delivery-wins fold, and a window holds, field by field, what the
  first event of its name asked for (`Ingest.CrashReplay`, `StoredExactlyIfAsked`).
- What the annotation grammars write is read back (`ObjectChanges.RoundTrip`).

Where a natural property fails, a lemma gives the input and another says exactly when it holds:

- The reports behind an application's rows can be another application's: an object is also found by its own name, and
  its spec may have named another application. They are its own, however the run goes on, exactly if the edits made so
  far agree on it (`EndToEndApps.OwnReportsExactly`, `ExampleRun.ForeignReportPasses`).
- A validation can pass without any row of an impacted application. It has rows exactly if some reconcile ever found an
  object for it (`EndToEndApps.RowsExactlyIfFound`, `ExampleRun.UnfoundApplicationPasses`).
- The same rows can pass in one map order and fail in another (`GateOrders.OrderFlipsVerdict`).
- `AllChangesApplied` can be False in one map order and Unknown in another: exactly when, off the hub, one application
  has a row out of sync and another has no rows (`GateStates.ChangesIgnoreOrderExactly`).
- Two different reports can share a checksum even under a collision-free hash, because its parts are joined by an
  unescaped colon; without colons in them they cannot (`Evidence.ChecksumBinds`, `SeparatorsMatter`).
- A passed validation can list issues, because a later row can turn the two last-writer gates back to True
  (`GateIssues.PassedListsIssues`, `PassesWithAnIssue`).
- A row can be `Lagging` before its revision was expected for the lag threshold: exactly when the expected revision
  has been empty since creation (`PropagationRuns.LaggingTooEarlyExactly`, `LagsAtOnce`).
- Gauges can outlive their cluster's row, after a failed status write or when the object is removed
  (`PropagationRuns.GaugesAreTargetsExactly`, `DeletionCleansExactly`, `FailedWriteLeaks`); over whole runs the strays
  are known exactly (`GaugeRuns.StraysExactly`). Only a reconcile that sees the deletion timestamp drops gauges. The
  code adds no finalizer, so a plain deletion is met as not found and drops none (`GaugeRuns.RemovalLeavesNoneExactly`).
- The last three nodes of the causal graph can be silent about upstream trouble (`Causal.ImpactIsIncompleteExactly`,
  `UpgradeBlamedOnNothing`).

Where code and documentation disagree, the code is modelled:

- `docs/SRE_AGENT_ARCHITECTURE.md` lists nine states. `Failed` and `ValidationRunning` are never assigned, and
  `BaselineCaptured` is never stored (`RunTheorems.PhasesOfStoredSteps`).
- The FullyPropagated condition is True while rows are still Propagating or Lagging (`Propagation.PhaseMeaning`).
- A signature check covers the checksum only; that the checksum matches the content is proved of generated reports
  and not claimed of others (`Evidence.GeneratedVerifies`).
- The action result `Resolved` is unreachable: the refresh action only runs on rows that are not InSync.

## Model

| member | source | states |
|---|---|---|
| Gates.FlattenContains | internal/controller/changewindow_controller.go:357-370 | the nested ranges visit a row exactly if it is listed under an application ranged over |
| Gates.VisitsEveryRow | internal/controller/changewindow_controller.go:357-370 | in any map order every row is visited and nothing else |
| GateLoops.EvaluateGates | internal/controller/changewindow_controller.go:252-646 | the loops compute the gate results, issues and verdict that the flat reading of all findings gives |
| GateLoops.VisitRow | internal/controller/changewindow_controller.go:369-546 | one pass of the loop body notes exactly the findings of that row, gate after gate |
| GateLoops.KeepObservedAt | internal/controller/changewindow_controller.go:583-592 | the lookup keeps the timestamp of an unchanged gate and renews any other |
| GateTheorems.RowVerdict | internal/controller/changewindow_controller.go:369-546 | a row leaves a True gate True exactly when it meets the gate's demand, and never repairs one (nine gates) |
| GateTheorems.LastWriterRowVerdict | internal/controller/changewindow_controller.go:490-535 | on the two other gates a reporting row decides alone and a silent row not at all |
| GateTheorems.GateMeaning | internal/controller/changewindow_controller.go:357-578 | nine gates are True exactly when their for-all/exists formula over all rows holds, in any order |
| GateTheorems.LastWriterGates | internal/controller/changewindow_controller.go:490-535 | the other two gates repeat the last reporting row; Unknown when none reports |
| GateTheorems.FinalWordIsARow | internal/controller/changewindow_controller.go:490-535 | that last reporting row exists exactly when some row reports, and is one of the rows |
| GateTheorems.PassedMeaning | internal/controller/changewindow_controller.go:620-629 | Passed holds exactly when nobody is silent, scope is configured, nine formulas hold and the two last words are good |
| GateStates.FalseMeaning | internal/controller/changewindow_controller.go:357-578 | besides AllChangesApplied, a gate is False exactly when some row speaks against it and, for three gates, some row carries the telemetry |
| GateStates.UnknownMeaning | internal/controller/changewindow_controller.go:391-404 | it is Unknown exactly when telemetry or rows are missing altogether, or some health is not known and none is known to be bad |
| GateStates.ChangesFalseMeaning | internal/controller/changewindow_controller.go:357-389 | AllChangesApplied is False exactly when a row is out of sync and no application without rows is visited after the last such application |
| GateStates.ChangesUnknownMeaning | internal/controller/changewindow_controller.go:343-389 | it is Unknown exactly without any row, with an application without rows visited after all troubled ones, or without scope and trouble |
| GateStates.ChangesIgnoreOrderExactly | internal/controller/changewindow_controller.go:357-389 | the map order cannot change it if and only if it is not the case that, off the hub, one application is troubled and one has no rows |
| GateWords.FindingsExactly | internal/controller/changewindow_controller.go:357-546 | in any order the loops note exactly the findings that some row, or some application without rows, calls for |
| GateWords.IssuesExactly | internal/controller/changewindow_controller.go:343-582 | in any order the issues are exactly those that rows, missing rows, silence, missing scope or missing reports give rise to, with their names and numbers |
| GateWords.VerdictIsWarranted | internal/controller/changewindow_controller.go:254-578 | every final verdict quotes a row of the map that is really like that, or says that nothing is known |
| GateTheorems.PassedIgnoresOrder | internal/controller/changewindow_controller.go:357-629 | when reporting rows agree on the two last-writer gates, the map order cannot change Passed |
| GateOrders.StatusIgnoresOrderExactly | internal/controller/changewindow_controller.go:490-535 | the map order cannot change a last-writer gate if and only if the last reporting rows of all applications agree on it |
| GateOrders.PassesInEveryOrderExactly | internal/controller/changewindow_controller.go:357-629 | Passed in every map order if and only if the rest holds and both last-writer gates are unanimous over applications |
| GateOrders.PassesInSomeOrderExactly | internal/controller/changewindow_controller.go:357-629 | Passed in some map order if and only if the rest holds and two compatible applications say yes on one gate each |
| GateOrders.OrderFlipsVerdict | internal/controller/changewindow_controller.go:490-535 | concrete rows that pass in one order and fail in the other |
| GateIssues.ScanQuietMeans | internal/controller/changewindow_controller.go:357-546 | in any map order the loops raise no issue exactly when no visit to a row does |
| GateIssues.PassedListsIssues | internal/controller/changewindow_controller.go:490-629 | a passed validation lists no issue exactly when every reporting row is good on the two last-writer gates |
| GateIssues.PassesWithAnIssue | internal/controller/changewindow_controller.go:490-535 | a concrete passed validation that lists an issue: an upgrading cluster visited before a stable one |
| Evidence.GeneratedVerifies | internal/validator/evidence.go:107-141 | a generated report verifies under its key, whatever the hash functions, and its checksum matches its content |
| Evidence.ChecksumBinds | internal/validator/evidence.go:117-120 | with a collision-free hash and no separator in the identifiers, intact reports share a checksum exactly if they agree on all but timestamp and signature |
| Evidence.SeparatorsMatter | internal/validator/evidence.go:117 | two different reports whose joined contents are the same |
| SteadyState.MergeMeaning | internal/controller/changewindow_controller.go:82-108 | after the fetches an application shows its last successful fetch or the stored rows; any failed read aborts |
| WindowController.FetchStates | internal/controller/changewindow_controller.go:82-108 | the fetch loop, with its early return, computes that merge |
| WindowController.FindSilent | internal/controller/changewindow_controller.go:117-126 | the silence loop lists exactly the classified silent rows in visiting order |
| Observations.SilenceMeaning | internal/controller/changewindow_controller.go:648-672 | the list has one entry for each row past the threshold and no others; an entry says during the window exactly if a report was seen or observed since the start |
| Observations.SilentOfSteps | internal/controller/changewindow_controller.go:117-126 | every stored step lists exactly the silent rows among those it ranged over |
| SteadyState.SilentListEmpty | internal/controller/changewindow_controller.go:648-672 | the list is empty exactly when every row is within the stale threshold |
| WindowController.RunParkedHardRefresh | internal/controller/changewindow_controller.go:674-722 | the statements of the refresh of one row compute the refresh action |
| WindowController.RefreshParked | internal/controller/changewindow_controller.go:128-135 | the action loop folds the refresh action over the visited rows |
| WindowController.CaptureBaseline | internal/controller/changewindow_controller.go:111-114 | the capture loops take rows up to the first that makes a platform version known |
| Observations.CaptureMeaning | internal/controller/changewindow_controller.go:805-857 | the baseline is taken from the rows up to the first with a platform version and shows, field by field, the last thing they have to show |
| Observations.BaselineOfSteps | internal/controller/changewindow_controller.go:110-114 | the baseline of every stored step is the one portrayed by the rows of the first stored step, at its time |
| WindowController.ChangeWindow.CopyOf | api/v1alpha1/zz_generated.deepcopy.go:160-189 | the copy shows the same status while sharing baseline and stabilization pointers, timeline and gate arrays |
| WindowController.ChangeWindow.Decide | internal/controller/changewindow_controller.go:141-185 | the switch sets phase, overall status and stabilization clock as specified and nothing else |
| WindowController.ChangeWindow.RecordTransition | internal/controller/changewindow_controller.go:206-218 | append and re-slice keep the last fifty entries; what the old slice showed is unchanged |
| WindowController.ChangeWindow.Conclude | internal/controller/changewindow_controller.go:144-201 | decision plus signed report for a concluding phase |
| WindowController.ChangeWindow.Announce | internal/controller/changewindow_controller.go:203-236 | timeline entry on a phase change; publish on any change or due heartbeat; sharing stays invisible |
| WindowController.ChangeWindow.Reconcile | internal/controller/changewindow_controller.go:58-250 | the object ends as the step function says, and the shallow copy still shows the status before, all the way through |
| Runs.RunsAreHistories | internal/controller/changewindow_controller.go:58-250 | after any mixture of early, failed and stored reconciles the stored status is the last one of the stored post-start steps |
| RunTheorems.StabilizationClock | internal/controller/changewindow_controller.go:145-177 | the clock shows the first step of the current unbroken passing block, and nothing outside one |
| RunTheorems.SucceededMeansStable | internal/controller/changewindow_controller.go:145-166 | a stored step is Succeeded exactly when the passing block that ends with it spans the period |
| RunTheorems.PhaseAndOverall | internal/controller/changewindow_controller.go:144-185 | phase and overall status of every stored step, both ways: five phases and three statuses from verdict, block length, deadline and position |
| RunTheorems.StoredPhaseAndOverall | internal/controller/changewindow_controller.go:62-185 | the same for the stored status of any run, with Scheduled and Pending exactly if the waiting was noted and nothing else stored |
| RunTheorems.StoredSuccessIsBacked | internal/controller/changewindow_controller.go:144-185 | the same for the stored status of any run, with the block's start in StabilizationStartedAt |
| RunTheorems.LogIsChain | internal/controller/changewindow_controller.go:203-218 | in the full transition log each source is the previous stage, neighbours differ, times do not decrease |
| RunTheorems.TimelineIsLogSuffix | internal/controller/changewindow_controller.go:203-218 | the stored timeline is exactly the last fifty entries of that log, whose last stage is the stored phase |
| RunTheorems.PhasesOfStoredSteps | internal/controller/changewindow_controller.go:111-185 | reachable phases; after the end only three; WaitingForChange only in the capturing step; baseline written once |
| RunTheorems.PhasesOfRuns | internal/controller/changewindow_controller.go:62-201 | over any run from the empty status: reachable phases, WaitingForChange only while one step is stored, past-end phases, baseline exactly once a step is stored, signed conclusions |
| RunTheorems.BaselineStays | internal/controller/changewindow_controller.go:111-114 | a stored baseline is the baseline of every later status of the run |
| RunTheorems.ConclusionsAreSigned | internal/controller/changewindow_controller.go:187-201 | every stored conclusion carries a report with its phase and gates that verifies under the window's key |
| RunTheorems.SignedReportMeaning | internal/controller/changewindow_controller.go:187-201 | the signed report of every stored step is that of the last step that concluded; none as long as none has |
| RefreshRuns.RefreshesExactly | internal/controller/changewindow_controller.go:674-722 | in every run the record of a key lists exactly the stored steps that triggered, numbered, at their times; no record without one; ExhaustedRetries exactly if asked for beyond the maximum |
| RefreshRuns.TriggersExactly | internal/controller/changewindow_controller.go:674-722 | a stored step triggers exactly if it visits a row that wants a refresh, below the maximum and with the wait over; once, however often asked |
| RefreshRuns.UnaskedStays | internal/controller/changewindow_controller.go:128-135 | a key no visited row asks about keeps its record, or stays without one |
| RefreshRuns.AskedIsRecorded | internal/controller/changewindow_controller.go:674-722 | a refresh asked for in a stored step has a record from then on |
| Retries.StoredRecords | internal/controller/changewindow_controller.go:674-722 | every stored action record is well formed: history length and numbering, spacing, eligibility, maximum |
| Retries.RetryBound | internal/controller/changewindow_controller.go:674-722 | in every run attempts stay within the maximum and within one plus elapsed time over the wait, even for a cluster listed twice |
| Reports.LastReportedAtMeaning | internal/controller/changewindow_controller.go:219-236 | LastReportedAt is the time of the last stored publishing step |
| Reports.ChangesAreReported | internal/controller/changewindow_controller.go:203-236 | every stored change of phase or validation is attempted in its own step and recorded if publishing works |
| Reports.NeverSilentForLong | internal/controller/changewindow_controller.go:219-236 | while publishing works no stored step is 15 minutes past the last report |
| Reports.HeartbeatThrottle | internal/controller/changewindow_controller.go:219-236 | heartbeat-only publishes number at most elapsed time over 15 minutes |
| Quiescence.ObservedAtMeaning | internal/controller/changewindow_controller.go:583-604 | a gate's ObservedAt is the time of the first step of the current stretch with the same status, reason and message |
| SteadyState.RepeatIsQuiet | internal/controller/changewindow_controller.go:144-247 | a repeated reconcile with nothing due and no deadline crossed changes nothing, reports nothing and logs nothing |
| Ingest.IsClusterTargeted | internal/kafka/kafka_bridge.go:125-135 | the scan decides whether the local cluster is addressed |
| Ingest.FoldMeaning | internal/kafka/kafka_bridge.go:209-272 | the crash-free pass stores a name exactly if a relevant event has it, and the window holds, field by field, what the first such event asked for |
| Ingest.RedeliveryIsIdle | internal/kafka/kafka_bridge.go:255-262 | delivering an event of the handled prefix again changes nothing |
| Ingest.CrashReplay | internal/kafka/kafka_bridge.go:188-280 | in every run with failures, lost answers and crashes the store is the fold over the handled prefix, which covers the committed offset |
| Ingest.StoredExactlyIfAsked | internal/kafka/kafka_bridge.go:188-280 | in every run a window is there exactly if some handled event, numbered and addressed to this cluster, asked for it; its name has no capital letter |
| Ingest.StoredWereAskedFor | internal/kafka/kafka_bridge.go:236-250 | every stored window holds number, applications, times and threshold of the first handled event of its name |
| Ingest.WindowsAreOrdered | internal/kafka/kafka_bridge.go:236-250 | if relevant events start before they end, so do all stored windows |
| IngestedRuns.IngestedSucceedsAtOnce | internal/kafka/kafka_bridge.go:236-250 | a window the consumer created succeeds in every stored step that passes and never stabilizes: the event sets no period |
| Ingest.StoreOnlyGrows | internal/kafka/kafka_bridge.go:254-270 | a stored window is never replaced or removed later |
| Ingest.KafkaBridge.CreateUntilThere | internal/kafka/kafka_bridge.go:253-272 | the create loop ends only when the window is there and follows the step semantics throughout |
| Ingest.KafkaBridge.CommitMessage | internal/kafka/kafka_bridge.go:274-277 | one commit attempt; the consumer moves on whether or not it works |
| Ingest.KafkaBridge.Start | internal/kafka/kafka_bridge.go:172-280 | any finite part of one life of the consumer, from a crash of the one before, is a run of the step semantics and keeps the store equal to the fold |
| Gauges.RecordShows | internal/metrics/metrics.go:42-54 | recording leaves the pair one-hot at the state with lag and age, and no other pair touched |
| Gauges.DeleteHides | internal/metrics/metrics.go:57-64 | deleting leaves nothing of the pair and touches no other |
| Gauges.Metrics.RecordClusterMetrics | internal/metrics/metrics.go:42-54 | the loop over six states sets exactly those gauges |
| Gauges.Metrics.DeleteClusterMetrics | internal/metrics/metrics.go:57-64 | the loop over six states removes exactly those gauges |
| Propagation.ByClusterMeaning | internal/controller/propagationstatus_controller.go:89-92 | the index holds the last listed report of each cluster and nothing else |
| Propagation.RowsMatchTargets | internal/controller/propagationstatus_controller.go:107-162 | row i is target i, in the state its last report deserves, copying that report field by field, or blank without one |
| Propagation.ListsPartitionTargets | internal/controller/propagationstatus_controller.go:107-184 | the four lists and the InSync rows share out the targets as multisets, and list exactly the targets in their states |
| Propagation.PhaseMeaning | internal/controller/propagationstatus_controller.go:205-230 | the phase reads off the worst row, Synced exactly if all rows are InSync; the condition stays True while Propagating or Lagging |
| PropagationController.IndexReports | internal/controller/propagationstatus_controller.go:89-92 | the map-building loop computes that index |
| PropagationController.AppendTarget | internal/controller/propagationstatus_controller.go:107-161 | one round appends the right row to the states and the name to the right list |
| PropagationController.PropagationStatus.Reconcile | internal/controller/propagationstatus_controller.go:70-185 | status and gauges end as the aggregation function says |
| PropagationController.PropagationStatus.Finalize | internal/controller/propagationstatus_controller.go:63-68 | the deletion branch drops the gauges of the stored rows |
| PropagationRuns.LagClockMeaning | internal/controller/propagationstatus_controller.go:73-77 | the lag clock was started by the first committed reconcile of the current stretch, unless the revision was always empty |
| PropagationRuns.LaggingTooEarlyExactly | internal/controller/propagationstatus_controller.go:73-140 | exactly when a Lagging row is published although the revision was not expected for the threshold |
| PropagationRuns.LaggingMeansNoRecentChange | internal/controller/propagationstatus_controller.go:73-140 | with a Lagging row, every committed reconcile within the lag threshold saw the present revision |
| PropagationRuns.LagsAtOnce | internal/controller/propagationstatus_controller.go:73-140 | a concrete first reconcile with empty expected revision that publishes a Lagging row |
| PropagationRuns.GaugesAfterReconcile | internal/controller/propagationstatus_controller.go:106-173 | targets show the state they deserve with its lag and the age of their last report, former targets nothing, all other gauges stay |
| PropagationRuns.GaugesAreTargetsExactly | internal/controller/propagationstatus_controller.go:164-173 | gauges exist for exactly the targets afterwards if and only if every other cluster shown before had a stored row |
| PropagationRuns.DeletionCleansExactly | internal/controller/propagationstatus_controller.go:63-68 | the deletion-timestamp branch leaves no gauge if and only if every cluster shown has a stored row |
| PropagationRuns.GaugesIndexRows | internal/controller/propagationstatus_controller.go:106-185 | while writes commit, gauges are an index of the stored rows, one-hot and agreeing, across restarts and finalizing reconciles; the deletion-timestamp branch leaves none |
| PropagationRuns.FailedWriteLeaks | internal/controller/propagationstatus_controller.go:164-190 | a concrete failed write after which a gauge survives target and row |
| PropagationRuns.OnlyCommitsCount | internal/controller/propagationstatus_controller.go:181-190 | the stored status depends on the reconciles committed since the object was last removed, and on nothing else |
| GaugeRuns.ShownExactly | internal/controller/propagationstatus_controller.go:63-173 | over every run, a cluster has gauges exactly if a reconcile set them and no restart, and no reconcile that found a row of it outside the targets or marked for deletion, came since |
| GaugeRuns.StraysExactly | internal/controller/propagationstatus_controller.go:53-190 | over every run about one application, gauges without a row are exactly targets of a failed write, or clusters shown when the object was removed, not covered by a stored row since and not cleared by a restart |
| GaugeRuns.RemovalLeavesNoneExactly | internal/controller/propagationstatus_controller.go:53-57 | after a committed reconcile, removal of the object leaves no gauge if and only if that reconcile had no target |
| LocalReport.BuildReport | internal/controller/localwatch_controller.go:83-137 | a report is written exactly for a named application; it tells what descriptor and telemetry say, with the collected diagnostics exactly if out of sync or degraded |
| LocalReport.AssembleReport | internal/controller/localwatch_controller.go:83-137 | the statements that fill in the report compute it |
| Redundancy.AggregationKeepsGating | internal/controller/propagationstatus_controller.go:123-160 | rows built from such reports carry diagnostics only if not InSync or degraded |
| Redundancy.DiagnosticGatesFollow | internal/controller/changewindow_controller.go:384-459 | when one of the three diagnostic gates is not True, AllChangesApplied or HealthCheckPassed is not True |
| Redundancy.DiagnosticGatesAreRedundant | internal/controller/changewindow_controller.go:620-629 | dropping the three gates never changes Passed |
| Events.Group | internal/controller/localwatch_controller.go:180-209 | the grouping loop computes one summary per reason and object |
| Events.GroupMeaning | internal/controller/localwatch_controller.go:180-209 | there is a group exactly for every key warned about, and it holds its first loudest warning |
| Events.TopGroups | internal/controller/localwatch_controller.go:211-219 | for every map order and every tie-breaking sort: distinct keys, maxima, descending, at most 20, dropped keys no louder |
| Events.CollectWarningEvents | internal/controller/localwatch_controller.go:174-220 | the collector returns such a summary |
| ObjectChanges.OuterTrimIdle | internal/controller/localwatch_controller.go:300-304 | trimming the annotation as a whole before splitting never changes what is read |
| ObjectChanges.BarredRoundTrip | internal/controller/localwatch_controller.go:308-315 | a line in the bar grammar is read back |
| ObjectChanges.SlashedRoundTrip | internal/controller/localwatch_controller.go:316-328 | a line in the slash grammar is read back |
| ObjectChanges.RoundTrip | internal/controller/localwatch_controller.go:292-344 | any padded mixture of both grammars and blank lines is read back as the list written, in order |
| ObjectChanges.ObjectChangesFromAnnotation | internal/controller/localwatch_controller.go:292-344 | the line loop computes that reading |
| Causal.StageNodeConfig | internal/controller/platform_validator.go:355-369 | the pool loop finds the first busy pool, its status word and its name |
| Causal.StageControlPlane | internal/controller/platform_validator.go:380-393 | the operator loop finds the first bad operator |
| Causal.LinkImpact | internal/controller/platform_validator.go:481-491 | the linking loop marks exactly the nodes that are impacted by something |
| Causal.EvaluatePlatformDependencyGraph | internal/controller/platform_validator.go:327-500 | root cause in the earliest troubled stage; one node per stage with its resource, its status word and its blame; healthy exactly if all are |
| Causal.HealthyMeaning | internal/controller/platform_validator.go:493-500 | Healthy holds exactly when all six stages are fine, that is, when nothing observed is out of order |
| Causal.ImpactIsUpstream | internal/controller/platform_validator.go:370-479 | every ImpactedBy names the culprit of a strictly earlier stage in trouble |
| Causal.ImpactIsIncompleteExactly | internal/controller/platform_validator.go:433-479 | exactly when a node is silent although an earlier stage is in trouble |
| Causal.UpgradeBlamedOnNothing | internal/controller/platform_validator.go:433-437 | a concrete observation where it is |
| Causal.EvaluateTopologicalDAG | internal/controller/platform_validator.go:505-593 | a healthy prefix, one node failing on its own account in the state its trouble calls for, then nodes blocked by their parents; healthy exactly if none fails |
| Causal.GraphRefinesDag | internal/controller/platform_validator.go:327-593 | a healthy graph implies a healthy DAG; the converse exactly when version, operators, virt operators and maintenance are clean |
| Causal.EvaluateClusterOperatorOrdering | internal/controller/platform_validator.go:657-697 | the first operator down in the order, with every listed operator after it; the last of duplicates counts |
| Causal.FailedOrderShowsInGraph | internal/controller/platform_validator.go:380-393 | a failed order implies control-plane trouble in the graph and a root cause there or further up |
| EndToEnd.ReconcileReads | internal/controller/changewindow_controller.go:58-250 | the reconciler, seen from outside: what it takes over, what its Passed means, and that Succeeded implies Passed |
| EndToEnd.SetupIsFaithful | internal/controller/changewindow_controller.go:58-250 | the reconciler of every window is one the end-to-end theorems apply to |
| EndToEnd.StepKeepsInv | internal/controller/propagationstatus_controller.go:89-185 | every step keeps: the rows of every version of every object are whole those of one aggregation of that object on real reports, and the window's states are those of versions found for their applications |
| EndToEnd.FitRowRests | internal/controller/propagationstatus_controller.go:117-160 | a row fit to pass copies the counting report of its cluster, recent when aggregated, which an agent wrote in a good state at the expected revision |
| EndToEnd.PassedIsBacked | internal/controller/changewindow_controller.go:82-139 | over every interleaving, Passed at t rests, for each application, on one aggregation of an object found for it, one row per target, each the copy of a report that an agent wrote in this run on a healthy application at the expected revision, fresh at t and clean on nine gates; the diagnostic gates change nothing |
| EndToEndApps.StoredExactlyIfKept | internal/controller/propagationstatus_controller.go:53-68 | an object is there exactly if it was written and not deleted since: a late aggregation does not bring it back |
| EndToEndApps.AgreementSuffices | internal/controller/changewindow_controller.go:82-108 | if no object found for an application ever had a spec that names another one and has targets, only its own reports count for it |
| EndToEndApps.DisagreementBites | internal/controller/changewindow_controller.go:94-108 | otherwise repeating edits already made, one report and one late aggregation bring it rows that count another application's report |
| EndToEndApps.OwnReportsExactly | internal/controller/changewindow_controller.go:82-108 | so its reports are its own, however the run goes on without new edits, if and only if the edits agree |
| EndToEndApps.FoundExactly | internal/controller/changewindow_controller.go:82-108 | the window has a state for exactly the applications some stored reconcile found an object for |
| EndToEndApps.RowsExactlyIfFound | internal/controller/changewindow_controller.go:94-108 | at Passed off the hub an application has rows if and only if this or an earlier stored reconcile found an object for it |
| ExampleRun.PassHappens | internal/controller/changewindow_controller.go:82-139 | a concrete run (report, object, aggregation, reconcile) in which Passed is computed: the end-to-end claim is not empty |
| ExampleRun.UnfoundApplicationPasses | internal/controller/changewindow_controller.go:94-98 | a concrete window of two impacted applications that passes on the rows of one |
| ExampleRun.ForeignReportPasses | internal/controller/changewindow_controller.go:94-108 | a concrete window that passes on a report of another application, found by object name |
| EndToEndRuns.WindowFollowsRun | internal/controller/changewindow_controller.go:58-250 | the window inside the system is the window of a run of its own reconciler |
| EndToEndRuns.SuccessIsBacked | internal/controller/changewindow_controller.go:82-185 | a stored Succeeded is backed by a block of such reconciles spanning the stabilization period; the applications seen are exactly those ever found |

## Left out

- Gate and issue wording: messages keep the values they interpolate but are not rendered; equal values stand for equal messages.
- CloudEvents payload, JSON marshalling, log lines, Kubernetes events and requeue intervals: formatting and scheduling only; marshalling is an arbitrary function.
- SHA-256 and HMAC: arbitrary functions; nothing is claimed about reports that were not generated.
- Kubernetes client, caches and leader election: outcomes are arbitrary inputs. In `EndToEnd` reports and PropagationStatus objects may be read at any past version; each window reconcile reads the window as last stored.
- PropagationRuns.LaggingTooEarlyExactly: assumes that each aggregator run reads its own object as last stored; the merge of a patch computed from an older version is modelled in `EndToEnd` only.
- Sub-second time and the truncation of stored timestamps to seconds: the model's clock has whole seconds.
- Text.ToLower: lower-cases ASCII letters only, because Unicode case mapping is a library table.
- Nil versus empty slices and maps: both are the empty collection, so a status patch that only turns one into the other is not modelled.
- WindowController.ChangeWindow.CopyOf: what the generated code clones (silent clusters, actions, issues, signed report, application states down to their rows) is a value in the model. Inside a cloned row the PlatformObservation slices stay shared (api/v1alpha1/zz_generated.deepcopy.go:365-388); they are values too, as the reconciler never writes into them.
- WindowSpec fields that no decision reads (release tag, revisions, root application, namespaces): not modelled; the window's own expected revision is never compared by the code.
- SawReportSinceChgStart: kept in the row and read by the silence classification, but no controller ever sets it.
- Kafka partitions, consumer groups and TLS: one ordered log with one committed offset, and no window is deleted from outside.
- Ingest.KafkaBridge.Start: the script of API outcomes is finite. Every finite part of an endless run is such a script, so what is proved holds at every moment of it; that a message is ever dealt with is not claimed.
- Events.SortByCount: stands for the library's sort; `Events.TopGroups` holds for every sort by descending count, stable or not.
- Virtualization counters, pod logs, dependency checks and the other status readers of the agent: API reads with simple counting.
- Pool convergence prediction (floating point), the evidence correlation loops, `internal/validator/graph.go` and cluster detection: easy or numeric; the hub role is an arbitrary input.
- Causal.GraphRefinesDag: root-cause summaries are not part of the graph, and the blocked reason keeps only the parent its text names.
