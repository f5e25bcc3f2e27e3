# Verified model of the adaptive workflow controller

An `AdaptiveWorkflow` is a DAG of tasks with a resource budget. A controller repeatedly reconciles it:
it folds the phases of the task pods into the persisted task statuses, fails or completes the workflow,
or asks an optimizer which ready tasks to start and creates their pods. This project models that
controller, its planners, the conversions between them and the dashboard's packing simulator, and proves
what they promise.

Verify everything with `dafny verify dfyconfig.toml`.

## How the model is organised

* **Quantities and loads** (`Loads`, `Quantities`). A quantity is a natural number of nano-units;
  `MilliValue`, `Value` and `Value / (1024 * 1024)` round as the library and the client do. A zero cap is
  "unlimited". Sums over maps are shown not to depend on the iteration order.
* **Planning** (`Packing`, `Workflow`, `GreedyPlanner`, `CppPlanner`, `Wire`, `Remote`, `Agreement`, `Baseline`,
  `Planning`, `Schedule`, `Allocations`). The planners and conversions are methods with the loops of their sources, proved
  against specification functions. Three planners can sit behind the controller: the Go planner in
  process, the same planner behind the Go service, and the C++ service. `Schedule.PlanIsScan` shows that
  each is one greedy scan at full resolution, so optimality, maximality, the re-planning fixpoint and
  progress are proved once for all three.
* **The run** (`Machine`, `SafetyProof`, `RunSafety`, `RunBudget`, `RunUsage`, `RunBlocked`, `RunRecords`, `RunClean`,
  `Freezing`). A Reconcile is cut into micro-steps: initialise, list the pods, fold in one pod, judge, create
  one pod, write the status. Between any two of them the process may crash or a call may fail, a pod creation
  may succeed without the controller learning of it, and pods move on their own. Predictions may change at
  every planning. Safety theorems hold for every state of every such run.
* **One Reconcile** (`Reconciling`, `ReconcileEffects`, `Outcomes`, `Repeating`, `Controller`). `Controller.Reconciler` is the
  controller as a class that updates its working copy, the stored status and the pods in place. Each
  `Reconcile` is proved equal to a function of the cluster and of how the API calls turn out, and that
  function is proved to be a sequence of micro-steps, so the theorems about runs hold of the class.
* **Progress** (`Levels`, `Rounds`, `Progress`, `CriticalPath`). A round is one undisturbed Reconcile after which
  every pod succeeds. Rounds may begin in any state that a run reaches without a failed pod.
* **Exceptional cases** (`Witnesses`, `ServiceCap`, `Limits`, `Ancestors`, `PodBudget`, `Staging`, `PodCeiling`, and
  the run in `Freezing`). Where a promise fails for some inputs, a run shows it failing and an
  if-and-only-if says when it holds. `Staging` steers a run into any set of tasks that is closed under
  dependencies, through what is predicted for each task.
* **The dashboard** (`Layout`). The two layouts of the packing simulator.

## What turned out differently from the documentation

* The C++ planner's header comment calls its logic identical to the Go planner's. It differs in one
  family of inputs: hints that ask for neither CPU nor memory. `Agreement.GoAndCppAgreeIff` and
  `Agreement.ServicesAgreeIff` state exactly when the planners start the same tasks;
  `Witnesses.GoAndCppDisagree` and `Witnesses.ServicesDisagree` are inputs on which they do not.
* `MaxResources` is documented as an absolute upper limit on what a workflow consumes concurrently. What is
  bounded is the summed requests of the tasks persisted as Running: through a service this holds, over all
  runs of all workflows, exactly when the CPU cap is a whole number of millicores and the memory cap is
  either absent or at least one MiB and not a fraction of a byte below a MiB boundary, and in process always
  (`ServiceCap.BoundsRunningIff`). A memory cap below one MiB reaches the service as zero, which means
  unlimited.
* What the live pods request is not bounded in general: when the status write after creating a pod fails,
  the next Reconcile plans as if nothing were running. Two tasks of which neither depends on the other can
  then be alive together with the whole cap each (`PodCeiling.Overcommit`). MaxResources bounds the live pods
  of a workflow, in all its runs, exactly when it is not set, or nothing can be started, or the planner is
  faithful to it and the tasks that can be started all follow one another
  (`PodCeiling.MaxResourcesBoundPodsIff`). No MaxResources that forbid any usage do so for all workflows
  (`PodCeiling.NoCeilingIff`).
* Through the Go service a task with a hint and no prediction gets limits of zero under its requests, because
  the service drops a hint's limits and the client writes the missing ones as zeros (`Limits.CoversIff`,
  `Limits.HintGetsZeroLimits`). Kubernetes rejects such a pod; the model, which does not validate pods, admits
  its creation.
* The end of a task named `""` is never noticed, because the sync skips pods with an empty label
  (`RunBlocked.NamelessNeverFinishes`), so its failure does not stop the workflow (`Freezing.FreezesIff`). The
  model admits the creation of its pod; Kubernetes would reject the name, which ends in a hyphen.
* Two tasks whose names differ only by case share one pod, so that they can never both succeed
  (`RunBlocked.CompletedImpliesLowerUnique`).
* A workflow without tasks is initialised again by every Reconcile (`RunSafety.EmptyWorkflowNeverEnds`).
* A failed workflow keeps the resource usage reported before the failure, which is right exactly when the
  tasks found ended had requested nothing (`RunUsage.FailedUsageIff`, `Witnesses.FailedUsageIsStale`).
* An execution is recorded again for every Reconcile that is cut short after recording it and before
  persisting it (`RunRecords.RecordedExactlyOnceIff`); a failed status write is enough (`Witnesses.RecordedTwice`).

## Model

| member | source | states |
|---|---|---|
| Workflow.AddUpRunning | internal/optimizer/greedy.go:48-59 | whatever order the status map is visited in, the loop computes the sum of the requests of the Running tasks |
| Workflow.PodNameClash | internal/controller/adaptiveworkflow_controller.go:466-469 | two tasks of a workflow share a pod name if and only if their names agree up to case |
| Workflow.PodNameShape | internal/controller/adaptiveworkflow_controller.go:466-469 | a pod's name is the workflow's and the task's in lower case with a hyphen in between: its length, the hyphen's place, each character up to case, and no upper-case letter |
| Workflow.LaunchAllUsage | internal/controller/adaptiveworkflow_controller.go:227-244 | marking distinct Pending tasks as Running with their allocations raises the usage by exactly the plan's requests |
| Loads.UnlimitedIff | internal/optimizer/greedy.go:99-105 | every usage passes the cap's checks if and only if both components are zero |
| Packing.GreedyBeatsFeasible | internal/optimizer/greedy.go:64-114 | every feasible choice of ready entries other than the scan's lacks, where they first differ in spec order, an entry the scan takes |
| Packing.GreedyMaximal | internal/optimizer/greedy.go:94-113 | a ready entry left out overflows the cap against the final usage, not just the usage at the time it was skipped |
| GreedyPlanner.DependenciesSucceeded | internal/optimizer/greedy.go:72-83 | true exactly when every dependency has a status that is Succeeded |
| GreedyPlanner.Admit | internal/optimizer/greedy.go:64-106 | an entry is started exactly when it has no status or is Pending, every dependency has a status that is Succeeded, and its resolved requests fit on top of the current usage |
| GreedyPlanner.Plan | internal/optimizer/greedy.go:40-117 | the loop returns the greedy choice over the spec entries, each with its resolved resources (which are, in numbers, those of Allocations.InProcessHandsOut) |
| GreedyPlanner.PlannedIsEligible | internal/optimizer/greedy.go:64-111 | each allocation is the offer for an entry that had not started and whose dependencies all Succeeded |
| GreedyPlanner.PlannedWithinBudget | internal/optimizer/greedy.go:94-113 | if the running tasks are within MaxResources, so are the running and the planned tasks together |
| GreedyPlanner.StillEligible | internal/optimizer/greedy.go:64-83 | starting tasks makes no entry eligible that was not eligible before |
| Allocations.InProcessHandsOut | internal/optimizer/greedy.go:121-146 | in process and with unique names a planned task gets its prediction if there is one, otherwise its hint if that has requests or limits, otherwise requests of 100m and 128Mi under limits of 200m and 256Mi |
| Allocations.CppHandsOut | optimizer-service/src/greedy_optimizer.cpp:92-133 | through the C++ service a planned task gets, in millicores and MiB, its prediction as sent with limits of floor(3x/2), otherwise its hint as sent with limits twice as high if that is positive, otherwise 100m and 128Mi under 200m and 256Mi |
| Allocations.CppDoubles | optimizer-service/src/greedy_optimizer.cpp:110-132 | through the C++ service and without a prediction the limits are twice the requests, names unique or not |
| Allocations.GoServiceHandsOut | cmd/optimizer/main.go:65-82 | through the Go service a planned task gets its prediction as through the C++ service, otherwise its hint as sent with limits of zero, otherwise 100m and 128Mi under 200m and 256Mi |
| Baseline.Predict | internal/inference/baseline.go:39-55 | the loop returns, per name, the hint of the last entry of that name that has one |
| Baseline.PredictedIsHint | internal/inference/baseline.go:42-52 | a name has a prediction if and only if some entry of that name has requests or limits, and it is the hint of the last such entry |
| Baseline.BaselineChangesNothing | internal/inference/baseline.go:39-55 | with unique names the Go planner resolves every entry to the same resources with the baseline predictions as with none |
| Quantities.Rounding | internal/grpcclient/optimizer_client.go:80-85 | millicores are the least whole number that covers the quantity, MiB the most that its bytes, rounded up, hold |
| Quantities.WireRounding | internal/grpcclient/optimizer_client.go:119-128 | sending rounds CPU up by less than a millicore and memory to a MiB that exceeds the quantity only when a fractional byte was rounded up onto it |
| Quantities.SumWidened | internal/grpcclient/optimizer_client.go:90-103 | adding up in wire units and then scaling equals scaling and then adding up |
| Wire.BuildRequest | internal/grpcclient/optimizer_client.go:62-128 | the request holds the converted tasks, statuses, predictions and cap, with absent resources as zero and absent hints and caps left out |
| Wire.ConvertResponse | internal/grpcclient/optimizer_client.go:138-157 | the plan is the response in order, at full resolution |
| Wire.ProtoToSpec | cmd/optimizer/main.go:92-123 | the server's spec has the same tasks with hints exactly where the request has them |
| Wire.ProtoToTaskStatuses | cmd/optimizer/main.go:125-143 | every status keeps its phase and pod name, and requests only if it allocated something |
| Wire.ProtoToPredictions | cmd/optimizer/main.go:145-163 | every prediction keeps its load and gets a limit of half as much again, rounded down |
| Wire.LoadRoundTrip | internal/grpcclient/optimizer_client.go:80-85 | a load read off the wire and sent again is the same load |
| Wire.ResponseRoundTrip | cmd/optimizer/main.go:65-82 | an allocation converted by the client and back by the server is unchanged in request and limit |
| Wire.StatusRoundTrip | cmd/optimizer/main.go:125-143 | a status sent and decoded has the same phase and pod name, its requests rounded to the wire, and no limits |
| Wire.TaskRoundTrip | cmd/optimizer/main.go:97-113 | a task sent and decoded has the same name and dependencies, requests exactly if it had any, rounded to the wire, and no limits |
| Wire.TasksRoundTrip | internal/grpcclient/optimizer_client.go:70-88 | the decoded request has the same tasks in the same order |
| Wire.StatusesRoundTrip | internal/grpcclient/optimizer_client.go:90-103 | the decoded request has statuses for the same names, each with its phase, pod name and rounded requests |
| Wire.PredictionsRoundTrip | internal/grpcclient/optimizer_client.go:105-117 | the decoded request has predictions for the same names, each with its rounded requests |
| Wire.CapRoundTrip | internal/grpcclient/optimizer_client.go:119-128 | the decoded request has a cap exactly if there was one, rounded to the wire |
| Wire.HeadroomCovers | cmd/optimizer/main.go:155-158 | the limit is floor(3x/2) and never below the request x |
| CppPlanner.AddUpRunning | optimizer-service/src/greedy_optimizer.cpp:27-35 | the loop computes the sum over the Running tasks in any order |
| CppPlanner.ResolveResources | optimizer-service/src/greedy_optimizer.cpp:92-133 | filling the fields step by step gives the prediction with limits half as high again, or a positive hint or else 100 millicores and 128 MiB with limits twice as high |
| CppPlanner.Plan | optimizer-service/src/greedy_optimizer.cpp:23-90 | the loop returns the greedy choice over the request's tasks |
| Remote.PlanThroughCpp | internal/grpcclient/optimizer_client.go:57-158 | converting, planning in C++ and converting back gives the C++ plan of the converted request |
| Remote.ServePlan | cmd/optimizer/main.go:48-86 | the Go service answers with the Go plan of the decoded request, converted allocation by allocation |
| Remote.GreedyScaled | optimizer-service/src/greedy_optimizer.cpp:45-87 | the scan in wire units and the scan at full resolution make the same choices |
| Remote.SentUsage | internal/grpcclient/optimizer_client.go:90-103 | for aligned allocations the service adds up exactly the usage the controller sees |
| Remote.ScansAgreeIff | optimizer-service/src/greedy_optimizer.cpp:44-87 | two scans that differ only in entries where one asks for nothing start the same tasks exactly when there is no such entry or the budget is already exceeded |
| Agreement.GoAndCppAgreeIff | optimizer-service/src/greedy_optimizer.cpp:23-133 | on whole millicores and MiB the C++ service starts the same tasks in the same order with the same requests as the Go planner if and only if no eligible task has a hollow hint without a prediction, or the budget is already exceeded |
| Witnesses.GoAndCppDisagree | optimizer-service/src/greedy_optimizer.cpp:110-132 | a task whose hint has limits only is started with no requests by the Go planner and with 100m and 128Mi by the C++ planner |
| Agreement.GoAndCppAgreeOnBaseline | internal/inference/baseline.go:39-55 | fed by the baseline engine, the two always agree on whole millicores and MiB |
| Agreement.ServicesAgreeIff | cmd/optimizer/main.go:48-86 | on any request at all the Go and the C++ service start the same tasks with the same requests if and only if no eligible task carries an empty hint without a prediction, or the budget is already exceeded |
| Witnesses.ServicesDisagree | internal/grpcclient/optimizer_client.go:78-86 | a task whose hint is half a MiB is started with no requests by the Go service and with 100m and 128Mi by the C++ service |
| Planning.CallOptimizer | internal/controller/adaptiveworkflow_controller.go:221-224 | the configured planner's plan |
| Planning.PlanIsEligible | internal/optimizer/greedy.go:64-83 | whichever planner is configured, it starts only spec entries that have not started and whose dependencies all Succeeded; services hand out aligned requests only |
| Planning.PlanIsDistinct | internal/controller/adaptiveworkflow_controller.go:227-244 | with unique names no planner starts a task twice |
| Planning.PlanWithinBudget | api/v1/adaptiveworkflow_types.go:46-49 | whichever planner is configured, running and planned tasks stay within the cap it sees |
| Planning.PredictedLimits | optimizer-service/src/greedy_optimizer.cpp:97-108 | through either service an allocation taken from a prediction requests the prediction as sent and has the limit floor(3x/2), never below the request |
| Limits.CoversIff | internal/grpcclient/optimizer_client.go:140-153 | the limits handed out for an entry cover its requests if and only if: in process, those of its prediction or hint do; through the Go service, it has a prediction or no hint that asks for anything; through the C++ service, always |
| Limits.PlannedLimitsIff | internal/optimizer/greedy.go:119-146 | with unique names that is exactly when the limits of its planned allocation cover the requests |
| Limits.PodsAreCovered | internal/controller/adaptiveworkflow_controller.go:396-407 | if all entries are covered whenever a plan is made, every pod ever created has limits that cover its requests, and with the C++ service that is so in every run |
| Limits.HintGetsZeroLimits | cmd/optimizer/main.go:97-113 | through the Go service the pod of a task with a hint of 100m and 128Mi and no prediction gets limits of zero |
| Planning.ServiceCapRounding | internal/grpcclient/optimizer_client.go:119-128 | a usage within the cap a service sees is below the CPU cap plus one millicore, and within a memory cap of at least one MiB up to less than one byte, exactly if the cap is whole bytes |
| Planning.CapSurvivesIff | internal/grpcclient/optimizer_client.go:119-128 | every load in wire units within the cap as sent is within the cap itself if and only if the cap is exact: whole millicores, and memory absent or at least one MiB and not a fraction of a byte below a MiB boundary |
| ServiceCap.BoundsRunningIff | internal/grpcclient/optimizer_client.go:119-128 | no run of any workflow with these MaxResources ever persists Running tasks that request more if and only if the planner is in process or the cap is exact |
| ServiceCap.CapExceeded | internal/grpcclient/optimizer_client.go:119-154 | a load that passes a service's check and exceeds MaxResources is reached: a single task predicted to need it is started and persisted as Running |
| Schedule.PlanIsScan | internal/grpcclient/optimizer_client.go:57-158 | for every planner the tasks started, their requests and their order are those of one greedy scan in spec order at full resolution |
| Schedule.PlanIsLexicographicallyGreatest | internal/optimizer/greedy.go:64-114 | for every planner the plan starts, each with its demand, a feasible choice of eligible entries that is lexicographically the greatest in spec order among all feasible choices |
| Schedule.PlanIsMaximal | internal/optimizer/greedy.go:94-113 | for every planner an eligible entry whose task is not planned would overflow the cap on top of everything running and planned |
| Schedule.PlanInSpecOrder | internal/optimizer/greedy.go:108-111 | every planner starts its tasks in spec order |
| Schedule.ReplanStartsNothing | internal/optimizer/greedy.go:64-114 | for every planner and unique names, planning again after applying a plan, with the same predictions, starts nothing |
| SafetyProof.RunsAreSafe | internal/controller/adaptiveworkflow_controller.go:108-264 | in every state of every run: status keys are the spec's names, ended tasks have pods of their own that ended so, the working copy never lags, every pod's task had its dependencies Succeeded, and an ended workflow is justified |
| RunSafety.DependenciesPrecedePods | internal/controller/adaptiveworkflow_controller.go:226-262 | with unique names, whenever a task's pod exists, every dependency has a pod that Succeeded, through crashes and failed status writes |
| RunSafety.ExactlyOnePod | internal/controller/adaptiveworkflow_controller.go:373-419 | a persisted non-Pending task has its pod, and no other pod carries its name anywhere in the run |
| RunSafety.PodsAreNamed | internal/controller/adaptiveworkflow_controller.go:373-407 | at every moment of every run each pod is stored under its own name, which is that of its task in a workflow of this name |
| RunSafety.RecordedPodName | internal/controller/adaptiveworkflow_controller.go:235-239 | at every moment of every run the pod name persisted for a started task is that of its pod |
| RunSafety.RunsMoveForward | internal/controller/adaptiveworkflow_controller.go:112-139 | between any two moments of a run task phases only climb, the status keys stay, and an ended workflow's status never changes |
| RunSafety.CompletedMeansDone | internal/controller/adaptiveworkflow_controller.go:178-206 | in a Completed workflow every spec task is Succeeded and its own pod has Succeeded |
| RunSafety.EmptyWorkflowNeverEnds | api/v1/adaptiveworkflow_types.go:94-96 | with no tasks the empty status map is dropped when written, so the workflow is re-initialised for ever and never ends |
| RunSafety.FailureFreezes | internal/controller/adaptiveworkflow_controller.go:144-173 | once the pod of a persisted-Running task with a name has failed, the workflow never becomes Completed and no Reconcile that starts later creates a pod, however often its writes fail |
| Freezing.FreezesIff | internal/controller/adaptiveworkflow_controller.go:289-292 | a failure freezes every run in this way if and only if the task has a name: a run of two tasks shows the failure of the one named "" ignored and the other started afterwards |
| Freezing.FailureIsNoticedIff | internal/controller/adaptiveworkflow_controller.go:144-173 | once the pod of a persisted-Running task with a name has failed, a Reconcile leaves the workflow failed, with that task Failed, if and only if its listing and its status write succeed, or the workflow had failed already |
| RunBudget.BudgetHolds | internal/controller/adaptiveworkflow_controller.go:227-262 | in every reachable persisted status the Running tasks' requests are within MaxResources as the planner sees it, with duplicate names, crashes, lost pods and changing predictions |
| RunBudget.RemoteBudgetHolds | internal/grpcclient/optimizer_client.go:90-154 | through a service running CPU stays below a non-zero cap plus one millicore, and running memory within a cap of at least one MiB of whole bytes |
| RunUsage.ReportedUsageIsAccurate | internal/controller/adaptiveworkflow_controller.go:249-260 | in every reachable state of a workflow that has not failed, the reported usage is the usage of the persisted tasks |
| RunUsage.FailedUsageIff | internal/controller/adaptiveworkflow_controller.go:151-173 | from the moment a workflow fails, for the rest of the run, its reported usage is right if and only if the tasks that the failing Reconcile found ended had requested nothing |
| ReconcileEffects.FailedReconcileUsageIff | internal/controller/adaptiveworkflow_controller.go:144-173 | a Reconcile that fails the workflow leaves the right usage if and only if the tasks whose pods it finds finished had requested nothing |
| Witnesses.FailedUsageIsStale | internal/controller/adaptiveworkflow_controller.go:151-173 | a workflow whose only task has failed goes on reporting 100m and 128Mi although nothing runs, whatever the planner |
| RunBlocked.BlockedNeverStarts | internal/controller/adaptiveworkflow_controller.go:178-264 | tasks that each wait for a missing dependency or for one another never leave Pending and never get a pod, in any run |
| RunBlocked.CompletedImpliesAcyclic | internal/controller/adaptiveworkflow_controller.go:178-206 | a workflow that completes in some run has no blocked tasks, in particular no dependency cycle |
| RunBlocked.NamelessNeverFinishes | internal/controller/adaptiveworkflow_controller.go:289-292 | a task named "" is never recorded as Succeeded or Failed |
| RunBlocked.CompletedImpliesLowerUnique | internal/controller/adaptiveworkflow_controller.go:373-379 | tasks whose pod names clash cannot both succeed, so a Completed workflow with unique names has names unique up to case |
| RunRecords.RecordsAreAccounted | internal/controller/adaptiveworkflow_controller.go:305-342 | in every run the execution records are, as a multiset, the Succeeded tasks plus, for each Reconcile that was cut short, the successes it had recorded and could not persist |
| RunRecords.RecordedAtLeastOnce | internal/controller/adaptiveworkflow_controller.go:305-342 | in every run each Succeeded task, persisted or in memory, has been recorded at least once |
| RunRecords.RecordedExactlyOnceIff | internal/controller/adaptiveworkflow_controller.go:305-342 | at any moment of any run each Succeeded task has been recorded exactly once and no other at all if and only if no Reconcile was cut short, by a crash or a failed call, between recording a success and persisting it |
| Witnesses.RecordedTwice | internal/controller/adaptiveworkflow_controller.go:200-202 | a failed write of the completed status leads to a state in which the only task's success has been recorded twice |
| RunClean.LivePodsWithinBudget | internal/controller/adaptiveworkflow_controller.go:227-239 | with names unique up to case, and as long as every pod creation is learned of and no Reconcile is cut short between creating a pod and persisting its task's start, the requests of all unfinished pods are within the cap at every moment |
| PodBudget.RunsCheckPods | internal/optimizer/greedy.go:94-113 | every pod ever created fits, on its own, the cap that the planner sees |
| PodBudget.LiveIsUnique | internal/controller/adaptiveworkflow_controller.go:226-262 | where of any two tasks that can be started one depends on the other, no two pods are alive together in any reachable state |
| PodCeiling.Overcommit | internal/controller/adaptiveworkflow_controller.go:226-262 | two tasks that can be started, neither depending on the other, are alive together with the whole cap each after two status writes have failed, whatever the planner |
| PodCeiling.PlannerCapBoundsPodsIff | api/v1/adaptiveworkflow_types.go:46-49 | the live pods of a workflow stay within the cap the planner sees, in every reachable state, if and only if that cap is unlimited or of any two tasks that can be started one depends on the other |
| PodCeiling.MaxResourcesBoundPodsIff | api/v1/adaptiveworkflow_types.go:46-49 | the live pods of a workflow stay within MaxResources, in every reachable state, if and only if MaxResources is not set, or nothing can be started, or the planner is in process or the cap exact and of any two tasks that can be started one depends on the other |
| PodCeiling.NoCeilingIff | api/v1/adaptiveworkflow_types.go:46-49 | MaxResources bounds the live pods of all workflows, in every reachable state, if and only if it allows every usage |
| Staging.Stage | internal/controller/adaptiveworkflow_controller.go:211-262 | a run reaches, for any set of tasks closed under dependencies, a state in which exactly these have begun and have succeeded, and no other task has a pod |
| Ancestors.LevelsReachStartable | internal/optimizer/greedy.go:72-83 | some level contains every task outside the greatest blocked set |
| Reconciling.ReconcileIsMicroSteps | internal/controller/adaptiveworkflow_controller.go:108-265 | every Reconcile, however its calls turn out, is a sequence of micro-steps |
| Reconciling.ReconcileStaysReachable | internal/controller/adaptiveworkflow_controller.go:108-265 | a Reconcile leads from states that runs reach to states that runs reach |
| Reconciling.ReconcileForward | internal/controller/adaptiveworkflow_controller.go:108-265 | a Reconcile only moves the persisted status forward |
| ReconcileEffects.SyncIgnoresOrder | internal/controller/adaptiveworkflow_controller.go:287-350 | after folding in a listing each task's status is what its own pod says, and the records are the newly Succeeded tasks, whatever the listing order |
| ReconcileEffects.SyncFolds | internal/controller/adaptiveworkflow_controller.go:287-350 | the sync only moves Running tasks to Succeeded or Failed; their resources and pod names, and all other tasks, stay |
| Outcomes.RecordsFollowListing | internal/controller/adaptiveworkflow_controller.go:287-342 | records are appended in the order in which the pods are listed |
| Outcomes.InitialOutcome | internal/controller/adaptiveworkflow_controller.go:112-132 | the first Reconcile persists every spec task as Pending without pod or resources in a Pending workflow, and touches nothing else |
| Outcomes.NothingDone | internal/controller/adaptiveworkflow_controller.go:137-146 | an ended workflow, or one whose pods cannot be listed, is left exactly as it is |
| Outcomes.EndOutcome | internal/controller/adaptiveworkflow_controller.go:151-206 | a workflow found to have ended is persisted with what the sync found: failed if any task has failed, otherwise Completed and without usage |
| Outcomes.FailedPlanning | internal/controller/adaptiveworkflow_controller.go:221-224 | a failed planning call persists nothing and creates no pod; only the records of the sync remain |
| Outcomes.FailedCallPersistsNothing | internal/controller/adaptiveworkflow_controller.go:126-262 | whenever a call that the Reconcile needs fails, the persisted status stays as it was |
| Outcomes.NoPlanNoPods | internal/controller/adaptiveworkflow_controller.go:108-228 | a Reconcile that does not get as far as a plan leaves the pods as they were |
| Outcomes.SuccessAt | internal/controller/adaptiveworkflow_controller.go:227-244 | the i-th task of a plan counts as started exactly when its own creation succeeds |
| Outcomes.CreatedAt | internal/controller/adaptiveworkflow_controller.go:356-422 | the i-th task of a plan that has no pod yet gets one, Pending and with its allocation, exactly when its own creation is not refused |
| ReconcileEffects.NamelessFailureIsIgnored | internal/controller/adaptiveworkflow_controller.go:289-292 | the failure of the pod of a task named "" makes no difference to the statuses the controller goes on with |
| ReconcileEffects.UsageIsConserved | internal/controller/adaptiveworkflow_controller.go:221-249 | with unique names the new usage is the old usage less the requests of finished tasks plus those of tasks actually started, and equals the planner's total when all creations succeed |
| Repeating.RepeatChangesNothingIff | internal/controller/adaptiveworkflow_controller.go:221-262 | repeating a Reconcile whose creations succeeded, with the same predictions and unmoved pods, changes nothing at all if and only if no started task had a finished pod left over |
| Repeating.CleanRunsRepeatQuietly | internal/controller/adaptiveworkflow_controller.go:221-262 | under the same condition such a repetition always changes nothing |
| Witnesses.LeftoverExists | internal/controller/adaptiveworkflow_controller.go:226-244 | a pod creation reported as failed leads to a state in which a task is started although its pod has finished |
| Witnesses.LeftoverChangesRepetition | internal/controller/adaptiveworkflow_controller.go:226-262 | repeating the Reconcile of that state does change something |
| Controller.Reconciler.Reconcile | internal/controller/adaptiveworkflow_controller.go:108-265 | the cluster ends up in the specified state, which a run reaches; the persisted status moved forward and keeps the budget; the answer is an error exactly when a call that was needed failed, and then nothing was persisted; to requeue at once exactly after initialising; to requeue later exactly after persisting a plan's outcome; and to stop exactly when the workflow has ended |
| Controller.Reconciler.SyncPodsToStatus | internal/controller/adaptiveworkflow_controller.go:272-353 | the loop folds every listed pod into the working copy and appends one record per success |
| Controller.Reconciler.Decide | internal/controller/adaptiveworkflow_controller.go:148-265 | failing, completing, or planning, spawning and writing gives exactly the specified cluster; the answer is an error exactly when the write fails or, where the workflow has not ended, the planning call does, and then nothing was persisted |
| Controller.Reconciler.SpawnTasks | internal/controller/adaptiveworkflow_controller.go:226-244 | pods are created in plan order and exactly the successfully created tasks become Running with their allocation |
| Controller.Reconciler.CreateTaskPod | internal/controller/adaptiveworkflow_controller.go:356-422 | fails for tasks the spec does not know, leaves an existing pod of that name alone, otherwise adds one Pending pod |
| Controller.Reconciler.ComputeResourceUsage | internal/controller/adaptiveworkflow_controller.go:425-451 | the sum of the Running tasks' requests |
| Controller.SomeFailed | internal/controller/adaptiveworkflow_controller.go:151-173 | true exactly when some task has Failed, in any iteration order |
| Controller.EverySucceeded | internal/controller/adaptiveworkflow_controller.go:178-184 | true exactly when all tasks have Succeeded, in any iteration order |
| Levels.StuckIsGreatestBlocked | internal/optimizer/greedy.go:72-83 | the tasks in some blocked set form the greatest blocked set |
| Levels.NothingStuckIff | internal/optimizer/greedy.go:72-83 | with unique names nothing is stuck if and only if every dependency exists and the graph is acyclic |
| Levels.LevelIsChainLength | internal/optimizer/greedy.go:72-83 | a task is within the first k levels if and only if no chain of more than k tasks starts at it |
| Rounds.RoundRests | internal/controller/adaptiveworkflow_controller.go:144-264 | one round from any state reached by a run without a failed pod leaves no task Failed, every pod Succeeded, a pod for every started task, and no more waiting tasks than before |
| Rounds.MiddleRound | internal/controller/adaptiveworkflow_controller.go:211-262 | a round with Pending tasks goes on running and starts exactly what the planner plans |
| Progress.OnlyStuckTasksRemain | internal/controller/adaptiveworkflow_controller.go:112-264 | recovery: from any state reached by a run without a failed pod, one more round than there are waiting tasks leaves exactly the greatest blocked set Pending, if each waiting task always fits alone |
| Progress.CompletesInTime | internal/controller/adaptiveworkflow_controller.go:112-264 | from any such state, with predictions that change every round, two more rounds than there are waiting tasks complete the workflow if nothing is stuck and each waiting task always fits alone |
| Progress.CompletesIff | internal/controller/adaptiveworkflow_controller.go:112-264 | from any such state, with unique names and unchanging predictions, two more rounds than there are waiting tasks complete the workflow if and only if it has tasks, none named "", names unique up to case, all dependencies present, no cycle, and every waiting task alone fits the cap |
| Progress.StartWaits | internal/controller/adaptiveworkflow_controller.go:112-132 | the start is such a state, with at most as many waiting tasks as the spec has entries, so n + 2 rounds suffice for n tasks |
| CriticalPath.RoundsAreLevels | internal/optimizer/greedy.go:72-113 | without a cap each round from the start begins exactly the next dependency level |
| CriticalPath.CompletesWithCriticalPath | internal/controller/adaptiveworkflow_controller.go:178-264 | without a cap the workflow is Completed after k rounds if and only if k is at least the number of tasks on the longest dependency chain plus two |
| Progress.SmoothRoundsExist | internal/controller/adaptiveworkflow_controller.go:112-264 | rounds as the progress theorems assume them exist from every such state, in any number, with any predictions |
| Layout.CalculateSimulationLayouts | ui/src/App.tsx:128-182 | in numbers: a baseline block starts when the last of its dependencies ends, or at 0, stands on 65 for each block before it at its start, and has crashed if there are two of them; an adaptive block takes the earliest 10-px step from there at which no two blocks before it meet; the limit is 150, and isCrasher holds exactly when three baseline blocks meet |
| Layout.LayOutBaseline | ui/src/App.tsx:131-145 | each block starts when the last of its dependencies listed before it ends, or at 0; the per-column counter is 65 for each block placed before at that start; a block has crashed exactly if there are two of them |
| Layout.Search | ui/src/App.tsx:159-169 | the open-ended loop terminates and returns the first step that passes the sampled test |
| Layout.LayOutAdaptive | ui/src/App.tsx:147-177 | each block takes the earliest 10-px step, from the end of the last of its dependencies or 0, at which it covers no point covered twice, and stands on what covers its start |
| Layout.SamplingIsExact | ui/src/App.tsx:161-165 | testing every tenth pixel succeeds if and only if the block fits at every point it covers |
| Layout.AdaptiveIsEarliest | ui/src/App.tsx:154-169 | each block takes the earliest 10-px step, from the latest end of the dependencies listed before it or from 0 if there is none, at which it really fits |
| Layout.BaselineIsLatestEnd | ui/src/App.tsx:135-142 | the baseline starts each task at the latest end of the dependencies listed before it, or at 0 if there is none |
| Layout.ClearIff | ui/src/App.tsx:160-167 | a block fits exactly where no two others meet under it |
| Layout.ExceedsIff | ui/src/App.tsx:129-144 | the limit is exceeded exactly where three blocks meet |
| Layout.AdaptiveWithinLimit | ui/src/App.tsx:147-177 | the adaptive layout's height never exceeds the limit, at any point in time |
| Layout.LayoutsOnGrid | ui/src/App.tsx:131-177 | in both layouts every start is a multiple of the block width |
| Layout.DependenciesEndFirst | ui/src/App.tsx:135-156 | with unique names a task listed after a dependency starts no earlier than that ends, in both layouts |
| Layout.NoOverlap | ui/src/App.tsx:140-174 | no two rectangles of a layout overlap |
| Layout.CrashesIffExceeds | ui/src/App.tsx:144-179 | some block is marked crashed if and only if the height exceeds the limit somewhere |
| Layout.AdaptiveNoEarlier | ui/src/App.tsx:131-177 | the adaptive layout starts no task earlier than the baseline |
| Layout.LayoutsCoincideIff | ui/src/App.tsx:131-181 | the two layouts start all tasks at the same places if and only if the baseline stays within the limit |

## Left out

Assumptions of the model:

- The spec does not change during a run; quantities are non-negative; no 64-bit integer overflows.
- Pods that have Succeeded or Failed stay so; pods are not deleted from outside, and no foreign pod carries one of the workflow's pod names or labels.
- Get and List read the true pods; the staleness of informer caches is not modelled.
- `strings.ToLower` is modelled on the ASCII letters.
- Pods are not validated: names that are not valid RFC 1123 subdomains (such as those of tasks named `""` or `train_model`) and limits below requests are admitted, so the progress theorems speak of tasks whose pods Kubernetes accepts.
- `int64(float64(x) * 1.5)` is modelled as `3 * x / 2`, which agrees for non-negative x below 2^52.
- A state database is configured; its write is the append to the execution records, whose workflow, image, duration and resource fields are not modelled.

Contracts weaker than one might expect:

- RunBudget.RemoteBudgetHolds: bounds the excess for every cap; exactly which caps are enforced without any excess is ServiceCap.BoundsRunningIff.
- RunSafety.FailureFreezes: does not speak of a task named "", for which it is false (Freezing.FreezesIff).
- RunUsage.ReportedUsageIsAccurate: excludes failed workflows, for which RunUsage.FailedUsageIff is exact.
- RunClean.LivePodsWithinBudget: the condition on runs is sufficient only, as a pod whose start goes unwritten need not exceed the cap; which workflows keep the bound in all runs is exact (PodCeiling.MaxResourcesBoundPodsIff).
- PodCeiling.MaxResourcesBoundPodsIff: assumes that task names are unique up to case and not empty and that there is a task.
- Progress.CompletesIff: assumes predictions that stay the same; when they change from round to round only the sufficient direction is proved (Progress.CompletesInTime), because a task that does not fit in one round may fit in the next.
- Agreement.GoAndCppAgreeIff: compares tasks, order and requests; the limits differ on purpose, because the Go planner passes on the user's limits and the C++ planner doubles the requests.
- Layout.AdaptiveWithinLimit: speaks of integer points in time; positions and sizes are integers, so the height is constant in between.

Parts of the repository that are not modelled:

- Conditions, events, logging, timestamps, finalizers and owner references.
- The listing's fallback from the field index to the label selector; a listing either shows all pods of the workflow or fails.
- gRPC transport, time-outs, servers, reflection and signal handling; an unreachable optimizer is a failed planning call.
- The field-by-field copy in optimizer-service/src/main.cpp, which is the identity on the modelled fields.
- Predicted durations and confidences, images, commands and the optimization goal, which do not influence planning.
- Model training and inference; predictions are arbitrary and may change at every planning.
- The command line tool, HTTP handlers, YAML generation and rendering.
- Splitting and trimming the dashboard's dependency strings (dependencies are given as lists of names), and task names that are properties of every JavaScript object.
