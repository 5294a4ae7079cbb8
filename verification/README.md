# Tenstorrent Kubernetes driver manager: a verified model

This project models the controllers of the Tenstorrent driver manager in Dafny and proves what they
promise. Two controllers work on the nodes of a cluster:

* The **firmware controller** flashes new firmware. It stores no state machine. Every reconcile derives
  each node's state from what the cluster shows: whether the flash Job exists and how it ended, whether
  the node is unschedulable and who cordoned it, which pods still hold the device. Then it takes at most
  one action per node, under a budget of `maxParallel` unfinished Jobs, while Jobs finish, pods vanish and
  patches fail around it.
* The **driver controller** rolls a DaemonSet whose pods unload, build and load the kernel module. It
  cordons and drains nodes in two passes before a roll and lifts its cordons afterwards. The guarantee is
  split over Go code, a shell script, a readiness probe and the DaemonSet controller.

Around them stand the event deduplication behind the counters, the gauges, the translation of label
selectors to node affinity, and the flasher's decision script.

## How the model is built

* `Firmware.Reconcile` is one reconcile as a function of the cluster (`World`) and its context (`Ctx`).
  Every answer of the API server is a field of `Ctx.api`, a record of arbitrary functions: listings may
  fail, patches may be applied, rejected, or applied with the response lost, evictions may be accepted,
  blocked or fail, Jobs may move and pods may come and go between any two turns of the loop. A theorem
  about every `Ctx` is therefore a theorem about every pattern of failures.
* `Protocol` interleaves reconciles of any number of policies with everything else that happens to the
  cluster. Theorems over runs quantify over every sequence of events.
* `Controller.Reconciler` is the same reconcile in the form the program has: fields updated in place,
  loops with `continue` and `break`, one patch at a time. `Controller.Reconciler.Reconcile` is proved to
  compute exactly `Firmware.Reconcile`, so every theorem is about it too. `DriverController`, `Metrics`,
  `FirmwareMetrics.Recorder`, `Gauges.Registry` and `BuilderScript.Host` do the same for their parts.
* `DriverRollout` is a driver upgrade on one node as a transition system. Both of its halves are refined:
  every run of the start-up script is one of its runs (`BuilderScript.Host.Entrypoint`), and so is every run
  of the controller's own functions (`DriverReconcile.RunRefines`).
* The functions of this specification are tied down from the other side as well. `Observed`, `OptOut`, `DrainTurn`,
  `Actions`, `DriverVerdict` and `DriverGates` say what each decision comes to in terms of labels, conditions,
  timestamps, pods and answers alone, without naming the function that decides, and the methods promise the same.
* `Steps`, `Passes` and `NodeLife` say once what a step, the whole loop and a single node's turn change;
  all invariants build on them. Their central fact is `NodeLife.ReconcileMoves`: one reconcile changes a
  node exactly as the one move due to it, whatever happened to the other nodes before and after.

Reconciles are serialized and read the cluster fresh, as `internal/metrics/metrics.go:218-221` notes.

## What the proofs brought to light

* `internal/controller/firmware_policy_controller.go:590-593` says every in-flight node counts against
  `maxParallel`. The code bounds unfinished Jobs only. One round newly cordons every node that is due
  (`CordonCount.RoundCordons`), so the nodes held cordoned stay within the cap exactly when those that stay
  and those that are due do (`CordonCount.CordonsWithinCapExactlyWhen`). `Instances.TwoCordonsUnderCapOne` is
  a cluster where they do not. The model follows the code.
* A failed Job lookup is reported as Pending, and the loop may then create the Job without the drain gate.
  `DrainGate.FlashedExactlyWhen` says exactly when a Job is created, from what is known before the loop runs;
  `Instances.FlashedUndrained` is a node flashed with a device pod still on it. A failed lookup also hides a
  failed Job from the halt check: `BlastRadius.HaltedExactlyWhen` says exactly what halts a rollout, and in
  `Instances.FailureUnseen` the next node is flashed.
* The gauges are set before the status is written, so a failed write leaves them ahead of it. They agree
  exactly when the write lands or no count has moved (`GaugeHistory.AgreesExactlyWhen`,
  `Instances.GaugesAheadOfStatus`).
* A status of Uncordoning and the act of uncordoning agree exactly when the last builder pod listed for a
  node speaks for every Ready one (`Driver.StatusMeansAction`); `Driver.TwoPodsDisagree` is an instance
  where they do not. With drain switched off, a node cordoned earlier stays cordoned over any run while it is
  published as Uncordoning (`DriverReconcile.UncordoningWithoutDrain`).
* The driver takes over and finally lifts cordons it did not place. `DriverDrain.ForeignCordonKeptExactlyWhen`
  and `DriverDrain.ForeignCordonLiftedExactlyWhen` say exactly when, `DriverDrain.ForeignCordonIsLost` is an
  instance.
* With a paused policy whose template lags behind its spec, the uncordon patch can land after the Ready
  builder was replaced: `DriverRollout.PausedUncordonRaces` gives the run, for any two versions.
* A chip that reports an empty version escapes the flasher's checks (`Flasher.EmptyVersionSlipsThrough`).
  Success means all chips are at the target exactly when every chip reported one clean word.
* `docs/firmware.md:58` documents `homogenizeFirmwareVersions` as false by default; with no flasher section
  the Job template sets it to true (`internal/controller/job.go:69`). The model follows the code.
* `internal/controller/job.go:24-26` promises Job names of at most 63 characters. `FlashJob.FitsExactlyWhen`
  says when that holds; `FlashJob.OneTooMany` is an instance where it does not. The same comment promises a
  DNS-safe name: `FlashJob.DnsSafeExactlyWhen` says when it is one, and in `FlashJob.NotDnsSafe` the cut after 48
  characters falls behind a dot of the node's name, which makes every Job name of that node an invalid one.
* A node's state label is meant to mirror the status. When the patch that labels a freshly flashed node is rejected,
  the controller's own copy already says Flashing and the status pass leaves the server's label as it was.
  `Mirrors.LabelsFollowExactlyWhen` says that this is the only way; `Instances.LabelBehindStatus` is an instance.
* A node the DaemonSet never reaches can be counted as matched (`Scheduling.SkippedByAnyValue`).

## Model

| member | source | states |
|---|---|---|
| Convergence.Converges | internal/controller/firmware_policy_controller.go:151-193 | undisturbed, N matched nodes are all flashed and schedulable after any number of rounds from ceil(N / maxParallel) + 3 on |
| Convergence.RoundLowers | internal/controller/firmware_policy_controller.go:594-657 | while some node is not done and a slot is free, a round strictly lowers the stages left, summed over the fleet |
| Convergence.RoundServes | internal/controller/firmware_policy_controller.go:170-189 | once nothing cordons, drains or flashes, a round takes maxParallel nodes off the queue, or empties it |
| Convergence.LateSize | internal/controller/firmware_policy_controller.go:174-177 | of the waiting nodes, all but the first m come after m others |
| Convergence.StillWaiting | internal/controller/firmware_policy_controller.go:170-189 | once nothing cordons, drains or flashes, whoever still waits after a round came after maxParallel others |
| Convergence.UntouchedIsRollable | internal/controller/firmware_policy_controller.go:393-505 | an untouched cluster with schedulable, unclaimed matched nodes meets the theorem's hypotheses |
| SmoothRound.RoundNode | internal/controller/firmware_policy_controller.go:393-505 | a round moves each matched node to the stage that follows its own, a waiting node exactly when a slot is left at its turn |
| SmoothRound.SlotsLeft | internal/controller/firmware_policy_controller.go:157-189 | the slots left at a node's turn are the cap less the running Jobs and the waiting nodes before it |
| SmoothRound.DrainsAll | internal/controller/firmware_policy_controller.go:609-640 | a round evicts every device pod a draining node waits for |
| SmoothRound.RoundJobs | internal/controller/firmware_policy_controller.go:673-687 | after a round no Job is unfinished and none failed that had not failed before |
| SmoothRound.NeverHalts | internal/controller/firmware_policy_controller.go:119-160 | without failures and with every call answered the loop runs, and every state is the node's true stage |
| CordonCount.RoundCordons | internal/controller/firmware_policy_controller.go:170-177 | a round newly cordons exactly the nodes that are due, all of them, and gives back exactly those it is due to |
| CordonCount.CordonsWithinCapExactlyWhen | internal/controller/firmware_policy_controller.go:590-593 | after a round the nodes held cordoned are within maxParallel if and only if those that stay plus those that were due are |
| CordonCount.RoundHolds | internal/controller/firmware_policy_controller.go:600-653 | after a round a matched node is held if and only if it was due, or was held and is not being given back |
| Instances.TwoCordonsUnderCapOne | internal/controller/firmware_policy_controller.go:590-593 | two due nodes under a cap of one are both cordoned |
| BlastRadius.BlastRadius | internal/controller/firmware_policy_controller.go:119-160 | over any run at a fixed spec with haltOnFailure and snapshot reads, failed and unfinished Jobs together never exceed maxParallel, so at most that many ever stand failed |
| BlastRadius.NoJobAfterFailure | internal/controller/firmware_policy_controller.go:119-132 | once a Job of the policy has failed, no reconcile of it creates another |
| BlastRadius.HaltedExactlyWhen | internal/controller/firmware_policy_controller.go:119-132 | a rollout halts if and only if haltOnFailure is on and a matched node it may own has a failed Job or an overdue drain that the answered calls show |
| BlastRadius.PassKeepsExposure | internal/controller/firmware_policy_controller.go:157-193 | inside the loop too, with Jobs failing between turns, Jobs at risk stay within the cap |
| BlastRadius.FailureHalts | internal/controller/firmware_policy_controller.go:119-132 | a failed Job of the policy is seen by a snapshot and halts the rollout |
| BlastRadius.FailuresFromTheStart | internal/controller/firmware_policy_controller.go:119-160 | from a cluster no policy has touched at most maxParallel Jobs ever stand failed |
| Instances.FailureUnseen | internal/controller/firmware_policy_controller.go:407-411 | with haltOnFailure on, a failed Job whose lookup fails, and the next node flashed all the same |
| BlastRadius.UntouchedIsContained | internal/controller/firmware_policy_controller.go:134-148 | the bound holds of an untouched cluster, where a run may start |
| SlotBound.SlotBound | internal/controller/firmware_policy_controller.go:134-193 | over any run, across version bumps and cap changes up to m, at most m unfinished Jobs exist |
| SlotBound.PassWithinCap | internal/controller/firmware_policy_controller.go:157-193 | at every point of the loop unfinished Jobs stay within the cap or within what ran already; other policies gain none |
| SlotBound.TurnSpends | internal/controller/firmware_policy_controller.go:178-192 | counted Jobs plus slots left never grow in a turn, so no failed patch leaks a slot |
| SlotBound.OccurWithinCap | internal/controller/firmware_policy_controller.go:673-687 | only a reconcile of the policy itself can raise its number of unfinished Jobs, and only up to its cap |
| SlotBound.ReconcileWithinCap | internal/controller/firmware_policy_controller.go:134-193 | a reconcile leaves at most max(cap, what ran before) unfinished Jobs and adds none to other policies |
| Ownership.OwnershipExclusion | internal/controller/firmware_policy_controller.go:361-375 | over any interleaving of policies the owner label is written once, every Job and firmware cordon belongs to its node's owner, and no node carries Jobs of two policies |
| Ownership.ReconcileOwns | internal/controller/firmware_policy_controller.go:164-182 | a reconcile keeps that discipline and leaves another policy's nodes exactly as they were |
| Ownership.OccurOwns | internal/controller/firmware_policy_controller.go:361-375 | every event of a run keeps Jobs and cordons with the node's owner, and owners as they are |
| Ownership.AdvanceCordons | internal/controller/firmware_policy_controller.go:594-657 | a node's action leaves the cordon mark alone, clears it, or makes it this policy's |
| DrainGate.FlashedExactlyWhen | internal/controller/firmware_policy_controller.go:450-504 | a node gets its Job if and only if fewer nodes before it take a slot than there are, its claim and Create go through, and drain is off, its lookup failed, or it is cordoned by this policy and free of device pods |
| Instances.FlashedUndrained | internal/controller/firmware_policy_controller.go:407-411 | with drain on, a schedulable node with a pod on the device whose lookup fails is flashed |
| Slots.SlotsBefore | internal/controller/firmware_policy_controller.go:157-189 | under any answers, the slots left at a node's turn are the budget less the earlier nodes that wait and whose claim and Create go through |
| Slots.MoveSpends | internal/controller/firmware_policy_controller.go:178-189 | an action spends a slot if and only if the node was waiting and its claim and Create go through |
| DrainGate.DrainBeforeFlash | internal/controller/firmware_policy_controller.go:641-645 | with drain on and the lookup answered, a node that gets a Job was cordoned by this policy and drained, and its cordon still stands after the loop |
| DrainGate.NewJobs | internal/controller/firmware_policy_controller.go:692-734 | a reconcile creates Jobs only for listed nodes it may own, at its own version, and only when it advances |
| CordonPairing.EveryUncordonHasItsCordon | internal/controller/firmware_policy_controller.go:600-607 | before each uncordon of a run stands a cordon by the same policy on the same node, placed while it was schedulable, with no uncordon in between |
| CordonPairing.CordonPairs | internal/drain/drain.go:43-71 | the log of cordon writes and the marks on the nodes agree at every point of a run |
| CordonPairing.PairedFromTheStart | internal/controller/firmware_policy_controller.go:600-607 | cordons and uncordons are paired in every run of a cluster no policy has touched before |
| CordonPairing.ReconcileLogs | internal/controller/firmware_policy_controller.go:600-607 | a reconcile logs a cordon only of a schedulable node and an uncordon only of a cordon it holds |
| CordonPairing.ForeignCordonStands | internal/controller/firmware_policy_controller.go:456-471 | a node somebody else made unschedulable is never stamped or made schedulable, and with drain on and the lookup answered never flashed |
| Progress.MonotoneProgress | internal/controller/firmware_policy_controller.go:393-505 | over any run that leaves an owned node alone its stage never rises, under any failures, pauses and halts; Done and Failed are final |
| Progress.ReconcileDescends | internal/controller/firmware_policy_controller.go:594-657 | no single reconcile raises a node's stage, whatever the API server answers |
| Progress.MoveDescends | internal/controller/firmware_policy_controller.go:594-657 | the action taken on any observation of a node, even a wrong one, never raises its stage |
| Progress.ObservedStage | internal/controller/firmware_policy_controller.go:393-505 | when the calls are answered and the drain is not overdue, the observed state is the node's true stage |
| NodeLife.ReconcileMoves | internal/controller/firmware_policy_controller.go:157-193 | a listed node, its status and its Job end exactly as its one move leaves them, up to mirrored labels |
| NodeLife.ReconcileSkips | internal/controller/firmware_policy_controller.go:164-182 | a node the policy does not match or another one owns is left as it was, with the Jobs it had |
| NodeLife.TurnStarts | internal/controller/firmware_policy_controller.go:157-193 | at its turn a node is as the reconcile found it, on the server, in the copy and in its Jobs |
| Passes.PassShape | internal/controller/firmware_policy_controller.go:157-193 | after k turns, nodes not met yet are untouched on the server and in the local copy, and later states are as observed |
| Passes.ReconcileLeaves | internal/controller/firmware_policy_controller.go:243-300 | publishing changes nothing but two labels, one annotation and the status |
| Passes.TidyAllMirrors | internal/controller/firmware_policy_controller.go:260-281 | the status pass writes mirrored labels and the version annotation of owned nodes and nothing else |
| Passes.ObservedAt | internal/controller/firmware_policy_controller.go:103-117 | every state is the observation of a matched node the policy may own, or a reported conflict |
| Passes.ObservedCovers | internal/controller/firmware_policy_controller.go:332-359 | every matched node has a state |
| Steps.AdvanceCreates | internal/controller/firmware_policy_controller.go:641-645 | a Job appears exactly for a Pending node whose claim and Create succeed, and that node is then Flashing |
| Steps.AdvanceOwner | internal/controller/firmware_policy_controller.go:594-597 | a node that is not this policy's after the action was not touched at all |
| Steps.TurnFrame | internal/controller/firmware_policy_controller.go:157-193 | a turn changes its own node only, and by exactly that node's move |
| Steps.TurnJobs | internal/controller/firmware_policy_controller.go:178-189 | a turn creates no Job, or one new Job for its own node, paid for with a slot |
| Steps.ClaimFrame | internal/controller/firmware_policy_controller.go:736-741 | claiming writes the owner label and nothing else; a clean claim leaves the node owned |
| Matching.MatchedSetStable | internal/controller/firmware_policy_controller.go:332-359 | no reconcile of any policy changes which nodes a selector picks that ignores the operator's own labels |
| Matching.ReconcileLabels | internal/controller/firmware_policy_controller.go:736-763 | a reconcile changes no label of a node but the operator's own three |
| OptOut.LeftAlone | internal/controller/firmware_policy_controller.go:346-356 | a node the selector misses, whose skip label is "true", or that lacks the device label where it is required, is left identical by every reconcile, gets no Job and has no status entry |
| OptOut.PublishedExactlyWhen | internal/controller/firmware_policy_controller.go:332-359 | a node has a status entry if and only if the selector picks it, its skip label is not "true" and it has the device label where that is required |
| OptOut.PartitionMeans | internal/controller/firmware_policy_controller.go:365-375 | the nodes on each side of the split are exactly the listed ones that are selected, not opted out, and free of another policy's owner label, or not |
| DrainTurn.EvictedExactly | internal/controller/firmware_policy_controller.go:609-640 | under any answers, a reconcile evicts exactly the accepted device pods of the nodes it drains that come before the first failed eviction of their node; a blocked one stops nothing |
| DrainTurn.AcceptedPodGoes | internal/controller/firmware_policy_controller.go:609-640 | in an undisturbed reconcile a device pod, told by phase, owners, namespace and host path, of a drained node goes whenever its own eviction is accepted and none fails outright, however many are blocked |
| DrainTurn.BlockedIsPublished | internal/controller/firmware_policy_controller.go:618-632 | an entry is published as EvictionBlocked if and only if the node was drained and some eviction tried was blocked; the message names the last one |
| DrainTurn.DrainMeans | internal/controller/firmware_policy_controller.go:609-640 | over any list of pods: accepted ones up to the first failure are evicted, the last blocked one is remembered, and the drain is fine if and only if no eviction failed outright |
| DrainTurn.PodsAsFound | internal/controller/firmware_policy_controller.go:609-613 | while nobody interferes the pods drained are those the reconcile found |
| Actions.CordonChangesExactlyWhen | internal/controller/firmware_policy_controller.go:600-657 | a reconcile makes a node's cordon its own, timestamp kept, if and only if no Job was found, drain is on, the node is schedulable, and claim and patch get through; it lifts it, owner and timestamp, if and only if the Job has succeeded, drain is on, the cordon is its own and the patches get through; it changes no cordon otherwise |
| Actions.ClaimedExactlyWhen | internal/controller/firmware_policy_controller.go:594-597 | a node becomes this policy's if and only if it is acted on, with a slot if it starts afresh, and the claim is not rejected; otherwise the owner label stays |
| Actions.NotedExactlyWhen | internal/controller/firmware_policy_controller.go:724-728 | version and Job are noted on a node if and only if its Job is created and the note is not rejected |
| Observed.ObservedState | internal/controller/firmware_policy_controller.go:393-505 | each observed state if and only if its case of Job outcome, drain switch, scheduling, cordon owner, listed device pods and readable, passed deadline holds |
| Observed.ObservedReason | internal/controller/firmware_policy_controller.go:393-505 | each reason if and only if its case holds; the image-pull reason for exactly the two kubelet codes |
| Observed.ObservedDetails | internal/controller/firmware_policy_controller.go:393-505 | versions, Job and message carried by an observation: the node's annotations, the Job seen, the pods that block |
| Observed.Defaults | internal/controller/drain.go:18-61 | an absent switch is on, an absent cap is one, an absent drain timeout ten minutes, an absent readback version the version plus ".0" |
| Observed.ActiveMeans | internal/controller/firmware_policy_controller.go:678-687 | the Jobs in flight are the policy's own without a true terminal condition, whatever their version |
| Observed.ParkedReason | internal/controller/firmware_policy_controller.go:195-215 | a node that could have been advanced is published as AutoUpgradeDisabled if and only if upgrades are off, else as Paused if and only if paused, else as RolloutHalted if and only if halted; other reasons stay |
| Observed.ConflictIsPublished | internal/controller/firmware_policy_controller.go:103-117 | a matched node of another policy is published as Pending in conflict, whatever the loop does |
| Observed.FlashIsPublished | internal/controller/firmware_policy_controller.go:692-734 | a node whose Job was created is published as Flashing with that Job and its version as it was, whatever patch failed |
| Observed.EventMeans | internal/controller/firmware_policy_controller.go:507-545 | every event repeats a published entry with a reason, and is a Warning if and only if the node failed or the reason is one of six |
| Mirrors.LabelsFollowExactlyWhen | internal/controller/firmware_policy_controller.go:260-281 | when the patches of the status pass land, an owned node ends with the label of its published state, and its readback version once Done, if and only if it is not a new Job whose flash label was rejected |
| Instances.LabelBehindStatus | internal/controller/firmware_policy_controller.go:743-752 | a node flashed with only that patch rejected: its label does not say what the status says |
| Kube.OutcomeMeans | internal/controller/job.go:187-200 | a Job has succeeded if and only if its earliest terminal condition is Complete or SuccessCriteriaMet, failed if and only if it is Failed, and runs if and only if it has none |
| Status.PublishesMatchedNodes | internal/controller/firmware_policy_controller.go:284-301 | the status lists exactly the matched nodes, each once, in name order |
| Status.SortedPermutation | internal/controller/firmware_policy_controller.go:284-285 | sorting yields the same entries in name order |
| Status.BeforeMeans | internal/controller/firmware_policy_controller.go:284-285 | the name order is that of the first differing character, a proper prefix first |
| Status.SummaryAddsUp | internal/controller/firmware_policy_controller.go:243-259 | each summary column is the number of entries in its states, and the columns add up to matched |
| Status.RequeueMeans | internal/controller/firmware_policy_controller.go:321-326 | a reconcile is complete if and only if listings, selector and status write were fine; it requeues if and only if it is not or a published node is neither Done nor Failed; Ready and Progressing say what they should of the published entries |
| Status.ReadyMeans | internal/controller/firmware_policy_controller.go:774-799 | Ready is True if and only if every matched node is Done, Progressing if and only if none has failed and some is not Done |
| Status.ParkedNodesAreExplained | internal/controller/firmware_policy_controller.go:195-215 | while a policy is switched off, paused or halted, every node published as Pending carries a reason |
| History.PublishedHistory | internal/controller/firmware_policy_controller.go:223-241 | over any run whose status writes succeed, a node's transition time is that of the latest reconcile that changed its (state, reason), and its events are exactly those changes with a reason, in order |
| History.ReconcilePublishes | internal/controller/firmware_policy_controller.go:223-241 | one reconcile keeps the time of an entry that did not move and stamps and announces the others |
| Quiescence.SecondReconcileIsSilent | internal/controller/firmware_policy_controller.go:195-282 | on an idle cluster (paused, switched off, halted, all terminal or waiting for Jobs) a second reconcile writes no node, creates no Job, evicts no pod and emits no event |
| Quiescence.TidyAllMirrored | internal/controller/firmware_policy_controller.go:260-281 | after the status pass every owned node shows its published state and, once done, its version |
| Quiescence.NothingMoved | internal/controller/firmware_policy_controller.go:195-241 | what the second reconcile is about to publish has the names, states and reasons the first one published |
| Controller.Reconciler.Reconcile | internal/controller/firmware_policy_controller.go:54-327 | the imperative reconcile leaves exactly the cluster, status, summary, events and requeue of the specification |
| Controller.Reconciler.ObserveAndAdvance | internal/controller/firmware_policy_controller.go:75-193 | listing, observing, counting and advancing reach exactly the specified point of the pass |
| Controller.Reconciler.AdvanceNodes | internal/controller/firmware_policy_controller.go:157-193 | the loop is the iteration of turns, or nothing when switched off, paused or halted |
| Controller.Reconciler.TakeTurn | internal/controller/firmware_policy_controller.go:161-192 | the guard cascade and the slot accounting of one iteration are one turn of the specification |
| Controller.Reconciler.AdvanceOne | internal/controller/firmware_policy_controller.go:594-657 | claim and dispatch leave the node as specified and report slot use and success |
| Controller.Reconciler.SpawnJob | internal/controller/firmware_policy_controller.go:692-734 | Job, log, status entry and node end as specified, whichever of the three calls fails |
| Controller.Reconciler.DrainNode | internal/controller/firmware_policy_controller.go:609-640 | without a listing nothing happens; otherwise the accepted pods before the first failed eviction are evicted, the last blocked one is noted, and the result is fine if and only if no eviction failed outright |
| Controller.Reconciler.CordonNode | internal/drain/drain.go:43-57 | a held cordon is left alone; otherwise the node is patched and an existing timestamp kept |
| Controller.Reconciler.UncordonNode | internal/drain/drain.go:62-71 | only this policy's own cordon is lifted, mark and all |
| Controller.Reconciler.ClaimNode | internal/controller/firmware_policy_controller.go:736-741 | an owned node is not patched; any other gets the owner label |
| Controller.Reconciler.PatchNode | internal/controller/firmware_policy_controller.go:743-763 | the local copy changes at once, the server only when the patch lands |
| Controller.Reconciler.ObserveNode | internal/controller/firmware_policy_controller.go:393-505 | the cascade of early returns computes the specified observation |
| Controller.Reconciler.ObserveNodes | internal/controller/firmware_policy_controller.go:103-117 | states and local copies of all matched nodes, conflicts last |
| Controller.Reconciler.PartitionNodes | internal/controller/firmware_policy_controller.go:332-375 | owned and conflicting are exactly the listed, selected nodes without skip="true", with the device label where required, whose owner label is free or another policy's |
| Controller.Reconciler.FindFailure | internal/controller/firmware_policy_controller.go:119-132 | true if and only if some node is Failed |
| Controller.Reconciler.CountInFlightJobs | internal/controller/firmware_policy_controller.go:678-687 | the count is the number of this policy's Jobs without a true terminal condition, in any listing order |
| Controller.Reconciler.ExplainNodes | internal/controller/firmware_policy_controller.go:195-215 | fills the reason of waiting nodes that have none, and of no others |
| Controller.Reconciler.StampNodes | internal/controller/firmware_policy_controller.go:217-241 | stamps and events as specified |
| Controller.Reconciler.SummarizeAndTidy | internal/controller/firmware_policy_controller.go:243-282 | one pass yields the summary and the mirrored labels |
| Controller.Reconciler.TidyNode | internal/controller/firmware_policy_controller.go:260-281 | the three best-effort patches leave the node as specified |
| Controller.Reconciler.Publish | internal/controller/firmware_policy_controller.go:195-305 | explaining, stamping, mirroring, sorting and the status write yield the specified cluster, status and events |
| Controller.CountNode | internal/controller/firmware_policy_controller.go:245-259 | matched grows by one and exactly one column grows by one, in progress for the four states in between |
| Controller.JobFinished | internal/controller/job.go:187-200 | completed if and only if some condition is a true terminal one, succeeded if and only if the earliest of them is Complete or SuccessCriteriaMet |
| Drain.ListDevicePodsOnNode | internal/drain/drain.go:102-136 | listed are exactly the pods of the node outside the operator's namespace, not finished, not a DaemonSet's, owned unless forced, that pass the filter; in listing order |
| Drain.DevicePodMeans | internal/drain/drain.go:102-148 | a pod counts as a device pod if and only if it may be moved and has a host path below /dev/tenstorrent |
| Drain.Targets | internal/drain/drain.go:102-136 | a pod is a target if and only if it is evictable on the node and passes the filter |
| FirmwareMetrics.ExactlyOnce | internal/controller/firmware_metrics.go:62-109 | with any number of policies, a Job's outcome is counted once per maximal block of consecutive listings in which it was seen finished, a drain timeout once per rising edge |
| FirmwareMetrics.OutcomesCountedOnce | internal/controller/firmware_metrics.go:62-89 | the same for one policy and one Job, over any history |
| FirmwareMetrics.StallsCountedOnce | internal/controller/firmware_metrics.go:91-109 | the same for one policy and one node |
| FirmwareMetrics.OutcomeIsAsSeen | internal/controller/firmware_metrics.go:70-82 | a counted outcome is one some listing showed for that Job |
| FirmwareMetrics.JobCountedOnce | internal/controller/firmware_metrics.go:62-89 | one listing counts a Job at most once, exactly when it is finished and not remembered |
| FirmwareMetrics.StallCountedOnce | internal/controller/firmware_metrics.go:96-109 | one reconcile counts a stall at most once, exactly when it is not remembered |
| FirmwareMetrics.MemoryIsBounded | internal/metrics/metrics.go:367-389 | remembered keys are those of Jobs in the last listing and nodes timed out in it |
| FirmwareMetrics.JobRemembered | internal/metrics/metrics.go:326-338 | a Job is remembered exactly while it has stayed listed since it was seen finished |
| FirmwareMetrics.MemoriesAreSeparate | internal/metrics/metrics.go:349-396 | each policy's memory is what its own listings alone would leave |
| FirmwareMetrics.KeysApart | internal/controller/firmware_metrics.go:36-39 | the two key families are injective and disjoint |
| FirmwareMetrics.Recorder.RecordFlashJobs | internal/controller/firmware_metrics.go:62-89 | counters, memory and returned keys after one listing of Jobs |
| FirmwareMetrics.Recorder.RecordDrainTimeouts | internal/controller/firmware_metrics.go:96-109 | counters, memory and returned keys after one round of node states |
| FirmwareMetrics.Recorder.Increase | internal/controller/firmware_metrics.go:80-88 | one increment moves exactly the counter it belongs to |
| FirmwareMetrics.Recorder.Record | internal/controller/firmware_policy_controller.go:287-296 | the metric steps of a reconcile, pruning included, are one step of the history |
| FirmwareMetrics.Recorder.ForgetPolicy | internal/metrics/metrics.go:314-326 | a deleted policy's counters and memory go, and nobody else's |
| Metrics.EventDedup.FirstSeen | internal/metrics/metrics.go:352-365 | true exactly for a new pair, which is then remembered |
| Metrics.EventDedup.Retain | internal/metrics/metrics.go:370-389 | the scope keeps exactly the given keys it had, and goes when none is left |
| Metrics.EventDedup.Forget | internal/metrics/metrics.go:392-396 | the scope has no keys left and every other scope has its own |
| Gauges.GaugesMirrorStatus | internal/controller/firmware_metrics.go:43-53 | after any interleaving of publications and deletions the gauges show the latest publication and exactly one version; a deleted policy has no series |
| GaugeHistory.GaugesMirrorPublished | internal/controller/firmware_policy_controller.go:287-311 | over any run in which a policy's status writes land, its seven gauges show its published status and its latest version, and after its deletion it has no series |
| GaugeHistory.AgreesExactlyWhen | internal/controller/firmware_policy_controller.go:290-311 | after one reconcile gauges and published status agree if and only if the status write landed or no count moved |
| Instances.GaugesAheadOfStatus | internal/controller/firmware_policy_controller.go:290-311 | a first reconcile whose status write fails: the gauges count a node the status does not list |
| Gauges.CountsAddUp | internal/controller/firmware_metrics.go:22-32 | the seven counts add up to matched and agree with the summary |
| Gauges.CountStates | internal/controller/firmware_metrics.go:44-50 | every state has a count, zero included |
| Gauges.Registry.RecordPolicy | internal/controller/firmware_metrics.go:43-53 | the gauge families after one publication |
| Gauges.Registry.SetPolicyNodes | internal/metrics/metrics.go:261-265 | one series per given state, others untouched |
| Gauges.Registry.SetDesiredVersion | internal/metrics/metrics.go:277-282 | the policy has exactly one version series, the given one at 1, and every other policy's series are as before |
| Gauges.Registry.DeletePolicySeries | internal/metrics/metrics.go:314-317 | no series of the policy remains and every other policy's are as before |
| Selector.LabelSelectorToExpressions | internal/controller/driver_policy_controller.go:789-813 | for every iteration order and every node, the requirements all hold if and only if the selector matches |
| Selector.SelectsIgnoring | internal/controller/firmware_policy_controller.go:332-345 | nodes that differ only in labels a selector does not look at are selected alike |
| Scheduling.ScheduledWhenMatched | internal/controller/driver_policy_controller.go:617-632 | the DaemonSet reaches only matched nodes, and all of them if and only if none lacks present=true or carries the skip label at all |
| Scheduling.NodeSelectorTerm | internal/controller/driver_policy_controller.go:617-632 | the whole term holds exactly for selected nodes with present=true and no skip label |
| Scheduling.CountMatchedNodes | internal/controller/driver_policy_controller.go:261-286 | the count is the number of listed nodes that are selected, have the device label where required and are not opted out |
| Scheduling.ListMatchedNodes | internal/controller/driver_drain.go:138-165 | listed are exactly those nodes, in listing order, or an error for a malformed selector |
| Scheduling.Matched | internal/controller/driver_drain.go:138-165 | a node is in the list if and only if it is listed, selected, has present="true" where required, and its skip label is not "true" |
| Scheduling.MatchedLength | internal/controller/driver_policy_controller.go:261-286 | listing and counting find the same number of nodes |
| Scheduling.SkippedByAnyValue | internal/controller/driver_policy_controller.go:628-630 | a node with skip=false is matched but never scheduled |
| Driver.UncordonsWhatItPublished | internal/controller/driver_drain.go:308-348 | with one builder pod per node, drain on and patches landing, the nodes uncordoned are exactly those published Uncordoning and the cordoned host-managed ones Ready at the target |
| Driver.UncordoningBecomesDone | internal/controller/driver_policy_controller.go:522-535 | a node published Uncordoning is published Done by the next reconcile |
| Driver.SettledSpeaks | internal/controller/driver_policy_controller.go:354-386 | with one builder pod per node and no Ready pod waiting, the last listed pod speaks for every Ready one |
| Driver.StatusMeansAction | internal/controller/driver_policy_controller.go:490-560 | publication and action agree on a cordoned node if and only if the last pod listed for it speaks for every Ready one |
| Driver.TwoPodsDisagree | internal/controller/driver_policy_controller.go:354-386 | with two pods on a node, Draining is published and the node is uncordoned |
| DriverVerdict.VerdictMeans | internal/controller/driver_policy_controller.go:490-560 | each published state and reason if and only if its case of host label, cordon owner and the last listed pod's waiting code, restarts, readiness and version holds |
| DriverVerdict.DoneIsReady | internal/controller/driver_policy_controller.go:522-535 | Done if and only if not host-managed, not cordoned by us, and the last listed pod is Ready at spec.version and not stuck pulling |
| DriverVerdict.InfoMeans | internal/controller/driver_policy_controller.go:354-386 | the last listed pod of a node speaks for it; without one nothing is known |
| DriverVerdict.StatusesMean | internal/controller/driver_policy_controller.go:395-437 | one truthful entry for each listed node that takes part, none for any other |
| DriverVerdict.CountsMean | internal/controller/driver_policy_controller.go:418-432 | upToDate counts entries Done or host-managed, inProgress those Cordoning, Draining, Upgrading or Uncordoning |
| DriverGates.ThereAndBack | internal/controller/driver_drain.go:186-226 | over one upgrade of a node, preparation to uncordon: with the patches through it is schedulable, without mark or gate, every other label as before; else the gates stay, closed when they could be closed |
| DriverGates.LiftMeans | internal/controller/driver_drain.go:335-354 | the cordon goes if and only if the uncordon is due and gets through, the gates if and only if that is certain and their removal is not rejected |
| DriverGates.PreparationMeans | internal/controller/driver_drain.go:186-226 | the preparation leaves each node with the driver's cordon and closed gates exactly as its patches answer, or stops before the first |
| DriverGates.PodGoesExactlyWhen | internal/controller/driver_drain.go:204-265 | whatever is answered, a pod is evicted if and only if its node takes part and is cordoned for certain, the pod may be moved, and a pass lists and gets it; the second wants what the pod selector picks and spares emptyDirs unless they may go |
| DriverReconcile.PreparedBeforeRoll | internal/controller/driver_policy_controller.go:107-139 | a paused policy changes nothing; an existing template is replaced only after the node has been prepared, when drain is on |
| DriverReconcile.UncordoningWithoutDrain | internal/controller/driver_policy_controller.go:176-184 | over any run of reconciles without drain a node cordoned earlier is not touched, and it is published Uncordoning whenever its builder is Ready at the target |
| DriverReconcile.LookThenLiftIsTail | internal/controller/driver_drain.go:294-356 | listing and lifting in one go is the specified tail of the reconcile |
| DriverController.DriverReconciler.UncordonReadyNodes | internal/controller/driver_drain.go:294-356 | each node is released exactly as due: cordon and mark go when the uncordon gets through, the gates when it is applied and their removal not rejected; everything else stays |
| DriverController.DriverReconciler.PopulateNodeStatuses | internal/controller/driver_policy_controller.go:339-440 | one entry for each listed node that takes part; state, reason and version are those its last listed pod tells, or the lack of one; the counts are of entries Done or host-managed, and of those on their way |
| DriverController.ReadyNodes | internal/controller/driver_drain.go:309-333 | the lookup holds exactly the nodes with a builder Ready at the version |
| DriverController.IndexByNode | internal/controller/driver_policy_controller.go:354-386 | the last listed pod of a node speaks for it |
| DriverDrain.PreparationDrains | internal/controller/driver_drain.go:186-226 | over all cordoned nodes, the pods evicted are exactly those some pass targets and the API server lets go; no other pod's answer matters |
| DriverDrain.AcceptedPreparation | internal/controller/driver_drain.go:186-289 | with all evictions accepted, a pod is evicted if and only if its node's cordon stands and it is an active, non-DaemonSet, non-operator, non-bare-unless-forced pod that uses the device or that the full-node pass accepts |
| DriverDrain.NodeDrained | internal/controller/driver_drain.go:231-265 | two passes over one node take exactly their targets, whichever evictions fail |
| DriverDrain.PassTakes | internal/controller/driver_drain.go:231-265 | a blocked or failed eviction changes nothing for the other pods of the pass |
| DriverDrain.StepPrepares | internal/controller/driver_drain.go:204-224 | preparing one more node drains its pods and no others; a failed cordon skips it |
| DriverDrain.ForeignCordonKeptExactlyWhen | internal/drain/drain.go:43-57 | a cordon somebody else placed keeps its mark if and only if the node is not matched, the preparation stops early, or the cordon patch is rejected |
| DriverDrain.ForeignCordonLiftedExactlyWhen | internal/drain/drain.go:43-71 | such a node becomes schedulable again if and only if its cordon was taken over and, once its builder is Ready at the target with drain on, the uncordon patch is not rejected |
| DriverDrain.ForeignCordonIsLost | internal/drain/drain.go:43-71 | an administrator's cordon is gone after one upgrade |
| DriverController.DriverReconciler.PrepareForUpgrade | internal/controller/driver_drain.go:186-226 | each node carries the driver's cordon, and closed gates once that is certain, exactly as its patches answer; an unreadable pod selector or listing stops it before it touches anything |
| DriverController.DriverReconciler.EvictMatching | internal/controller/driver_drain.go:231-265 | the loop tries every listed target |
| DriverController.DriverReconciler.FlipDeployGatesOff | internal/controller/driver_drain.go:87-102 | every gate reads false and every other label is as before, unless the patch is rejected |
| DriverController.DriverReconciler.CordonNode | internal/drain/drain.go:43-57 | a held cordon is left alone; a new one keeps an existing timestamp; the result tells whether it certainly stands |
| DriverRollout.CordonLiftedOnlyWhenLoaded | internal/controller/driver_drain.go:291-356 | in any run a builder at the target that became Ready without a host install is observed only while the kernel reports that version, and this still holds at the uncordon unless the template lags behind a paused spec |
| DriverRollout.HostWasFound | images/driver-build/entrypoint.sh:147-161 | a builder Ready in host-managed mode is one whose own script found the host install, at a step since which its pod was not deleted |
| DriverReconcile.LiftsOnlyWhenLoaded | internal/controller/driver_drain.go:291-356 | over any run of the controller's own functions and everything around them, a cordon is lifted at spec.version only while the kernel reports it, unless the builder seen was in host-managed mode or a pause has left the template elsewhere |
| DriverReconcile.RunRefines | internal/controller/driver_policy_controller.go:87-184 | every run of preparation, template update, listing and uncordon on one node is a run of the protocol |
| DriverReconcile.RollOutRefines | internal/controller/driver_policy_controller.go:87-139 | creating, preparing and updating, with any failure, is a run of the protocol |
| DriverRollout.UnloadsOnlyAtZero | images/driver-build/entrypoint.sh:197-228 | in any run rmmod is attempted only after the reference count was last read as zero, and never on the wanted version |
| DriverRollout.PausedUncordonRaces | internal/controller/driver_policy_controller.go:107-184 | for any two versions, a run in which a paused policy lifts its cordon from a node without a module |
| DriverRollout.AlwaysInv | images/driver-build/entrypoint.sh:147-268 | in every reachable state a builder that speaks for the module has its version loaded, and one replacing a module has another |
| DriverRollout.ScriptKeeps | images/driver-build/entrypoint.sh:147-268 | each command of the script keeps that invariant |
| BuilderScript.Host.Entrypoint | images/driver-build/entrypoint.sh:147-268 | the script succeeds if and only if a version is wanted, the last step works, and the host manages the module, the version is loaded already, or the way is cleared and a module of that version built and inserted; ready means that version is loaded or the host is in charge; and the run is a run of the protocol |
| BuilderScript.Host.UnloadOther | images/driver-build/entrypoint.sh:197-228 | another version is unloaded if and only if rmmod works and the count is zero at once, or after a forced kill of visible holders at the last look; otherwise it stays |
| BuilderScript.Host.BuildAndLoad | images/driver-build/entrypoint.sh:232-260 | success if and only if no module is loaded, build and insmod work and the module built is of the wanted version |
| BuilderScript.Host.HostInstallDetected | images/driver-build/entrypoint.sh:80-98 | the script stands down if and only if the DKMS tree is there or some source directory holds a dkms.conf |
| BuilderScript.Host.ReadCount | images/driver-build/entrypoint.sh:197-226 | a reading of zero leads to rmmod, any other to the kill, the next poll or an exit |
| BuilderScript.Host.PollUntilFree | images/driver-build/entrypoint.sh:211-215 | after the kill at most ten readings are taken, and a last look follows |
| BuilderScript.Host.Rmmod | images/driver-build/entrypoint.sh:226-228 | a loaded module nobody holds is removed when the command succeeds; in every other case it stays and the script ends |
| BuilderScript.Host.TouchReady | images/driver-build/entrypoint.sh:262-268 | the marker is set last, and only when everything before it succeeded |
| Flasher.SuccessMeans | images/flasher/flash.sh:148-221 | exit 0 means every word of the last readback is the target, and that every chip is at the target if and only if every chip reported one clean word |
| Flasher.Flash | images/flasher/flash.sh:118-221 | exit 0 if and only if the readback was usable enough and the run was skipped or verified; tt-flash runs with or without --force as decided |
| Flasher.ForcesOnCleanChips | images/flasher/flash.sh:162-182 | with clean versions, --force goes out if and only if a write is forced, or homogenizing is on, no version is unknown and two chips differ |
| Flasher.SkipsOnCleanChips | images/flasher/flash.sh:148-160 | with clean versions, the flash is skipped if and only if no write is forced, there are chips, and each reports the target |
| Flasher.SucceedsOnCleanChips | images/flasher/flash.sh:118-221 | with clean readbacks, success if and only if the first readback worked, was healed or may fail, and nothing was to be done or the flash worked and every chip reports the target |
| Flasher.UnsetFlasherEvensOut | internal/controller/job.go:60-75 | with no flasher section --force goes out if and only if no version is unknown and two chips differ |
| Flasher.AddsForce | images/flasher/flash.sh:169-182 | the sort-unique count agrees with the pairwise definition of mixed versions |
| Flasher.SortUnique | images/flasher/flash.sh:173 | the distinct words, each once |
| Flasher.DistinctMeansMixed | images/flasher/flash.sh:176 | more than one distinct word if and only if two positions differ |
| Flasher.Mismatched | images/flasher/flash.sh:209-218 | no mismatch is collected if and only if every word is the target |
| Flasher.CleanLine | images/flasher/flash.sh:144-155 | chips that each report one word are split back into exactly those words |
| Flasher.EmptyVersionSlipsThrough | images/flasher/flash.sh:148-160 | for any target, an empty version next to one at the target makes the run succeed without flashing |
| FlashJob.FitsExactlyWhen | internal/controller/job.go:24-39 | the 63-character cap holds if and only if the version has at most 5 characters or the three parts together at most 46 |
| FlashJob.OneTooMany | internal/controller/job.go:24-39 | long names and version 19.8.0 give 64 characters |
| FlashJob.DnsSafeExactlyWhen | internal/controller/job.go:24-39 | for valid policy and node names the Job name is a valid subdomain if and only if the version has only letters, digits, dashes and dots and the prefix is not cut right after a dot |
| FlashJob.NotDnsSafe | internal/controller/job.go:24-39 | a node name whose dot falls on the cut gives an invalid Job name for every version |
| FlashJob.Duration | internal/controller/job.go:202-235 | a sample is the positive time from start to completion, or to the latest true terminal condition; there is none when the Job has not started or ended, or the clocks give no positive time |

## Left out

- The API transport, watches and caches: reads are fresh and reconciles of one controller are serialized.
- Job names in the firmware protocol: a Job is identified by (policy, node, version); the hash behind the name is taken to be injective.
- A failed Create is taken to have created nothing.
- A Job that has finished keeps its outcome, and Jobs disappear only between reconciles.
- Nodes appearing or disappearing in the middle of a reconcile: a complete listing names the nodes that exist; nodes come and go between reconciles. Jobs and pods move at any time, also inside a reconcile.
- Convergence.Converges: assumes that the drain deadline of a node does not pass between the first two rounds, since an overdue drain is a failure.
- BlastRadius.BlastRadius: assumes that Job lookups of the policy's own reconciles are answered and that nothing moves before its Jobs are counted; HaltedExactlyWhen says what an unanswered lookup hides.
- Ownership.OwnershipExclusion: assumes that nobody else writes the owner label or a firmware cordon mark, and that no node is deleted.
- History.PublishedHistory: assumes that the policy's own status writes succeed; an event is emitted again when the write after it failed.
- Quiescence.SecondReconcileIsSilent: assumes that nothing moves between the two reconciles, that the mirroring patches land, and that no drain deadline passes in between.
- DriverRollout.CordonLiftedOnlyWhenLoaded: assumes one builder pod per node, that nobody else loads or unloads the module, and no reboot of the node.
- DriverReconcile.LiftsOnlyWhenLoaded: assumes the same, and that nobody else edits the driver's cordon mark.
- Expansion of a version such as "?" against file names in the flasher's loops, its mock mode, and the text of the logs.
- The flash duration histogram (only a sample is modelled), the eviction counters and the driver's state gauge.
- The driver's transition times, events and top-level conditions, the cleanup of kmd-version labels, and the template hash.
- Pod templates, volumes, probes and image defaults, RBAC, Helm charts, CRDs and kubectl plugins: constant data or plumbing.
