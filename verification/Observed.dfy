/** What an observation says, told from Job conditions, cordon, pods and answers, and what is published of it. */
module Observed {
  import opened Kube
  import opened Drain
  import opened Firmware
  import opened Steps
  import opened Passes
  import opened NodeLife
  import opened Status
  import opened DrainTurn

  /** An absent switch is on, an absent number is its default, an absent readback version is the version plus ".0". */
  lemma Defaults(spec: Spec)
    ensures DrainEnabled(spec) <==> spec.drainEnable.None? || spec.drainEnable.value
    ensures AutoUpgrades(spec) <==> spec.autoUpgrade.None? || spec.autoUpgrade.value
    ensures HaltsOnFailure(spec) <==> spec.haltOnFailure.None? || spec.haltOnFailure.value
    ensures spec.maxParallel != 0 ==> MaxParallel(spec) == spec.maxParallel
    ensures spec.maxParallel == 0 ==> MaxParallel(spec) == 1
    ensures spec.drainTimeoutSeconds > 0 ==> DrainTimeout(spec) == spec.drainTimeoutSeconds
    ensures spec.drainTimeoutSeconds <= 0 ==> DrainTimeout(spec) == 600
    ensures spec.readbackVersion != "" ==> Readback(spec) == spec.readbackVersion
    ensures spec.readbackVersion == "" ==> Readback(spec) == spec.version + ".0"
  {
  }

  /** No true condition ends the Job. */
  predicate Runs(job: Job) {
    forall i | 0 <= i < |job.conditions| :: !Terminal(job.conditions[i])
  }

  /** The Jobs in flight are the policy's own that nothing has ended, whatever their version. */
  lemma ActiveMeans(jobs: map<JobId, Job>, cr: string)
    ensures Active(jobs, cr) == set id | id in jobs && id.cr == cr && Runs(jobs[id])
  {
    hide OutcomeFrom;
    forall id <- jobs
      ensures Outcome(jobs[id]).Running? <==> Runs(jobs[id])
    {
      OutcomeMeans(jobs[id].conditions);
    }
  }

  /** The Job of this version and node is there, the lookup was answered, and the Job stands at `outcome`. */
  predicate JobSeen(w: World, name: string, c: Ctx, outcome: JobOutcome) {
    && c.api.lookupAnswers(name) && JobId(c.cr, name, c.spec.version) in w.jobs
    && Outcome(w.jobs[JobId(c.cr, name, c.spec.version)]) == outcome
  }

  /** The lookup was answered: there is no Job. */
  predicate NoJobSeen(w: World, name: string, c: Ctx) {
    c.api.lookupAnswers(name) && JobId(c.cr, name, c.spec.version) !in w.jobs
  }

  /** Under the drain gate, and cordoned by this policy. */
  predicate CordonedByUs(n: Node, c: Ctx) {
    c.spec.drainEnable != Some(false) && n.unschedulable && n.cordon.owner == c.cr
  }

  predicate Waits(w: World, name: string, c: Ctx) {
    exists p <- w.pods :: HoldsDevice(p, name, c.operatorNs, c.spec.drainForce)
  }

  /** The cordon's timestamp can be read and lies further back than the drain timeout, ten minutes unless set. */
  predicate Overdue(n: Node, c: Ctx) {
    n.cordon.at.At? && c.now - n.cordon.at.seconds > if c.spec.drainTimeoutSeconds > 0
          then c.spec.drainTimeoutSeconds else 600
  }

  lemma OverdueMeans(n: Node, c: Ctx)
    ensures CordonElapsed(n.cordon, c.now) > DrainTimeout(c.spec) <==> Overdue(n, c)
  {
  }

  lemma WaitsMeans(w: World, name: string, c: Ctx)
    ensures DevicePods(w.pods, name, c.operatorNs, c.spec.drainForce) != [] <==> Waits(w, name, c)
  {
    hide DevicePods, HoldsDevice;
    var list := DevicePods(w.pods, name, c.operatorNs, c.spec.drainForce);
    forall p: Pod
      ensures p in list <==> p in w.pods && HoldsDevice(p, name, c.operatorNs, c.spec.drainForce)
    {
      DevicePodMeans(p, w.pods, name, c.operatorNs, c.spec.drainForce);
    }
    if list != [] { assert list[0] in list; }
  }

  /** The observed state, case by case; everything else is Pending. */
  lemma ObservedState(w: World, name: string, n: Node, c: Ctx)
    ensures var st := Observe(w, name, n, c).state;
            && (st.Flashing? <==> JobSeen(w, name, c, Running))
            && (st.Uncordoning? <==>
                JobSeen(w, name, c, Succeeded) && c.spec.drainEnable != Some(false) && n.cordon.owner == c.cr)
            && (st.Done? <==>
                JobSeen(w, name, c, Succeeded) && !(c.spec.drainEnable != Some(false) && n.cordon.owner == c.cr))
            && (st.Cordoning? <==> NoJobSeen(w, name, c) && c.spec.drainEnable != Some(false) && !n.unschedulable)
            && (st.Draining? <==>
                && NoJobSeen(w, name, c) && CordonedByUs(n, c)
                && (c.api.podsListed(name) ==> Waits(w, name, c) && !Overdue(n, c)))
            && (st.Failed? <==>
                || JobSeen(w, name, c, JobFailed)
                || (NoJobSeen(w, name, c) && CordonedByUs(n, c) && c.api.podsListed(name) && Waits(w, name, c)
                      && Overdue(n, c)))
  {
    hide DevicePods, Overdue, Waits, CordonElapsed, DrainTimeout, Outcome;
    OverdueMeans(n, c);
    WaitsMeans(w, name, c);
  }

  /** The reason that goes with it, case by case. */
  lemma ObservedReason(w: World, name: string, n: Node, c: Ctx)
    ensures var ns := Observe(w, name, n, c);
            && (ns.reason == FlashSucceeded <==> ns.state.Done?)
            && (ns.reason == UncordonDue <==> ns.state.Uncordoning?)
            && (ns.reason == CordonDue <==> ns.state.Cordoning?)
            && (ns.reason == FlashJobFailed <==> JobSeen(w, name, c, JobFailed))
            && (ns.reason == DrainTimedOut <==> ns.state.Failed? && NoJobSeen(w, name, c))
            && (ns.reason == FlasherImagePullFailed <==>
                ns.state.Flashing? && c.api.waiting(name) in {"ImagePullBackOff", "ErrImagePull"})
            && (ns.reason == FlashRunning <==> ns.state.Flashing? && ns.reason != FlasherImagePullFailed)
            && (ns.reason == DrainRunning <==> ns.state.Draining? && c.api.podsListed(name))
            && (ns.reason == TransientAPIError <==>
                !c.api.lookupAnswers(name) || (ns.state.Draining? && !c.api.podsListed(name)))
            && (ns.reason == ExternalCordon <==>
                NoJobSeen(w, name, c) && c.spec.drainEnable != Some(false) && n.unschedulable && n.cordon.owner != c.cr)
            && (ns.reason == NoReason <==>
                NoJobSeen(w, name, c) &&
                  (c.spec.drainEnable == Some(false)
                   || (CordonedByUs(n, c) && c.api.podsListed(name) && !Waits(w, name, c))))
  {
    hide DevicePods, Overdue, Waits, CordonElapsed, DrainTimeout, Outcome;
    WaitsMeans(w, name, c);
  }

  /** What else it carries: the node's own annotations, the Job seen, and a message that says what it waits for. */
  lemma ObservedDetails(w: World, name: string, n: Node, c: Ctx)
    ensures var ns, id := Observe(w, name, n, c), JobId(c.cr, name, c.spec.version);
            var list := DevicePods(w.pods, name, c.operatorNs, c.spec.drainForce);
            && ns.name == name && ns.currentVersion == n.currentVersion
            && ns.lastFlashJob == (if c.api.lookupAnswers(name) && id in w.jobs then Some(id) else n.lastFlashJob)
            && (ns.reason == DrainRunning ==> ns.message == WaitingMessage(|list|))
            && (ns.reason == DrainTimedOut ==>
                  && ns.message.DrainTimeoutMessage? && |ns.message.pods| == |list|
                  && forall j | 0 <= j < |list| :: ns.message.pods[j] == list[j].id)
            && (ns.reason == FlasherImagePullFailed ==> ns.message == ImagePullMessage(c.api.waiting(name)))
            && (ns.message.ExternalCordonMessage? <==> ns.reason == ExternalCordon)
            && (ns.message.DrainTimeoutMessage? <==> ns.reason == DrainTimedOut)
            && !ns.message.ConflictMessage?
  {
    hide DevicePods, CordonElapsed, DrainTimeout, Outcome, ImagePullStuck;
  }

  // ---- What is published of it ------------------------------------------------------

  /** Which reason a node that could have been advanced is published with: switched off comes before paused, paused
      before halted. A reason it was observed with stays, when the loop does not run. */
  lemma ParkedReason(w: World, c: Ctx, i: nat) returns (out: NodeStatus)
    requires Listing(w, c) && Lists(w, c) && i < |ObserveAll(w, c)|
    ensures out in Reconcile(w, c).states && out.name == ObserveAll(w, c)[i].name
    ensures var ready, off := ObserveAll(w, c)[i].reason == NoReason, c.spec.autoUpgrade == Some(false);
            && (out.reason == AutoUpgradeDisabled <==> ready && off)
            && (out.reason == Paused <==> ready && !off && c.spec.paused)
            && (out.reason == RolloutHalted <==> ready && !off && !c.spec.paused && Halted(w, c))
    ensures out.reason == AutoUpgradeDisabled ==> out.message == AutoUpgradeOffMessage
    ensures out.reason == Paused ==> out.message == PausedMessage
    ensures out.reason == RolloutHalted ==> out.message == HaltedMessage
    ensures !Advances(w, c) ==>
              var ns := ObserveAll(w, c)[i];
              out.state == ns.state && (ns.reason != NoReason ==> out.reason == ns.reason && out.message == ns.message)
  {
    hide ObserveAll, Advanced, Lists, Reconcile, Halted, Listing, Drains, EvictAll, PodsAt;
    out := PublishedAt(w, c, i);
    DrainedEntry(w, c, i);
    ReadyIsPending(w, c, i);
    DrainingOnly(w, c, i);
    IdleEntry(w, c, i);
  }

  lemma ReadyIsPending(w: World, c: Ctx, i: nat)
    requires Listing(w, c) && i < |ObserveAll(w, c)|
    ensures var ns := ObserveAll(w, c)[i];
            && (ns.reason == NoReason ==> ns.state.Pending?)
            && ns.reason !in {AutoUpgradeDisabled, Paused, RolloutHalted, EvictionBlocked}
  {
    hide ObserveAll, Observe;
    ObservedAt(w, c, i);
    var name := ObserveAll(w, c)[i].name;
    if Claimable(w.nodes[name], c.cr) {
      WaitingStates(w, name, w.nodes[name], c);
    }
  }

  /** Reasons that only waiting by decision or a blocked eviction give are not observed. */
  lemma WaitingStates(w: World, name: string, n: Node, c: Ctx)
    ensures var ns := Observe(w, name, n, c);
            && ns.reason !in {AutoUpgradeDisabled, Paused, RolloutHalted, EvictionBlocked}
            && (ns.reason == NoReason ==> ns.state.Pending?)
  {
    hide DevicePods, CordonElapsed, DrainTimeout, Outcome, ImagePullStuck;
  }

  lemma IdleEntry(w: World, c: Ctx, i: nat)
    requires Listing(w, c) && Lists(w, c) && i < |ObserveAll(w, c)|
    ensures |Advanced(w, c).states| == |ObserveAll(w, c)|
    ensures !Advances(w, c) ==> Advanced(w, c).states[i] == ObserveAll(w, c)[i]
  {
    hide ObserveAll, Turns, Halted;
    SettledNames(w, c);
  }

  /** A matched node that belongs to another policy is published as Pending in conflict, whatever it is up to. */
  lemma ConflictIsPublished(w: World, c: Ctx, i: nat) returns (out: NodeStatus)
    requires Listing(w, c) && Lists(w, c) && i < |ObserveAll(w, c)|
    requires var n := ObserveAll(w, c)[i].name; n in w.nodes && !Claimable(w.nodes[n], c.cr)
    ensures out in Reconcile(w, c).states && out.name == ObserveAll(w, c)[i].name
    ensures out.state == Pending && out.reason == NodeConflict && out.message == ConflictMessage
    ensures out.currentVersion == "" && out.lastFlashJob == None
  {
    hide ObserveAll, Advanced, Lists, Reconcile, Halted, Listing, Claimable, Advances, PodsAt, SlotsAt, AdvanceNode;
    LocalMeans(w, c);
    ObservedAt(w, c, i);
    ReconcileMoves(w, c, i);
    out := PublishedAt(w, c, i);
  }

  /** A node whose Job this reconcile created is published as Flashing with that Job, its version as it was. */
  lemma FlashIsPublished(w: World, c: Ctx, i: nat) returns (out: NodeStatus)
    requires Listing(w, c) && Lists(w, c) && i < |ObserveAll(w, c)|
    requires var n := ObserveAll(w, c)[i].name; n in w.nodes && Claimable(w.nodes[n], c.cr)
    requires var id := JobId(c.cr, ObserveAll(w, c)[i].name, c.spec.version);
             id !in w.jobs && id in Reconcile(w, c).w.jobs
    ensures var n := ObserveAll(w, c)[i].name;
            && out in Reconcile(w, c).states && out.name == n && n in w.nodes
            && out.state == Flashing && out.reason == FlashRunning && out.currentVersion == w.nodes[n].currentVersion
            && out.lastFlashJob == Some(JobId(c.cr, n, c.spec.version))
  {
    hide ObserveAll, Advanced, Lists, Reconcile, Halted, Listing, Claimable, Advances, PodsAt, SlotsAt, AdvanceNode,
         EvictAll, Owner, ClaimOwnership, Observe;
    var ns := ObserveAll(w, c)[i];
    LocalMeans(w, c);
    ObservedAt(w, c, i);
    ObservedDetails(w, ns.name, w.nodes[ns.name], c);
    ReconcileMoves(w, c, i);
    AdvanceDrains(FoundSite(w, ns, c), PodsAt(w, c, i), c);
    AdvanceCreates(FoundSite(w, ns, c), PodsAt(w, c, i), c);
    out := PublishedAt(w, c, i);
  }

  /** Every event is about a published entry that has a reason; it is a warning exactly when the node has failed or
      somebody has to act. */
  lemma EventMeans(w: World, c: Ctx, a: Announcement)
    requires Listing(w, c) && Lists(w, c) && a in Reconcile(w, c).events
    ensures a.reason != NoReason && exists out <- Reconcile(w, c).states ::
              a.node == out.name && a.state == out.state && a.reason == out.reason && a.message == out.message
    ensures a.warning <==>
              || a.state == Failed
              || a.reason == FlashJobFailed || a.reason == FlasherImagePullFailed || a.reason == DrainTimedOut
              || a.reason == EvictionBlocked || a.reason == NodeConflict || a.reason == ExternalCordon
  {
    hide Advanced, Lists, Halted, Listing, TidyAll, Summarize, SortByName, Find, Announcements, Explain, Unmoved;
    var raw := Explained(Advanced(w, c).states, c, Halted(w, c));
    PublishedEntries(w, c);
    var j := AnnouncedFrom(raw, Published(w, c.cr), a);
    assert Settled(w, c)[j] in Settled(w, c);
  }

  lemma {:induction false} AnnouncedFrom(states: seq<NodeStatus>, prev: seq<NodeStatus>,
        a: Announcement) returns (j: nat)
    requires a in Announcements(states, prev)
    ensures j < |states| && states[j].reason != NoReason
    ensures var ns := states[j];
            a == Announcement(ns.name, ns.state, ns.reason, ns.message, IsWarning(ns.state, ns.reason))
  {
    hide IsWarning, Unmoved, Find;
    var shorter, last := states[..|states| - 1], states[|states| - 1];
    if a in Announcements(shorter, prev) {
      j := AnnouncedFrom(shorter, prev, a);
    } else {
      j := |states| - 1;
    }
  }
}
