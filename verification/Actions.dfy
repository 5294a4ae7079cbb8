/** Exactly when a reconcile cordons a node, lifts a cordon, claims a node or notes a flash on it, under any answers. */
module Actions {
  import opened Kube
  import opened Drain
  import opened Firmware
  import opened Steps
  import opened Passes
  import opened NodeLife
  import opened Progress
  import opened Slots
  import opened Observed

  /** The loop runs, and the claim of the node stands or its patch is applied. */
  predicate Reaches(w: World, c: Ctx, name: string)
    requires name in w.nodes
  {
    Advances(w, c) && (Owner(w.nodes[name]) == c.cr || c.api.patch(name, Claim).Applied?)
  }

  /** A cordon is due and its patch gets through: no Job, drain on, the node schedulable. */
  predicate GetsCordon(w: World, c: Ctx, name: string)
    requires name in w.nodes
  {
    && Reaches(w, c, name) && NoJobSeen(w, name, c) && c.spec.drainEnable != Some(false)
    && !w.nodes[name].unschedulable && !c.api.patch(name, CordonPatch).Rejected?
  }

  /** An uncordon is due and its patch gets through: the Job has succeeded, drain is on, the cordon is ours. */
  predicate GetsUncordon(w: World, c: Ctx, name: string)
    requires name in w.nodes
  {
    && Reaches(w, c, name) && JobSeen(w, name, c, Succeeded) && c.spec.drainEnable != Some(false)
    && w.nodes[name].cordon.owner == c.cr && !c.api.patch(name, UncordonPatch).Rejected?
  }

  /** A cordon that is not held yet is placed unless its patch is rejected; a timestamp that is there stays. */
  lemma StepCordons(site: Site, c: Ctx)
    requires Fresh(site)
    ensures var a, b := site.server, CordonStep(site, c).site.server;
            if !CordonHeld(a.unschedulable, a.cordon, c.cr) && !c.api.patch(site.ns.name, CordonPatch).Rejected?
            then b.unschedulable
                  && b.cordon == CordonMark(c.cr, if a.cordon.at.NoStamp? then At(c.now) else a.cordon.at)
            else SameCordon(a, b)
  {
    hide Logged;
  }

  lemma StepUncordons(site: Site, c: Ctx)
    requires Fresh(site)
    ensures var a, b := site.server, UncordonStep(site, c).site.server;
            if a.cordon.owner == c.cr && !c.api.patch(site.ns.name, UncordonPatch).Rejected?
            then !b.unschedulable && b.cordon == CordonMark("", NoStamp) else SameCordon(a, b)
  {
    hide Logged;
  }

  lemma OtherStepsKeepCordons(site: Site, list: seq<Pod>, c: Ctx)
    requires Fresh(site)
    ensures SameCordon(site.server, DrainStep(site, list, c).site.server)
    ensures SameCordon(site.server, SpawnFlashJob(site, c).site.server)
    ensures SameCordon(site.server, ClaimOwnership(site, c).site.server)
  {
    hide EvictAll;
  }

  /** What the action does to the node's cordon. */
  lemma MoveCordons(site: Site, list: seq<Pod>, c: Ctx)
    requires Fresh(site)
    ensures var a, b := site.server, AdvanceNode(site, list, c).site.server;
            var claimed := Owner(a) == c.cr || c.api.patch(site.ns.name, Claim).Applied?;
            if claimed && site.ns.state.Cordoning? && !CordonHeld(a.unschedulable, a.cordon, c.cr)
                  && !c.api.patch(site.ns.name, CordonPatch).Rejected?
            then b.unschedulable
                  && b.cordon == CordonMark(c.cr, if a.cordon.at.NoStamp? then At(c.now) else a.cordon.at)
            else if claimed && site.ns.state.Uncordoning? && a.cordon.owner == c.cr
                  && !c.api.patch(site.ns.name, UncordonPatch).Rejected?
            then !b.unschedulable && b.cordon == CordonMark("", NoStamp)
            else SameCordon(a, b)
  {
    hide CordonStep, UncordonStep, DrainStep, SpawnFlashJob, Apply, Owner;
    var claimed := ClaimOwnership(site, c).site;
    ClaimFrame(site, c);
    OtherStepsKeepCordons(site, list, c);
    if Fresh(claimed) {
      StepCordons(claimed, c);
      StepUncordons(claimed, c);
      OtherStepsKeepCordons(claimed, list, c);
    }
  }

  /** A reconcile changes the cordon of a node it may own in two cases only. It becomes this policy's, keeping a
      timestamp that is there, exactly when a cordon is due and gets through; it goes, owner, timestamp and all,
      exactly when an uncordon is due and gets through. */
  lemma CordonChangesExactlyWhen(w: World, c: Ctx, i: nat)
    requires Listing(w, c) && Lists(w, c) && i < |ObserveAll(w, c)|
    requires var n := ObserveAll(w, c)[i].name; n in w.nodes && Claimable(w.nodes[n], c.cr)
    ensures var n := ObserveAll(w, c)[i].name;
            && n in Reconcile(w, c).w.nodes
            && var a, b := w.nodes[n], Reconcile(w, c).w.nodes[n];
               && (GetsCordon(w, c, n) ==>
                     && b.unschedulable && b.cordon.owner == c.cr
                     && b.cordon.at == if a.cordon.at == NoStamp then At(c.now) else a.cordon.at)
               && (GetsUncordon(w, c, n) ==> !b.unschedulable && b.cordon.owner == "" && b.cordon.at == NoStamp)
               && (!GetsCordon(w, c, n) && !GetsUncordon(w, c, n) ==>
                     b.unschedulable == a.unschedulable && b.cordon == a.cordon)
  {
    hide ObserveAll, Observe, AdvanceNode, Reconcile, Lists, Listing, Advances, PodsAt, SlotsAt, OnlyMirrors, JobSeen,
         NoJobSeen, CordonedByUs, Waits, Overdue, Owner, Claimable;
    var ns := ObserveAll(w, c)[i];
    LocalMeans(w, c);
    ObservedAt(w, c, i);
    ObservedState(w, ns.name, w.nodes[ns.name], c);
    ObservedDetails(w, ns.name, w.nodes[ns.name], c);
    ObservedReason(w, ns.name, w.nodes[ns.name], c);
    ReconcileMoves(w, c, i);
    MoveCordons(FoundSite(w, ns, c), PodsAt(w, c, i), c);
    MirrorsCore(MoveOn(w, c, i).server, Reconcile(w, c).w.nodes[ns.name]);
    SeenApart(w, ns.name, c);
  }

  lemma SeenApart(w: World, name: string, c: Ctx)
    ensures NoJobSeen(w, name, c) ==> !JobSeen(w, name, c, Succeeded) && !JobSeen(w, name, c, Running)
  {
  }

  // ---- Claims -----------------------------------------------------------------------

  /** The node is acted on: the loop runs, an action is due, nobody said hands off, and a fresh start finds a slot
      among the budget left by the nodes before it. */
  predicate ActedOn(w: World, c: Ctx, i: nat)
    requires i < |ObserveAll(w, c)|
  {
    var ns := ObserveAll(w, c)[i];
    && Advances(w, c) && ns.state in {Pending, Cordoning, Draining, Uncordoning} && ns.reason != ExternalCordon
    && (ns.state == Pending ==> Spenders(w, c, i) < Budget(w, c))
  }

  lemma MoveClaims(site: Site, list: seq<Pod>, c: Ctx)
    requires Fresh(site)
    ensures Owner(AdvanceNode(site, list, c).site.server) ==
              if c.api.patch(site.ns.name, Claim).Rejected? then Owner(site.server) else c.cr
  {
    hide CordonStep, UncordonStep, DrainStep, SpawnFlashJob;
    var claimed := ClaimOwnership(site, c).site;
    ClaimFrame(site, c);
    if Fresh(claimed) {
      StepsContinue(claimed, list, c);
    }
  }

  /** A node becomes this policy's exactly when it is acted on and the claim is not rejected; otherwise the owner label
      stays as it was. */
  lemma ClaimedExactlyWhen(w: World, c: Ctx, i: nat)
    requires Listing(w, c) && Lists(w, c) && i < |ObserveAll(w, c)|
    requires var n := ObserveAll(w, c)[i].name; n in w.nodes && Claimable(w.nodes[n], c.cr)
    ensures var n := ObserveAll(w, c)[i].name;
            && n in Reconcile(w, c).w.nodes
            && Owner(Reconcile(w, c).w.nodes[n]) ==
                 if ActedOn(w, c, i) && !c.api.patch(n, Claim).Rejected? then c.cr else Owner(w.nodes[n])
  {
    hide ObserveAll, Observe, AdvanceNode, Reconcile, Lists, Listing, Advances, PodsAt, SlotsAt, OnlyMirrors, Spenders,
         Budget, Owner, Claimable;
    var ns := ObserveAll(w, c)[i];
    LocalMeans(w, c);
    ObservedAt(w, c, i);
    ObservedDetails(w, ns.name, w.nodes[ns.name], c);
    SlotsBefore(w, c, i);
    ReconcileMoves(w, c, i);
    MoveClaims(FoundSite(w, ns, c), PodsAt(w, c, i), c);
    MirrorsCore(MoveOn(w, c, i).server, Reconcile(w, c).w.nodes[ns.name]);
  }

  // ---- Flash notes ------------------------------------------------------------------

  predicate SameNotes(a: Node, b: Node) { b.desiredVersion == a.desiredVersion && b.lastFlashJob == a.lastFlashJob }

  lemma StepsKeepNotes(site: Site, list: seq<Pod>, c: Ctx)
    requires Fresh(site)
    ensures SameNotes(site.server, ClaimOwnership(site, c).site.server)
    ensures SameNotes(site.server, CordonStep(site, c).site.server) && CordonStep(site, c).site.hasJob == site.hasJob
    ensures SameNotes(site.server, UncordonStep(site, c).site.server)
              && UncordonStep(site, c).site.hasJob == site.hasJob
    ensures SameNotes(site.server, DrainStep(site, list, c).site.server)
              && DrainStep(site, list, c).site.hasJob == site.hasJob
  {
    hide EvictAll, Logged, Owner;
  }

  lemma SpawnNotes(site: Site, c: Ctx)
    requires Fresh(site)
    ensures var t := SpawnFlashJob(site, c).site;
            if t.hasJob && !site.hasJob && !c.api.patch(site.ns.name, FlashNote).Rejected?
            then t.server.desiredVersion == c.spec.version && t.server.lastFlashJob == Some(JobFor(site.ns.name, c))
            else SameNotes(site.server, t.server)
  {
    hide Logged;
  }

  /** A new Job is noted on its node, with the version it flashes, unless that patch is rejected. */
  lemma MoveNotes(site: Site, list: seq<Pod>, c: Ctx)
    requires Fresh(site)
    ensures var t := AdvanceNode(site, list, c).site;
            if t.hasJob && !site.hasJob && !c.api.patch(site.ns.name, FlashNote).Rejected?
            then t.server.desiredVersion == c.spec.version && t.server.lastFlashJob == Some(JobFor(site.ns.name, c))
            else SameNotes(site.server, t.server)
  {
    hide CordonStep, UncordonStep, DrainStep, SpawnFlashJob, Apply, Owner;
    var claimed := ClaimOwnership(site, c).site;
    ClaimFrame(site, c);
    StepsKeepNotes(site, list, c);
    if Fresh(claimed) {
      StepsKeepNotes(claimed, list, c);
      SpawnNotes(claimed, c);
    }
  }

  /** A reconcile notes version and Job on a node exactly when it creates that Job and the note is not rejected; nothing
      else writes those two annotations. */
  lemma NotedExactlyWhen(w: World, c: Ctx, i: nat)
    requires Listing(w, c) && Lists(w, c) && i < |ObserveAll(w, c)|
    requires var n := ObserveAll(w, c)[i].name; n in w.nodes && Claimable(w.nodes[n], c.cr)
    ensures var n, id, r := ObserveAll(w, c)[i].name, JobId(c.cr, ObserveAll(w, c)[i].name, c.spec.version),
              Reconcile(w, c).w;
            && n in r.nodes
            && var a, b := w.nodes[n], r.nodes[n];
               if id in r.jobs && id !in w.jobs && !c.api.patch(n, FlashNote).Rejected?
               then b.desiredVersion == c.spec.version && b.lastFlashJob == Some(id)
               else b.desiredVersion == a.desiredVersion && b.lastFlashJob == a.lastFlashJob
  {
    hide ObserveAll, AdvanceNode, Reconcile, Lists, Listing, Advances, PodsAt, SlotsAt, Owner, Claimable, Takes;
    LocalMeans(w, c);
    ReconcileMoves(w, c, i);
    MoveNotes(FoundSite(w, ObserveAll(w, c)[i], c), PodsAt(w, c, i), c);
  }
}
