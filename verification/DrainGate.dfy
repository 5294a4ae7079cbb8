/** Exactly when a flash Job is created, and the drain gate that stands in front of it. */
module DrainGate {
  import opened Kube
  import opened Firmware
  import opened Steps
  import opened Passes
  import opened NodeLife
  import opened Progress
  import opened Slots

  /** Cordoned by this policy, and no device pod left in the listing. */
  predicate Gated(w: World, name: string, c: Ctx)
    requires name in w.nodes
  {
    w.nodes[name].unschedulable && w.nodes[name].cordon.owner == c.cr && PodsToDrain(w, name, c) == []
  }

  /** The node's turn leads to the Create call and the Create succeeds; all of it can be told before the loop
      runs: fewer nodes before this one take a slot than there are. */
  predicate CreateGoesThrough(w: World, c: Ctx, i: nat)
    requires i < |ObserveAll(w, c)| && ObserveAll(w, c)[i].name in w.nodes
  {
    var ns := ObserveAll(w, c)[i];
    && Advances(w, c) && Spenders(w, c, i) < Budget(w, c) && JobFor(ns.name, c) !in w.jobs
    && (Owner(w.nodes[ns.name]) == c.cr || c.api.patch(ns.name, Claim).Applied?)
    && c.api.create(ns.name).Accepted?
  }

  lemma SiteCreates(w: World, name: string, c: Ctx, pods: seq<Pod>)
    requires name in w.nodes && JobFor(name, c) !in w.jobs
    ensures var ns := Observe(w, name, w.nodes[name], c);
            var site := FoundSite(w, ns, c);
            (!HandsOff(ns.message) && AdvanceNode(site, pods, c).site.hasJob) <==>
              (&& (Owner(w.nodes[name]) == c.cr || c.api.patch(name, Claim).Applied?)
               && c.api.create(name).Accepted?
               && (|| !c.api.lookupAnswers(name)
                   || !DrainEnabled(c.spec)
                   || (Gated(w, name, c) && c.api.podsListed(name))))
  {
    hide AdvanceNode;
    var ns := Observe(w, name, w.nodes[name], c);
    AdvanceCreates(FoundSite(w, ns, c), pods, c);
  }

  /** A node gets its flash Job exactly when its Create goes through and either the drain gate is
      satisfied, or drain is off, or the Job lookup failed: a failed lookup skips the gate. */
  lemma FlashedExactlyWhen(w: World, c: Ctx, i: nat)
    requires Listing(w, c) && Lists(w, c) && i < |ObserveAll(w, c)|
    requires var n := ObserveAll(w, c)[i].name; n in w.nodes && Claimable(w.nodes[n], c.cr) && JobFor(n, c) !in w.jobs
    ensures var n := ObserveAll(w, c)[i].name;
            JobFor(n, c) in Reconcile(w, c).w.jobs <==>
              (&& CreateGoesThrough(w, c, i)
               && (|| !DrainEnabled(c.spec)
                   || !c.api.lookupAnswers(n)
                   || (Gated(w, n, c) && c.api.podsListed(n))))
  {
    hide Begin, ObserveAll, Observe, AdvanceNode, Gated, Reconcile, Listing, Advances, SlotsAt, PodsAt, Owner,
         Spenders, Budget;
    var ns := ObserveAll(w, c)[i];
    LocalMeans(w, c);
    SlotsBefore(w, c, i);
    ObservedAt(w, c, i);
    ReconcileMoves(w, c, i);
    SiteCreates(w, ns.name, c, PodsAt(w, c, i));
    PendingCreates(w, ns.name, c, PodsAt(w, c, i));
  }

  /** Only a node observed as Pending can get a Job. */
  lemma PendingCreates(w: World, name: string, c: Ctx, pods: seq<Pod>)
    requires name in w.nodes && JobFor(name, c) !in w.jobs
    ensures var ns := Observe(w, name, w.nodes[name], c);
            AdvanceNode(FoundSite(w, ns, c), pods, c).site.hasJob ==> ns.state.Pending?
  {
    hide AdvanceNode, Observe;
    AdvanceCreates(FoundSite(w, Observe(w, name, w.nodes[name], c), c), pods, c);
  }

  /** Drain before flash: with drain on and the lookup answered, a node that gets a Job was cordoned
      by this policy and free of device pods when observed, and its cordon still stands afterwards. */
  lemma DrainBeforeFlash(w: World, c: Ctx, i: nat)
    requires Listing(w, c) && Lists(w, c) && i < |ObserveAll(w, c)|
    requires var n := ObserveAll(w, c)[i].name; n in w.nodes && Claimable(w.nodes[n], c.cr) && JobFor(n, c) !in w.jobs
    requires DrainEnabled(c.spec) && c.api.lookupAnswers(ObserveAll(w, c)[i].name)
    requires JobFor(ObserveAll(w, c)[i].name, c) in Reconcile(w, c).w.jobs
    ensures var n, r := ObserveAll(w, c)[i].name, Reconcile(w, c).w;
            Gated(w, n, c) && n in r.nodes && SameCordon(w.nodes[n], r.nodes[n])
  {
    hide Begin, ObserveAll, Observe, Reconcile, Listing, CreateGoesThrough, PodsAt, AdvanceNode, Advances, OnlyMirrors;
    var ns := ObserveAll(w, c)[i];
    FlashedExactlyWhen(w, c, i);
    LocalMeans(w, c);
    ObservedAt(w, c, i);
    ReconcileMoves(w, c, i);
    PendingCreates(w, ns.name, c, PodsAt(w, c, i));
    MoveParts(FoundSite(w, ns, c), PodsAt(w, c, i), c);
    MirrorsCore(MoveOn(w, c, i).server, Reconcile(w, c).w.nodes[ns.name]);
  }

  /** A reconcile creates Jobs only for listed nodes it may own, at its own version, and only when it advances. */
  lemma NewJobs(w: World, c: Ctx, id: JobId) returns (i: nat)
    requires Listing(w, c) && id in Reconcile(w, c).w.jobs && id !in w.jobs
    ensures Advances(w, c) && i < |Begin(w, c).states| && id == JobFor(Begin(w, c).states[i].name, c)
    ensures id.node in w.nodes && Claimable(w.nodes[id.node], c.cr)
  {
    hide Begin, ObserveAll, Reconcile, Listing, Halted, Claimable, Turn;
    ReconcileLeaves(w, c);
    InterfereKeeps(w, c.api.beforeCount);
    BeginJobs(w, c);
    LocalMeans(w, c);
    i := NewJobInTurns(w, c, id, |Begin(w, c).states|);
    TurnStarts(w, c, i);
  }

  lemma {:induction false} NewJobInTurns(w: World, c: Ctx, id: JobId, k: nat) returns (i: nat)
    requires Listing(w, c) && k <= |Begin(w, c).states| && id in AtTurn(w, c, k).w.jobs && id !in w.jobs
    ensures i < k && id == JobFor(Begin(w, c).states[i].name, c) && Begin(w, c).states[i].name in Begin(w, c).local
  {
    hide Turn, Begin, ObserveAll, Listing, FreshAt, Acted, Shape;
    BeginJobs(w, c);
    assert k > 0;
    var s := AtTurn(w, c, k - 1);
    PassShape(w, c, k - 1);
    ShapeNames(w, c, s, k - 1);
    SameLocals(w, c, s, k - 1);
    TurnJobs(s, k - 1, c);
    InterfereKeeps(s.w, c.api.before(k - 1));
    if id in s.w.jobs {
      i := NewJobInTurns(w, c, id, k - 1);
    } else {
      i := k - 1;
      ActedLocal(s, k - 1);
    }
  }

  lemma SameLocals(w: World, c: Ctx, s: Pass, k: nat)
    requires Shape(w, c, s, k)
    ensures s.local.Keys == Begin(w, c).local.Keys
  {
  }

  lemma ActedLocal(s: Pass, i: nat)
    requires i < |s.states| && Acted(s, i)
    ensures s.states[i].name in s.local
  {
  }
}
