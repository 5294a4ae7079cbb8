/** One undisturbed round: a reconcile every call of which succeeds, then evicted pods leave and Jobs finish. */
module SmoothRound {
  import opened Kube
  import opened Drain
  import opened Selector
  import opened Firmware
  import opened Steps
  import opened Passes
  import opened NodeLife
  import opened SlotBound
  import opened Progress

  /** Every call succeeds, every eviction is accepted, nobody interferes, nobody paused the policy. */
  ghost predicate Smooth(c: Ctx) {
    && c.api.nodesListed && c.api.jobsListed && WellFormed(c.spec.selector) && Acts(c) && NoInterference(c)
    && (forall n :: c.api.lookupAnswers(n) && c.api.podsListed(n) && c.api.drainListed(n) && c.api.create(n).Accepted?)
    && (forall n, k :: c.api.patch(n, k).Applied?)
    && (forall p :: c.api.evict(p).Evicted?)
  }

  /** What happens after a reconcile: evicted pods are gone, unfinished Jobs have succeeded. */
  function RunToSuccess(job: Job): Job {
    if Outcome(job).Running? then Job([JobCondition(Complete, true)]) else job
  }

  function Settle(w: World): World {
    w.(jobs := map id | id in w.jobs :: RunToSuccess(w.jobs[id]), pods := Remaining(w.pods, w.evicted))
  }

  function Round(w: World, c: Ctx): World { Settle(Reconcile(w, c).w) }

  /** The nodes the policy rolls out to. */
  function Fleet(w: World, c: Ctx): set<string> {
    set n | n in w.nodes && Matches(w.nodes[n], c)
  }

  /** A node nothing stands in the way of: not another policy's, not cordoned by others, not failed. */
  predicate Clear(w: World, n: string, c: Ctx)
    requires n in w.nodes
  {
    && Claimable(w.nodes[n], c.cr)
    && (DrainEnabled(c.spec) && w.nodes[n].unschedulable ==> w.nodes[n].cordon.owner == c.cr)
    && (JobFor(n, c) in w.jobs ==> !Outcome(w.jobs[JobFor(n, c)]).JobFailed?)
  }

  predicate Rollable(w: World, n: string, c: Ctx)
    requires n in w.nodes
  {
    Clear(w, n, c) && (Stage(w, n, c).Draining? ==> InTime(w.nodes[n], c))
  }

  predicate AllRollable(w: World, c: Ctx) {
    forall n <- Fleet(w, c) :: Rollable(w, n, c)
  }

  /** A fleet node is observed at its true stage, which is not Failed, and nothing says hands off. */
  lemma SeenAsIs(w: World, c: Ctx, n: string)
    requires Smooth(c) && n in w.nodes && Rollable(w, n, c)
    ensures var ns := Observe(w, n, w.nodes[n], c);
            ns.state == Stage(w, n, c) && !ns.state.Failed? && !HandsOff(ns.message)
  {
    ObservedStage(w, n, c);
  }

  lemma NeverHalts(w: World, c: Ctx)
    requires Smooth(c) && Listing(w, c) && AllRollable(w, c)
    ensures Advances(w, c)
    ensures forall i | 0 <= i < |Begin(w, c).states| ::
              var ns := Begin(w, c).states[i];
              ns.name in Fleet(w, c) && ns.state == Stage(w, ns.name, c) && !HandsOff(ns.message)
  {
    hide ObserveAll, Observe, Stage, Rollable, Listing, Smooth;
    LocalMeans(w, c);
    forall i | 0 <= i < |ObserveAll(w, c)|
      ensures var ns := ObserveAll(w, c)[i];
              ns.name in Fleet(w, c) && ns.state == Stage(w, ns.name, c) && !ns.state.Failed? && !HandsOff(ns.message)
    {
      ObservedAt(w, c, i);
      var n := ObserveAll(w, c)[i].name;
      RollableIsOurs(w, n, c);
      SeenAsIs(w, c, n);
    }
    SmoothLists(c);
  }

  lemma RollableIsOurs(w: World, n: string, c: Ctx)
    requires n in w.nodes && Rollable(w, n, c)
    ensures Claimable(w.nodes[n], c.cr)
  {
  }

  lemma SmoothLists(c: Ctx)
    requires Smooth(c)
    ensures c.api.nodesListed && c.api.jobsListed && WellFormed(c.spec.selector) && Acts(c) && NoInterference(c)
  {
  }

  /** A smooth move does what its state asks for. */
  lemma SmoothMove(site: Site, pods: seq<Pod>, c: Ctx)
    requires Smooth(c) && Fresh(site)
    ensures var m, st := AdvanceNode(site, pods, c), site.ns.state;
            && (st.Cordoning? ==> m.site.server.unschedulable && m.site.server.cordon.owner == c.cr)
            && (st.Draining? ==> forall p <- pods :: p.id in m.site.evicted)
            && (st.Pending? ==> m.site.hasJob && m.advanced)
            && (st.Uncordoning? && site.server.cordon.owner == c.cr ==>
                  !m.site.server.unschedulable && m.site.server.cordon.owner == "")
  {
    SmoothEvictions(pods, 0, c, Evictions({}, None, true));
  }

  lemma {:induction false} SmoothEvictions(pods: seq<Pod>, i: nat, c: Ctx, acc: Evictions)
    requires Smooth(c) && i <= |pods| && forall j | 0 <= j < i :: pods[j].id in acc.done
    ensures forall p <- pods :: p.id in EvictFrom(pods, i, c.api.evict, acc).done
    decreases |pods| - i
  {
    if i < |pods| {
      SmoothEvictions(pods, i + 1, c, acc.(done := acc.done + {pods[i].id}));
    }
  }

  // ---- Slots ------------------------------------------------------------------------

  /** How many of the first `k` states are waiting for a slot. */
  function Waiting(states: seq<NodeStatus>, k: nat): nat
    requires k <= |states|
  {
    if k == 0 then 0 else Waiting(states, k - 1) + if states[k - 1].state.Pending? then 1 else 0
  }

  lemma SmoothSlots(s0: Pass, i: nat, c: Ctx)
    requires Smooth(c) && Sane(s0) && i < |s0.states| && FreshAt(s0, i)
    requires s0.states[i].name in s0.local && !HandsOff(s0.states[i].message)
    ensures Turn(s0, i, c).capacity ==
            s0.capacity - if s0.states[i].state.Pending? && s0.capacity > 0 then 1 else 0
  {
    hide AdvanceNode, PodsToDrain;
    InterfereKeeps(s0.w, c.api.before(i));
    SmoothMove(SiteAt(s0, i, c), PodsToDrain(Disturbed(s0, i, c).w, s0.states[i].name, c), c);
  }

  /** Slots go to waiting nodes in listing order until they run out. */
  lemma {:induction false} SlotsLeft(w: World, c: Ctx, k: nat)
    requires Smooth(c) && Listing(w, c) && AllRollable(w, c) && k <= |Begin(w, c).states|
    requires InFlight(w.jobs, c.cr) <= MaxParallel(c.spec)
    ensures SlotsAt(w, c, k) == Max(0, MaxParallel(c.spec) - InFlight(w.jobs, c.cr) - Waiting(Begin(w, c).states, k))
  {
    hide Turn, Begin, ObserveAll, Smooth, Listing, AllRollable, FreshAt, InFlight, MaxParallel, Fleet, Stage,
         Rollable, Claimable, HandsOff;
    if k == 0 {
      FirstSlots(w, c);
    } else {
      SlotsLeft(w, c, k - 1);
      TurnStarts(w, c, k - 1);
      NeverHalts(w, c);
      FleetIsOurs(w, c, Begin(w, c).states[k - 1].name);
      SmoothSlots(AtTurn(w, c, k - 1), k - 1, c);
    }
  }

  lemma FirstSlots(w: World, c: Ctx)
    requires Smooth(c)
    ensures Begin(w, c).capacity == MaxParallel(c.spec) - InFlight(w.jobs, c.cr)
  {
  }

  lemma FleetIsOurs(w: World, c: Ctx, n: string)
    requires AllRollable(w, c) && n in Fleet(w, c)
    ensures Claimable(w.nodes[n], c.cr) && Rollable(w, n, c)
  {
  }

  // ---- Evictions --------------------------------------------------------------------

  lemma {:induction false} EvictedStays(w: World, c: Ctx, i: nat, k: nat)
    requires Listing(w, c) && i <= k <= |Begin(w, c).states|
    ensures AtTurn(w, c, i).w.evicted <= AtTurn(w, c, k).w.evicted
  {
    hide Turn, Begin, ObserveAll, Listing, FreshAt, MoveAt, Acted;
    if i < k {
      EvictedStays(w, c, i, k - 1);
      PassShape(w, c, k - 1);
      var s := AtTurn(w, c, k - 1);
      TurnFrame(s, k - 1, c);
      InterfereKeeps(s.w, c.api.before(k - 1));
    }
  }

  lemma {:induction false} PodsStay(w: World, c: Ctx, k: nat)
    requires NoInterference(c) && Listing(w, c) && k <= |Begin(w, c).states|
    ensures AtTurn(w, c, k).w.pods == w.pods
  {
    hide AdvanceNode, ObserveAll, Listing;
    if k > 0 {
      PodsStay(w, c, k - 1);
    }
  }

  /** A draining node's device pods are all evicted in one smooth round. */
  lemma DrainsAll(w: World, c: Ctx, i: nat)
    requires Smooth(c) && Listing(w, c) && AllRollable(w, c) && i < |Begin(w, c).states|
    requires Begin(w, c).states[i].state.Draining?
    ensures forall p <- PodsToDrain(w, Begin(w, c).states[i].name, c) :: p.id in Reconcile(w, c).w.evicted
  {
    hide Turn, Begin, ObserveAll, Listing, AllRollable, AdvanceNode, Reconcile, Halted, FreshAt, PodsToDrain;
    var ns, s := Begin(w, c).states[i], AtTurn(w, c, i);
    NeverHalts(w, c);
    TurnStarts(w, c, i);
    FleetIsOurs(w, c, ns.name);
    TurnFrame(s, i, c);
    SiteIsFound(w, c, i);
    PodsStay(w, c, i);
    InterfereKeeps(s.w, c.api.before(i));
    PodsListedAt(w, s, i, c);
    SmoothMove(FoundSite(w, ns, c), PodsToDrain(w, ns.name, c), c);
    assert Acted(s, i);
    EvictedStays(w, c, i + 1, |Begin(w, c).states|);
    ReconcileLeaves(w, c);
  }

  lemma PodsListedAt(w: World, s: Pass, i: nat, c: Ctx)
    requires NoInterference(c) && i < |s.states| && s.w.pods == w.pods
    ensures PodsToDrain(Disturbed(s, i, c).w, s.states[i].name, c) == PodsToDrain(w, s.states[i].name, c)
  {
  }

  // ---- One round --------------------------------------------------------------------

  /** How a node's stage may change in one round, given whether a slot was left at its turn. */
  predicate MovesOn(a: NodeState, b: NodeState, slot: bool) {
    match a
    case Cordoning => b.Draining? || b.Pending?
    case Draining => b.Pending?
    case Pending => if slot then b.Uncordoning? || b.Done? else b.Pending?
    case Flashing => b.Uncordoning? || b.Done?
    case Uncordoning => b.Done?
    case Done => b.Done?
    case Failed => false
  }

  lemma SmoothStage(w: World, c: Ctx, n: string, pods: seq<Pod>, slot: bool, quiet: bool)
    requires Smooth(c) && n in w.nodes && Rollable(w, n, c) && c.cr != ""
    requires PodsToDrain(w, n, c) == [] || Stage(w, n, c).Draining? ==> quiet
    ensures var ns := Observe(w, n, w.nodes[n], c);
            var site := FoundSite(w, ns, c);
            var m := if Takes(ns, if slot then 1 else 0) then AdvanceNode(site, pods, c).site else site;
            var b := StageOf(m.server, Work(m.hasJob, Succeeded, quiet), c);
            && MovesOn(Stage(w, n, c), b, slot)
            && (DrainEnabled(c.spec) && m.server.unschedulable ==> m.server.cordon.owner == c.cr)
  {
    hide AdvanceNode, PodsToDrain;
    var ns := Observe(w, n, w.nodes[n], c);
    var site := FoundSite(w, ns, c);
    SeenAsIs(w, c, n);
    SmoothMove(site, pods, c);
    MoveParts(site, pods, c);
    AdvanceOwner(site, pods, c);
  }

  /** In a smooth reconcile every Job is one that was there, unchanged, or a new unfinished one. */
  ghost predicate OnlyNewJobs(a: map<JobId, Job>, b: map<JobId, Job>) {
    forall id <- b :: (id in a && b[id] == a[id]) || (id !in a && b[id] == Job([]))
  }

  lemma {:induction false} SmoothJobs(w: World, c: Ctx, k: nat)
    requires Smooth(c) && Listing(w, c) && k <= |Begin(w, c).states|
    ensures OnlyNewJobs(w.jobs, AtTurn(w, c, k).w.jobs) && w.jobs.Keys <= AtTurn(w, c, k).w.jobs.Keys
  {
    hide Turn, Begin, ObserveAll, Listing, FreshAt, Acted;
    if k == 0 {
      BeginJobs(w, c);
    } else {
      SmoothJobs(w, c, k - 1);
      PassShape(w, c, k - 1);
      TurnJobs(AtTurn(w, c, k - 1), k - 1, c);
      assert Disturbed(AtTurn(w, c, k - 1), k - 1, c).w == AtTurn(w, c, k - 1).w;
    }
  }

  /** After a round no Job is unfinished, and none failed that had not failed before. */
  lemma RoundJobs(w: World, c: Ctx)
    requires Smooth(c) && Listing(w, c) && Advances(w, c)
    ensures var jobs := Round(w, c).jobs;
            && jobs.Keys == Reconcile(w, c).w.jobs.Keys
            && InFlight(jobs, c.cr) == 0
            && (forall id <- jobs :: (id in w.jobs && Outcome(w.jobs[id]).JobFailed?) || Outcome(jobs[id]).Succeeded?)
  {
    hide Begin, Reconcile, Turns, Listing, Smooth, Halted;
    SmoothJobs(w, c, |Begin(w, c).states|);
    ReconcileLeaves(w, c);
    var jobs := Round(w, c).jobs;
    forall id <- jobs
      ensures !Outcome(jobs[id]).Running?
      ensures (id in w.jobs && Outcome(w.jobs[id]).JobFailed?) || Outcome(jobs[id]).Succeeded?
    {
      SettledJob(Reconcile(w, c).w.jobs[id]);
    }
    assert Active(jobs, c.cr) == {};
  }

  lemma SettledJob(job: Job)
    ensures !Outcome(RunToSuccess(job)).Running?
    ensures Outcome(RunToSuccess(job)).Succeeded? || Outcome(job).JobFailed?
  {
  }

  /** Pods after a round: none new, and none of those a draining node was waiting for. */
  lemma RoundPods(w: World, c: Ctx, i: nat)
    requires Smooth(c) && Listing(w, c) && AllRollable(w, c) && i < |Begin(w, c).states|
    ensures var n := Begin(w, c).states[i].name;
            PodsToDrain(w, n, c) == [] || Begin(w, c).states[i].state.Draining? ==> PodsToDrain(Round(w, c), n, c) == []
  {
    hide Begin, Reconcile, Turns, Listing, Smooth, Halted, AllRollable, Stage, Fleet;
    var n := Begin(w, c).states[i].name;
    NeverHalts(w, c);
    SmoothLists(c);
    PodsStay(w, c, |Begin(w, c).states|);
    ReconcileLeaves(w, c);
    var left := PodsToDrain(Round(w, c), n, c);
    if left != [] {
      assert left[0] in left;
      assert left[0] in PodsToDrain(w, n, c);
      if Begin(w, c).states[i].state.Draining? {
        DrainsAll(w, c, i);
      }
    }
  }

  lemma RoundMove(w: World, c: Ctx, i: nat, quiet: bool)
    requires Smooth(c) && Listing(w, c) && AllRollable(w, c) && i < |Begin(w, c).states|
    requires var ns := Begin(w, c).states[i];
             PodsToDrain(w, ns.name, c) == [] || ns.state.Draining? ==> quiet
    ensures var n, m := Begin(w, c).states[i].name, MoveOn(w, c, i);
            && n in w.nodes && Claimable(w.nodes[n], c.cr)
            && MovesOn(Stage(w, n, c), StageOf(m.server, Work(m.hasJob, Succeeded, quiet), c), SlotsAt(w, c, i) > 0)
            && (DrainEnabled(c.spec) && m.server.unschedulable ==> m.server.cordon.owner == c.cr)
            && Claimable(m.server, c.cr)
  {
    hide Begin, ObserveAll, Smooth, AllRollable, Stage, AdvanceNode, Observe, StageOf, PodsToDrain, MovesOn, Halted,
         SlotsAt, PodsAt;
    var ns := Begin(w, c).states[i];
    LocalMeans(w, c);
    NeverHalts(w, c);
    ObservedAt(w, c, i);
    FleetIsOurs(w, c, ns.name);
    SmoothStage(w, c, ns.name, PodsAt(w, c, i), SlotsAt(w, c, i) > 0, quiet);
    AdvanceOwner(FoundSite(w, ns, c), PodsAt(w, c, i), c);
  }

  /** One round moves every fleet node on, and keeps it clear. */
  lemma RoundNode(w: World, c: Ctx, n: string) returns (i: nat)
    requires Smooth(c) && Listing(w, c) && AllRollable(w, c) && n in Fleet(w, c)
    ensures i < |Begin(w, c).states| && Begin(w, c).states[i].name == n
    ensures n in Round(w, c).nodes && Clear(Round(w, c), n, c)
    ensures MovesOn(Stage(w, n, c), Stage(Round(w, c), n, c), SlotsAt(w, c, i) > 0)
  {
    hide Begin, Reconcile, ObserveAll, Listing, Smooth, AllRollable, StageOf, PodsToDrain, MovesOn, OnlyMirrors,
         Outcome, MoveOn, SlotsAt, Matches, Rollable, Owner, Halted;
    i := ObservedCovers(w, c, n);
    LocalMeans(w, c);
    NeverHalts(w, c);
    ReconcileMoves(w, c, i);
    RoundPods(w, c, i);
    var m, node := MoveOn(w, c, i), Reconcile(w, c).w.nodes[n];
    var quiet := PodsToDrain(Round(w, c), n, c) == [];
    RoundMove(w, c, i, quiet);
    MirrorsCore(m.server, node);
    StageOfMirrors(m.server, node, Work(m.hasJob, Succeeded, quiet), c);
    FleetIsClear(w, c, n);
    RoundWork(w, c, n, m.hasJob, node);
  }

  lemma FleetIsClear(w: World, c: Ctx, n: string)
    requires AllRollable(w, c) && n in Fleet(w, c)
    ensures Clear(w, n, c)
  {
  }

  lemma RoundWork(w: World, c: Ctx, n: string, hasJob: bool, node: Node)
    requires Smooth(c) && Listing(w, c) && Advances(w, c) && n in w.nodes && Clear(w, n, c)
    requires hasJob <==> JobFor(n, c) in Reconcile(w, c).w.jobs
    ensures var k := WorkAt(Round(w, c), n, c);
            && k.hasJob == hasJob && (hasJob ==> k.outcome.Succeeded?)
            && StageOf(node, k, c) == StageOf(node, Work(hasJob, Succeeded, PodsToDrain(Round(w, c), n, c) == []), c)
  {
    hide Reconcile, PodsToDrain, Listing, Smooth, Advances, Owner, Outcome;
    RoundJobs(w, c);
  }

  /** The mark a schedulable node gets; a leftover timestamp would be kept. */
  function MarkOf(n: Node, c: Ctx): CordonMark { Cordon(false, n.cordon, c.cr, c.now).mark }

  lemma SmoothMark(site: Site, pods: seq<Pod>, c: Ctx)
    requires Smooth(c) && Fresh(site) && site.ns.state.Cordoning? && !site.server.unschedulable
    ensures AdvanceNode(site, pods, c).site.server.cordon == MarkOf(site.server, c)
  {
    hide SpawnFlashJob, DrainStep, UncordonStep;
  }

  lemma RoundMarks(w: World, c: Ctx, n: string)
    requires Smooth(c) && Listing(w, c) && AllRollable(w, c) && n in Fleet(w, c) && Stage(w, n, c).Cordoning?
    ensures n in Round(w, c).nodes && Round(w, c).nodes[n].cordon == MarkOf(w.nodes[n], c)
  {
    hide Begin, Reconcile, ObserveAll, Listing, Smooth, AllRollable, OnlyMirrors, AdvanceNode, Halted, Matches,
         Stage, PodsAt;
    LocalMeans(w, c);
    var i := ObservedCovers(w, c, n);
    NeverHalts(w, c);
    FleetIsClear(w, c, n);
    CordoningIsSchedulable(w, c, n);
    ReconcileMoves(w, c, i);
    SmoothMark(FoundSite(w, Begin(w, c).states[i], c), PodsAt(w, c, i), c);
    MirrorsCore(MoveOn(w, c, i).server, Reconcile(w, c).w.nodes[n]);
  }

  lemma CordoningIsSchedulable(w: World, c: Ctx, n: string)
    requires n in w.nodes && Stage(w, n, c).Cordoning?
    ensures !w.nodes[n].unschedulable
  {
  }
}
