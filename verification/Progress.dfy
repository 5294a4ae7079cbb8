/** No reconcile ever sends a node back: its stage only moves towards Done, whatever fails. */
module Progress {
  import opened Kube
  import opened Drain
  import opened Firmware
  import opened Protocol
  import opened Steps
  import opened Passes
  import opened NodeLife
  import opened SlotBound

  /** What of a node's cluster state its stage depends on, besides cordon and scheduling. */
  datatype Work = Work(hasJob: bool, outcome: JobOutcome, quiet: bool)

  /** Where a node really is, told by its Job, its cordon and its device pods alone. */
  function StageOf(n: Node, k: Work, c: Ctx): NodeState {
    if k.hasJob then
      match k.outcome
      case Succeeded => if DrainEnabled(c.spec) && n.cordon.owner == c.cr then Uncordoning else Done
      case JobFailed => Failed
      case Running => Flashing
    else if !DrainEnabled(c.spec) then Pending
    else if !n.unschedulable then Cordoning
    else if n.cordon.owner == c.cr && !k.quiet then Draining
    else Pending
  }

  function WorkAt(w: World, name: string, c: Ctx): Work {
    var id := JobFor(name, c);
    Work(id in w.jobs, if id in w.jobs then Outcome(w.jobs[id]) else Running, PodsToDrain(w, name, c) == [])
  }

  function Stage(w: World, name: string, c: Ctx): NodeState
    requires name in w.nodes
  {
    StageOf(w.nodes[name], WorkAt(w, name, c), c)
  }

  /** Steps left to Done; a failed flash has none either. */
  function Rank(st: NodeState): nat {
    match st
    case Cordoning => 5
    case Draining => 4
    case Pending => 3
    case Flashing => 2
    case Uncordoning => 1
    case Done => 0
    case Failed => 0
  }

  /** `b` is no further from Done than `a`, and the two final stages are final. */
  predicate Descends(a: NodeState, b: NodeState) {
    Rank(b) <= Rank(a) && (a.Done? ==> b.Done?) && (a.Failed? ==> b.Failed?)
  }

  /** Drain deadline not passed. */
  predicate InTime(n: Node, c: Ctx) { CordonElapsed(n.cordon, c.now) <= DrainTimeout(c.spec) }

  /** When the API server answers and the drain is not overdue, what a reconcile observes is the stage. */
  lemma ObservedStage(w: World, name: string, c: Ctx)
    requires name in w.nodes && c.api.lookupAnswers(name) && c.api.podsListed(name)
    requires Stage(w, name, c).Draining? ==> InTime(w.nodes[name], c)
    ensures Observe(w, name, w.nodes[name], c).state == Stage(w, name, c)
  {
  }

  /** Work that others may do on a node's behalf: the Job advances, device pods go away. */
  predicate Advancing(a: Work, b: Work) {
    && a.hasJob == b.hasJob && (a.quiet ==> b.quiet)
    && (a.hasJob ==> a.outcome.Running? || b.outcome == a.outcome)
  }

  lemma StageFollowsWork(n: Node, a: Work, b: Work, c: Ctx)
    requires Advancing(a, b)
    ensures Descends(StageOf(n, a, c), StageOf(n, b, c))
  {
  }

  /** What each action does to the stage-relevant part of a node. */
  lemma MoveParts(site: Site, pods: seq<Pod>, c: Ctx)
    requires Fresh(site)
    ensures var n, m, st := site.server, AdvanceNode(site, pods, c).site, site.ns.state;
            && (!st.Cordoning? && !st.Uncordoning? ==>
                  m.server.cordon == n.cordon && m.server.unschedulable == n.unschedulable)
            && (!st.Pending? ==> m.hasJob == site.hasJob)
            && (st.Cordoning? ==> SameCordon(n, m.server) || (m.server.unschedulable && m.server.cordon.owner == c.cr))
            && (st.Uncordoning? ==> SameCordon(n, m.server) || (!m.server.unschedulable && m.server.cordon.owner == ""))
  {
    hide ClaimOwnership;
    ClaimFrame(site, c);
  }

  predicate SameCordon(a: Node, b: Node) { a.cordon == b.cordon && a.unschedulable == b.unschedulable }

  /** A reconcile's move on a node, from any observation of it, never raises its stage. */
  lemma MoveDescends(w: World, name: string, c: Ctx, pods: seq<Pod>)
    requires name in w.nodes && c.cr != ""
    ensures var site := FoundSite(w, Observe(w, name, w.nodes[name], c), c);
            var m := AdvanceNode(site, pods, c).site;
            var k := WorkAt(w, name, c);
            Descends(StageOf(w.nodes[name], k, c), StageOf(m.server, k.(hasJob := m.hasJob), c))
  {
    hide AdvanceNode;
    var site := FoundSite(w, Observe(w, name, w.nodes[name], c), c);
    MoveParts(site, pods, c);
    AdvanceOwner(site, pods, c);
  }

  lemma ReconcileWork(w: World, c: Ctx, name: string)
    requires Listing(w, c) && name in w.nodes
    ensures var r := Reconcile(w, c).w;
            && (forall id <- w.jobs ::
                  id in r.jobs && (Outcome(w.jobs[id]).Running? || Outcome(r.jobs[id]) == Outcome(w.jobs[id])))
  {
    hide Begin, Turns, Reconcile, Lists, Halted;
    ReconcileLeaves(w, c);
    InterferenceProgresses(w, c.api.beforeCount);
    if Lists(w, c) {
      TurnsProgress(w, c, 0);
      TurnsProgress(w, c, |Begin(w, c).states|);
    }
  }

  lemma {:induction false} TurnsProgress(w: World, c: Ctx, k: nat)
    requires Listing(w, c) && k <= |Begin(w, c).states|
    ensures Turns(Begin(w, c), 0, c) == Begin(w, c)
    ensures var jobs := Turns(Begin(w, c), k, c).w.jobs;
            forall id <- w.jobs ::
                  id in jobs && (Outcome(w.jobs[id]).Running? || Outcome(jobs[id]) == Outcome(w.jobs[id]))
  {
    hide Turn, Begin, Listing, FreshAt, Outcome;
    if k == 0 {
      BeginJobs(w, c);
      InterferenceProgresses(w, c.api.beforeCount);
    } else {
      TurnsProgress(w, c, k - 1);
      PassShape(w, c, k - 1);
      var s := Turns(Begin(w, c), k - 1, c);
      TurnJobs(s, k - 1, c);
      InterferenceProgresses(s.w, c.api.before(k - 1));
    }
  }

  lemma ListedDescends(w: World, c: Ctx, i: nat)
    requires Listing(w, c) && i < |Begin(w, c).states|
    requires var n := Begin(w, c).states[i].name; n in w.nodes && Claimable(w.nodes[n], c.cr)
    ensures var n, m := Begin(w, c).states[i].name, MoveOn(w, c, i);
            Descends(Stage(w, n, c), StageOf(m.server, WorkAt(w, n, c).(hasJob := m.hasJob), c))
    ensures JobFor(Begin(w, c).states[i].name, c) in w.jobs ==> MoveOn(w, c, i).hasJob
  {
    hide Begin, ObserveAll, StageOf, AdvanceNode, Observe, Advances, Takes, Descends, PodsToDrain, PodsAt, Outcome;
    LocalMeans(w, c);
    ObservedAt(w, c, i);
    var ns, k := Begin(w, c).states[i], WorkAt(w, Begin(w, c).states[i].name, c);
    MoveDescends(w, ns.name, c, PodsAt(w, c, i));
    AdvanceOwner(FoundSite(w, ns, c), PodsAt(w, c, i), c);
    StageFollowsWork(w.nodes[ns.name], k, k, c);
    assert k.(hasJob := JobFor(ns.name, c) in w.jobs) == k;
  }

  lemma WorkAdvances(w: World, c: Ctx, name: string, hasJob: bool)
    requires Listing(w, c) && name in w.nodes
    requires PodsToDrain(w, name, c) == [] ==> PodsToDrain(Reconcile(w, c).w, name, c) == []
    requires hasJob <==> JobFor(name, c) in Reconcile(w, c).w.jobs
    requires JobFor(name, c) in w.jobs ==> hasJob
    ensures Advancing(WorkAt(w, name, c).(hasJob := hasJob), WorkAt(Reconcile(w, c).w, name, c))
  {
    hide Reconcile, Listing, Outcome, PodsToDrain;
    ReconcileWork(w, c, name);
  }

  /** A reconcile of any policy, under any answers, lowers a node's stage or leaves it. */
  lemma ReconcileDescends(w: World, c: Ctx, name: string)
    requires Listing(w, c) && name in w.nodes && name in Reconcile(w, c).w.nodes
    requires PodsToDrain(w, name, c) == [] ==> PodsToDrain(Reconcile(w, c).w, name, c) == []
    ensures Descends(Stage(w, name, c), Stage(Reconcile(w, c).w, name, c))
  {
    hide Reconcile, Begin, ObserveAll, Listing, StageOf, Descends, Lists, Matches, Claimable, OnlyMirrors, WorkAt,
         MoveOn, PodsToDrain, Advancing;
    var r := Reconcile(w, c).w;
    var a, b := WorkAt(w, name, c), WorkAt(r, name, c);
    if Lists(w, c) && Matches(w.nodes[name], c) && Claimable(w.nodes[name], c.cr) {
      LocalMeans(w, c);
      var i := ObservedCovers(w, c, name);
      ReconcileMoves(w, c, i);
      var m := MoveOn(w, c, i);
      ListedDescends(w, c, i);
      WorkAdvances(w, c, name, m.hasJob);
      StageOfMirrors(m.server, r.nodes[name], b, c);
      StageFollowsWork(m.server, a.(hasJob := m.hasJob), b, c);
      DescendsCompose(StageOf(w.nodes[name], a, c), StageOf(m.server, a.(hasJob := m.hasJob), c),
            StageOf(m.server, b, c));
    } else {
      ReconcileSkipsUnlisted(w, c, name);
      SkippedWork(w, c, name);
      StageFollowsWork(w.nodes[name], a, b, c);
    }
  }

  lemma SkippedWork(w: World, c: Ctx, name: string)
    requires Listing(w, c) && name in w.nodes && SameJobsOf(w, Reconcile(w, c).w, name)
    requires PodsToDrain(w, name, c) == [] ==> PodsToDrain(Reconcile(w, c).w, name, c) == []
    ensures Advancing(WorkAt(w, name, c), WorkAt(Reconcile(w, c).w, name, c))
  {
    hide Reconcile, Listing, Outcome, PodsToDrain;
    WorkAdvances(w, c, name, JobFor(name, c) in w.jobs);
    assert WorkAt(w, name, c).(hasJob := JobFor(name, c) in w.jobs) == WorkAt(w, name, c);
  }

  lemma DescendsCompose(a: NodeState, b: NodeState, d: NodeState)
    requires Descends(a, b) && Descends(b, d)
    ensures Descends(a, d)
  {
  }

  lemma StageOfMirrors(a: Node, b: Node, k: Work, c: Ctx)
    requires OnlyMirrors(a, b)
    ensures StageOf(a, k, c) == StageOf(b, k, c)
  {
  }

  lemma ReconcileSkipsUnlisted(w: World, c: Ctx, name: string)
    requires Listing(w, c) && name in w.nodes
    requires !(Lists(w, c) && Matches(w.nodes[name], c) && Claimable(w.nodes[name], c.cr))
    ensures var r := Reconcile(w, c).w;
            name in r.nodes && r.nodes[name] == w.nodes[name] && SameJobsOf(w, r, name)
  {
    hide Reconcile, Lists, Matches;
    if Lists(w, c) {
      ReconcileSkips(w, c, name);
    } else {
      ReconcileLeaves(w, c);
      InterfereKeeps(w, c.api.beforeCount);
    }
  }

  // ---- Over whole runs --------------------------------------------------------------

  /** Two reconciles of the same policy at the same spec, whenever they run and whatever they are told. */
  predicate SamePolicy(c: Ctx, d: Ctx) {
    c.cr == d.cr && c.spec == d.spec && c.operatorNs == d.operatorNs
  }

  /** No outside edit of this node, no deletion of its Job, no new device pod on it, no spec change. */
  predicate Calm(w: World, e: Event, name: string, c: Ctx) {
    && (PodsToDrain(w, name, c) == [] ==> PodsToDrain(Occur(w, e), name, c) == [])
    && match e
       case Reconciled(d) => d.cr == c.cr ==> SamePolicy(c, d)
       case JobDeleted(id) => id != JobFor(name, c)
       case SchedulingSet(n, _) => n != name
       case CordonEdited(n, _) => n != name
       case LabelEdited(n, key, _) => n != name || key != OwnerCR
       case NodeRemoved(n) => n != name
       case _ => true
  }

  lemma StageIsOfPolicy(w: World, name: string, c: Ctx, d: Ctx)
    requires name in w.nodes && SamePolicy(c, d)
    ensures Stage(w, name, c) == Stage(w, name, d) && PodsToDrain(w, name, c) == PodsToDrain(w, name, d)
  {
  }

  lemma OwnerStays(w: World, c: Ctx, name: string)
    requires Listing(w, c) && name in w.nodes && Owner(w.nodes[name]) != ""
    ensures var r := Reconcile(w, c).w;
            name in r.nodes && Owner(r.nodes[name]) == Owner(w.nodes[name])
  {
    hide Reconcile, Begin, ObserveAll, Listing, Lists, Matches, OnlyMirrors, MoveOn;
    if Lists(w, c) && Matches(w.nodes[name], c) && Claimable(w.nodes[name], c.cr) {
      LocalMeans(w, c);
      var i := ObservedCovers(w, c, name);
      ReconcileMoves(w, c, i);
      MoveOwner(w, c, i);
      MirrorsOwner(MoveOn(w, c, i).server, Reconcile(w, c).w.nodes[name]);
    } else {
      ReconcileSkipsUnlisted(w, c, name);
    }
  }

  lemma MoveOwner(w: World, c: Ctx, i: nat)
    requires i < |Begin(w, c).states| && Begin(w, c).states[i].name in w.nodes
    ensures var n := w.nodes[Begin(w, c).states[i].name];
            Owner(MoveOn(w, c, i).server) == Owner(n) || Owner(MoveOn(w, c, i).server) == c.cr
  {
    hide Begin, AdvanceNode, Advances, Takes, Owner;
    AdvanceOwner(FoundSite(w, Begin(w, c).states[i], c), PodsAt(w, c, i), c);
  }

  lemma MirrorsOwner(a: Node, b: Node)
    requires OnlyMirrors(a, b)
    ensures Owner(b) == Owner(a)
  {
  }

  lemma OccurDescends(w: World, e: Event, name: string, c: Ctx)
    requires e.Reconciled? ==> Listing(w, e.c)
    requires c.cr != "" && name in w.nodes && Owner(w.nodes[name]) == c.cr && Calm(w, e, name, c)
    ensures var r := Occur(w, e);
            && name in r.nodes && Owner(r.nodes[name]) == c.cr
            && Descends(Stage(w, name, c), Stage(r, name, c))
  {
    hide Reconcile, StageOf, Listing, PodsToDrain, Descends, Outcome;
    var a, b := WorkAt(w, name, c), WorkAt(Occur(w, e), name, c);
    match e
    case Reconciled(d) =>
      OwnerStays(w, d, name);
      if d.cr == c.cr {
        StageIsOfPolicy(w, name, c, d);
        StageIsOfPolicy(Occur(w, e), name, c, d);
        ReconcileDescends(w, d, name);
      } else {
        ReconcileSkips(w, d, name);
        ReconcileWork(w, d, name);
        assert Advancing(a, b);
        StageFollowsWork(w.nodes[name], a, b, c);
      }
    case LabelEdited(n, key, value) =>
      assert Advancing(a, b);
      StageFollowsWork(w.nodes[name], a, b, c);
      LabelsAside(w.nodes[name], Occur(w, e).nodes[name], b, c);
    case _ =>
      assert Advancing(a, b);
      StageFollowsWork(w.nodes[name], a, b, c);
  }

  lemma LabelsAside(a: Node, b: Node, k: Work, c: Ctx)
    requires SameCordon(a, b)
    ensures StageOf(a, k, c) == StageOf(b, k, c)
  {
  }

  ghost predicate CalmRun(w: World, es: seq<Event>, name: string, c: Ctx) {
    forall i | 0 <= i < |es| :: Calm(Run(w, es[..i]), es[i], name, c)
  }

  lemma CalmPrefix(w: World, es: seq<Event>, name: string, c: Ctx)
    requires CalmRun(w, es, name, c) && es != []
    ensures CalmRun(w, es[..|es| - 1], name, c) && Calm(Run(w, es[..|es| - 1]), es[|es| - 1], name, c)
  {
    hide Calm;
    var shorter := es[..|es| - 1];
    forall i | 0 <= i < |shorter|
      ensures Calm(Run(w, shorter[..i]), shorter[i], name, c)
    {
      assert shorter[..i] == es[..i];
    }
  }

  /** Over any run that leaves an owned node alone, its stage never rises, under any pattern of
      failed patches, failed lookups, pauses and halts; Done and Failed are final. */
  lemma {:induction false} MonotoneProgress(w: World, es: seq<Event>, name: string, c: Ctx)
    requires Faithful(w, es) && CalmRun(w, es, name, c)
    requires c.cr != "" && name in w.nodes && Owner(w.nodes[name]) == c.cr
    ensures var r := Run(w, es);
            && name in r.nodes && Owner(r.nodes[name]) == c.cr
            && Descends(Stage(w, name, c), Stage(r, name, c))
  {
    hide Occur, Listing, Calm, Stage, Descends, Owner;
    if es == [] {
      DescendsSame(Stage(w, name, c));
    } else {
      var shorter := es[..|es| - 1];
      FaithfulPrefix(w, es);
      CalmPrefix(w, es, name, c);
      MonotoneProgress(w, shorter, name, c);
      OccurDescends(Run(w, shorter), es[|es| - 1], name, c);
      DescendsCompose(Stage(w, name, c), Stage(Run(w, shorter), name, c), Stage(Run(w, es), name, c));
    }
  }

  lemma DescendsSame(st: NodeState)
    ensures Descends(st, st)
  {
  }
}
