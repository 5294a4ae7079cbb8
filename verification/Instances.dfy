/** Concrete clusters on which the firmware controller does not do what its comments promise. Each is an
    instance of an exact condition proved elsewhere. */
module Instances {
  import opened Kube
  import opened Drain
  import opened Selector
  import opened Firmware
  import opened Passes
  import opened Progress
  import opened Slots
  import opened Matching
  import opened SmoothRound
  import opened Convergence
  import opened DrainGate
  import opened BlastRadius
  import opened CordonCount
  import opened Status
  import opened History
  import opened Mirrors
  import G = Gauges

  /** Every call is answered and succeeds, nobody interferes. */
  function QuietApi(order: seq<string>): Api {
    Api(true, true, true, order, n => true, n => true, n => "", (n, k) => Applied, n => true, p => Evicted,
        n => Accepted, [], i => [])
  }

  function Policy(cap: int, drain: bool): Spec {
    Spec("2", "", EVERYTHING, false, None, cap, None, Some(drain), false, 0)
  }

  function Context(spec: Spec, api: Api): Ctx { Ctx("p", spec, 0, "operator", false, api) }

  const PLAIN_NODE := Node(map[], false, CordonMark("", NoStamp), "", "", None)

  const TWO_NODES: map<string, Node> := map["a" := PLAIN_NODE, "b" := PLAIN_NODE]

  function Cluster(nodes: map<string, Node>): World { World(nodes, map[], [], {}, map[], []) }

  lemma ListsBoth()
    ensures Walks(["a", "b"], {"a", "b"})
  {
    assert ["a", "b"][0] == "a" && ["a", "b"][1] == "b" && "a"[0] != "b"[0];
  }

  lemma ListsOne()
    ensures Walks(["a"], {"a"})
  {
    assert ["a"][0] == "a";
  }

  // ---- Cordons and the cap ----------------------------------------------------------

  lemma BothDue(c: Ctx)
    requires c == Context(Policy(1, true), QuietApi(["a", "b"]))
    ensures var w := Cluster(TWO_NODES); Cordons(w, c) == {} && Leaving(w, c) == {} && Due(w, c) == {"a", "b"}
  {
    hide PodsToDrain;
  }

  lemma BothRollable(c: Ctx)
    requires c == Context(Policy(1, true), QuietApi(["a", "b"]))
    ensures var w := Cluster(TWO_NODES); Listing(w, c) && AllRollable(w, c) && Ignores(c.spec.selector, OPERATOR_KEYS)
  {
    hide AllRollable, Stage, Matches;
    var w := Cluster(TWO_NODES);
    ListsBoth();
    assert w.nodes.Keys == {"a", "b"};
    UntouchedIsRollable(w, c, c);
  }

  lemma QuietIsSmooth(c: Ctx)
    requires c == Context(Policy(1, true), QuietApi(["a", "b"]))
    ensures Smooth(c)
  {
  }

  lemma TwoNames()
    ensures |{"a", "b"}| == 2
  {
    assert "a"[0] != "b"[0];
  }

  /** Two plain nodes and a cap of one: after one round both are cordoned. */
  lemma TwoCordonsUnderCapOne()
    ensures var w, c := Cluster(TWO_NODES), Context(Policy(1, true), QuietApi(["a", "b"]));
            && Smooth(c) && Listing(w, c) && AllRollable(w, c) && MaxParallel(c.spec) == 1
            && Cordons(Round(w, c), c) == {"a", "b"} && |Cordons(Round(w, c), c)| == 2
  {
    hide Round, Smooth, Listing, AllRollable, Cordons, Leaving, Due, Ignores, QuietApi, TWO_NODES;
    var w, c := Cluster(TWO_NODES), Context(Policy(1, true), QuietApi(["a", "b"]));
    QuietIsSmooth(c);
    BothRollable(c);
    BothDue(c);
    RoundCordons(w, c);
    TwoNames();
  }

  // ---- Failed lookups ---------------------------------------------------------------

  const DEVICE_POD := Pod(PodId("default", "job"), "a", PodRunning, [HostPath(DEVICE_PATH)], ["Job"], map[])

  lemma OneState(w: World, c: Ctx, i: nat)
    requires Listing(w, c) && w.nodes.Keys == {"a"} && i < |ObserveAll(w, c)|
    ensures i == 0
  {
    hide ObserveAll, Listing;
    ObservedAt(w, c, i);
    if i > 0 {
      ObservedAt(w, c, 0);
      ObservedDistinct(w, c, 0, i);
    }
  }

  /** Drain on, a schedulable node, a pod holding the device, and a Job lookup that fails: the node is flashed. */
  lemma FlashedUndrained()
    ensures var w := Cluster(map["a" := PLAIN_NODE]).(pods := [DEVICE_POD]);
            var c := Context(Policy(1, true), QuietApi(["a"]).(lookupAnswers := n => false));
            && DrainEnabled(c.spec) && !w.nodes["a"].unschedulable && PodsToDrain(w, "a", c) == [DEVICE_POD]
            && JobFor("a", c) !in w.jobs && JobFor("a", c) in Reconcile(w, c).w.jobs
  {
    hide Reconcile;
    var w := Cluster(map["a" := PLAIN_NODE]).(pods := [DEVICE_POD]);
    var c := Context(Policy(1, true), QuietApi(["a"]).(lookupAnswers := n => false));
    ListsOne();
    assert w.nodes.Keys == {"a"};
    assert w.pods[..0] == [];
    assert DEVICE_POD.volumes[0] == HostPath(DEVICE_PATH);
    var i := ObservedCovers(w, c, "a");
    OneState(w, c, i);
    HaltedExactlyWhen(w, c);
    NothingRuns(w, c);
    FlashedExactlyWhen(w, c, i);
  }

  lemma NothingRuns(w: World, c: Ctx)
    requires forall id <- w.jobs :: !Outcome(w.jobs[id]).Running?
    requires c.api.beforeCount == []
    ensures Budget(w, c) == MaxParallel(c.spec)
  {
    assert Active(w.jobs, c.cr) == {};
  }

  const FAILED_JOB := Job([JobCondition(FailedCondition, true)])

  /** haltOnFailure on, a failed Job whose lookup fails: the rollout goes on and the next node is flashed. */
  lemma FailureUnseen()
    ensures var w := Cluster(TWO_NODES).(jobs := map[JobId("p", "a", "2") := FAILED_JOB]);
            var c := Context(Policy(2, false), QuietApi(["a", "b"]).(lookupAnswers := n => n != "a"));
            && HaltsOnFailure(c.spec) && JobFor("a", c) in w.jobs && Outcome(w.jobs[JobFor("a", c)]).JobFailed?
            && JobFor("b", c) !in w.jobs && JobFor("b", c) in Reconcile(w, c).w.jobs
  {
    hide Reconcile;
    var w := Cluster(TWO_NODES).(jobs := map[JobId("p", "a", "2") := FAILED_JOB]);
    var c := Context(Policy(2, false), QuietApi(["a", "b"]).(lookupAnswers := n => n != "a"));
    ListsBoth();
    assert "a"[0] != "b"[0];
    assert w.nodes.Keys == {"a", "b"};
    var i := ObservedCovers(w, c, "b");
    TwoStates(w, c, i);
    HaltedExactlyWhen(w, c);
    NothingRuns(w, c);
    FlashedExactlyWhen(w, c, i);
  }

  lemma TwoStates(w: World, c: Ctx, i: nat)
    requires Listing(w, c) && w.nodes.Keys == {"a", "b"} && i < |ObserveAll(w, c)|
    ensures i <= 1 && Spenders(w, c, i) <= 1
  {
    hide ObserveAll, Listing, WouldSpend;
    if i > 1 {
      ObservedAt(w, c, 0);
      ObservedAt(w, c, 1);
      ObservedAt(w, c, 2);
      ObservedDistinct(w, c, 0, 1);
      ObservedDistinct(w, c, 0, 2);
      ObservedDistinct(w, c, 1, 2);
    }
  }

  // ---- A rejected label patch -------------------------------------------------------

  const ONE_NODE := Cluster(map["a" := PLAIN_NODE])

  lemma FlashedAlone(c: Ctx) returns (i: nat)
    requires c == Context(Policy(1, false), QuietApi(["a"]).(patch := c.api.patch)) && c.api.patch("a", Claim).Applied?
    ensures Listing(ONE_NODE, c) && Lists(ONE_NODE, c) && i < |ObserveAll(ONE_NODE, c)|
    ensures ObserveAll(ONE_NODE, c)[i].name == "a" && JobFor("a", c) in Reconcile(ONE_NODE, c).w.jobs
  {
    hide Reconcile, PodsToDrain;
    ListsOne();
    assert ONE_NODE.nodes.Keys == {"a"};
    i := ObservedCovers(ONE_NODE, c, "a");
    OneState(ONE_NODE, c, i);
    HaltedExactlyWhen(ONE_NODE, c);
    NothingRuns(ONE_NODE, c);
    FlashedExactlyWhen(ONE_NODE, c, i);
  }

  /** A plain node is flashed, and only the patch of its state label is rejected: its label does not say what the status
      says, although every patch of the status pass would land. */
  lemma LabelBehindStatus()
    ensures var api := QuietApi(["a"]).(patch := (n, k) => if k == FlashLabel then Rejected else Applied);
            var c := Context(Policy(1, false), api);
            var r := Reconcile(ONE_NODE, c);
            && MirrorsLand("a", c) && "a" in r.w.nodes
            && exists out <- r.states :: out.name == "a" && !Shows(r.w.nodes["a"], out.state, c)
  {
    hide Reconcile, Shows, ObserveAll, Listing, Lists;
    var api := QuietApi(["a"]).(patch := (n, k) => if k == FlashLabel then Rejected else Applied);
    var c := Context(Policy(1, false), api);
    var i := FlashedAlone(c);
    var out := LabelsFollowExactlyWhen(ONE_NODE, c, i);
  }

  // ---- A failed status write --------------------------------------------------------

  /** The first reconcile of a policy whose status write fails: its gauges count a node its status does not list. */
  lemma GaugesAheadOfStatus(f: G.Families)
    ensures var w, c := Cluster(map["a" := PLAIN_NODE]),
              Context(Policy(1, true), QuietApi(["a"]).(statusWritten := false));
            var r := Reconcile(w, c);
            var g := G.Recorded(f, c.cr, r.states, c.spec.version);
            exists st: NodeState ::
                  (c.cr, st) in g.nodes && g.nodes[(c.cr, st)] > 0 && G.CountIn(Published(r.w, c.cr), st) == 0
  {
    hide Reconcile, G.CountIn;
    var w, c := Cluster(map["a" := PLAIN_NODE]), Context(Policy(1, true), QuietApi(["a"]).(statusWritten := false));
    var r := Reconcile(w, c);
    ListsOne();
    assert w.nodes.Keys == {"a"};
    PublishesMatchedNodes(w, c);
    assert exists ns <- r.states :: ns.name == "a";
    G.CountsAddUp(r.states);
    SummaryAddsUp(r.states);
    G.RecordingShows(f, c.cr, r.states, c.spec.version);
    ReconcileStatus(w, c, c.cr);
    CompletedWhen(w, c);
    forall st
      ensures G.CountIn([], st) == 0
    {
      G.CountInStep([], st);
    }
    var st :| G.CountIn(r.states, st) > 0;
    assert (c.cr, st) in G.Recorded(f, c.cr, r.states, c.spec.version).nodes;
  }
}
