/** The two-pass drain before a driver upgrade, and exactly which pods it removes. */
module DriverDrain {
  import opened Kube
  import opened Drain
  import opened Selector
  import opened Driver

  predicate FullNodeDrain(spec: DriverSpec) { spec.drainFullNode != Some(false) }

  predicate DeletesEmptyDir(spec: DriverSpec) { spec.drainDeleteEmptyDir != Some(false) }

  /** The second pass: any pod the selector picks, unless its emptyDir must be spared. */
  predicate FullNodeAccepts(p: Pod, spec: DriverSpec) {
    && (spec.podSelector.Parsed? ==> Selects(spec.podSelector.selector, p.labels))
    && (DeletesEmptyDir(spec) || !PodHasEmptyDir(p))
  }

  /** The API server during a drain; an accepted pod may go at once or linger in the listing. */
  datatype DrainApi = DrainApi(
    nodesListed: bool,
    cordon: string -> PatchAnswer,
    gates: string -> PatchAnswer,
    listed: (string, nat) -> bool,
    evict: (PodId, nat) -> EvictAnswer,
    lingers: PodId -> bool)

  datatype Drainage = Drainage(pods: seq<Pod>, evicted: set<PodId>)

  function Taken(list: seq<Pod>, pass: nat, api: DrainApi): set<PodId> {
    set p <- list | api.evict(p.id, pass).Evicted? :: p.id
  }

  function Vanished(taken: set<PodId>, api: DrainApi): set<PodId> {
    set id <- taken | !api.lingers(id)
  }

  /** One pass over one node: every listed target is tried, whatever happened to the ones before. */
  function EvictPass(s: Drainage, name: string, operatorNs: string, force: bool, filter: Pod -> bool, pass: nat,
          api: DrainApi): Drainage {
    if !api.listed(name, pass) then s
    else
      var taken := Taken(Targets(s.pods, name, operatorNs, force, filter), pass, api);
      Drainage(Remaining(s.pods, Vanished(taken, api)), s.evicted + taken)
  }

  function DrainOne(s: Drainage, name: string, spec: DriverSpec, operatorNs: string, api: DrainApi): Drainage {
    var first := EvictPass(s, name, operatorNs, spec.drainForce, PodUsesTenstorrentDevice, 1, api);
    if FullNodeDrain(spec)
    then EvictPass(first, name, operatorNs, spec.drainForce, p => FullNodeAccepts(p, spec), 2, api)
    else first
  }

  // ---- Cordon and gates -------------------------------------------------------------

  function MarkedFor(n: DriverNode, cr: string, now: int): DriverNode {
    var d := Cordon(n.unschedulable, n.mark, cr, now);
    n.(unschedulable := d.unschedulable, mark := d.mark)
  }

  /** Cordoning without a look at who cordoned the node before. */
  function CordonAttempt(n: DriverNode, answer: PatchAnswer, cr: string, now: int): (DriverNode, bool) {
    if CordonHeld(n.unschedulable, n.mark, cr) then (n, true)
    else if answer.Rejected? then (n, false)
    else (MarkedFor(n, cr, now), answer.Applied?)
  }

  function GatesOff(labels: Labels, gates: seq<LabelKey>): Labels {
    if gates == [] then labels else GatesOff(labels, gates[..|gates| - 1])[gates[|gates| - 1] := "false"]
  }

  predicate GatesAreOff(labels: Labels, gates: seq<LabelKey>) {
    forall i | 0 <= i < |gates| :: Get(labels, gates[i]) == "false"
  }

  function FlipGates(n: DriverNode, answer: PatchAnswer, gates: seq<LabelKey>): DriverNode {
    if GatesAreOff(n.labels, gates) || answer.Rejected? then n else n.(labels := GatesOff(n.labels, gates))
  }

  /** A node the drain goes on to: its cordon stands. */
  predicate Goes(n: DriverNode, name: string, spec: DriverSpec, api: DrainApi) {
    MatchedBy(n, spec) && (CordonHeld(n.unschedulable, n.mark, spec.cr) || api.cordon(name).Applied?)
  }

  datatype Upgrade = Upgrade(nodes: map<string, DriverNode>, drainage: Drainage)

  /** One node of the preparation: a failed cordon skips it, failed gates do not. */
  function PrepareOne(u: Upgrade, name: string, spec: DriverSpec, operatorNs: string, now: int, api: DrainApi): Upgrade
    requires name in u.nodes
  {
    var n := u.nodes[name];
    if !MatchedBy(n, spec) then u
    else
      var (cordoned, ok) := CordonAttempt(n, api.cordon(name), spec.cr, now);
      if !ok then u.(nodes := u.nodes[name := cordoned])
      else Upgrade(u.nodes[name := FlipGates(cordoned, api.gates(name), spec.gates)],
                   DrainOne(u.drainage, name, spec, operatorNs, api))
  }

  function PrepareAll(u: Upgrade, order: seq<string>, spec: DriverSpec, operatorNs: string, now: int,
          api: DrainApi): (v: Upgrade)
    requires forall n <- order :: n in u.nodes
    ensures v.nodes.Keys == u.nodes.Keys
  {
    if order == [] then u
    else PrepareOne(PrepareAll(u, order[..|order| - 1], spec, operatorNs, now, api), order[|order| - 1], spec,
          operatorNs, now, api)
  }

  /** An unreadable pod selector or node listing stops the preparation before it touches anything. */
  function PrepareUpgrade(u: Upgrade, order: seq<string>, spec: DriverSpec, operatorNs: string, now: int,
          api: DrainApi): Upgrade
    requires forall n <- order :: n in u.nodes
  {
    if !api.nodesListed || !WellFormed(spec.selector) || spec.podSelector.Unparsable? then u
    else PrepareAll(u, order, spec, operatorNs, now, api)
  }

  // ---- Exactly which pods go --------------------------------------------------------

  /** Active, not a DaemonSet's, not the operator's, not bare unless forced; and either it uses the device
      or the full-node pass is on and accepts it. */
  predicate DrainTarget(p: Pod, name: string, spec: DriverSpec, operatorNs: string) {
    && Evictable(p, name, operatorNs, spec.drainForce)
    && (PodUsesTenstorrentDevice(p) || (FullNodeDrain(spec) && FullNodeAccepts(p, spec)))
  }

  /** The API server's own answers decide about this pod, pass by pass, and no other pod's answer does. */
  predicate TakenFrom(p: Pod, name: string, spec: DriverSpec, operatorNs: string, api: DrainApi) {
    && Evictable(p, name, operatorNs, spec.drainForce)
    && (|| (PodUsesTenstorrentDevice(p) && api.listed(name, 1) && api.evict(p.id, 1).Evicted?)
        || (FullNodeDrain(spec) && FullNodeAccepts(p, spec) && api.listed(name, 2) && api.evict(p.id, 2).Evicted?))
  }

  ghost predicate OnePerId(pods: seq<Pod>) {
    forall p, q | p in pods && q in pods && p.id == q.id :: p == q
  }

  /** Every listing is answered and every eviction accepted. */
  ghost predicate Accepting(api: DrainApi) {
    (forall n, k :: api.listed(n, k)) && (forall id, k :: api.evict(id, k).Evicted?)
  }

  lemma AcceptedTargets(p: Pod, name: string, spec: DriverSpec, operatorNs: string, api: DrainApi)
    requires Accepting(api)
    ensures TakenFrom(p, name, spec, operatorNs, api) == DrainTarget(p, name, spec, operatorNs)
  {
  }

  predicate PassTarget(p: Pod, name: string, operatorNs: string, force: bool, filter: Pod -> bool, pass: nat,
          api: DrainApi) {
    Evictable(p, name, operatorNs, force) && filter(p) && api.listed(name, pass) && api.evict(p.id, pass).Evicted?
  }

  /** A pass evicts exactly its own targets; a blocked or failed eviction changes nothing for the others. */
  lemma PassTakes(s: Drainage, name: string, operatorNs: string, force: bool, filter: Pod -> bool, pass: nat,
          api: DrainApi)
    ensures var t := EvictPass(s, name, operatorNs, force, filter, pass, api);
            && (forall id :: id in t.evicted <==>
                  (id in s.evicted || exists p <- s.pods ::
                        p.id == id && PassTarget(p, name, operatorNs, force, filter, pass, api)))
            && (forall p <- t.pods :: p in s.pods)
            && (forall p <- s.pods :: p in t.pods ||
                  exists q <- s.pods :: q.id == p.id && PassTarget(q, name, operatorNs, force, filter, pass, api))
  {
    hide Evictable;
    if api.listed(name, pass) {
      var list := Targets(s.pods, name, operatorNs, force, filter);
      forall id
        ensures id in Taken(list, pass, api) <==>
                exists p <- s.pods :: p.id == id && PassTarget(p, name, operatorNs, force, filter, pass, api)
      {
        if p :| p in s.pods && p.id == id && PassTarget(p, name, operatorNs, force, filter, pass, api) {
          assert p in list;
        }
      }
    }
  }

  /** Two passes over one node take exactly the pods some pass targets and the API server lets go. */
  lemma NodeDrained(s: Drainage, name: string, spec: DriverSpec, operatorNs: string, api: DrainApi)
    ensures var t := DrainOne(s, name, spec, operatorNs, api);
            && (forall id :: id in t.evicted <==>
                  (id in s.evicted || exists p <- s.pods :: p.id == id && TakenFrom(p, name, spec, operatorNs, api)))
            && (forall p <- t.pods :: p in s.pods)
            && (forall p <- s.pods :: p in t.pods || exists q <- s.pods ::
                  q.id == p.id && TakenFrom(q, name, spec, operatorNs, api))
  {
    hide Evictable, EvictPass, FullNodeAccepts, PodUsesTenstorrentDevice;
    var full := (p: Pod) => FullNodeAccepts(p, spec);
    var first := EvictPass(s, name, operatorNs, spec.drainForce, PodUsesTenstorrentDevice, 1, api);
    PassTakes(s, name, operatorNs, spec.drainForce, PodUsesTenstorrentDevice, 1, api);
    if FullNodeDrain(spec) {
      PassTakes(first, name, operatorNs, spec.drainForce, p => FullNodeAccepts(p, spec), 2, api);
      forall p <- s.pods | PassTarget(p, name, operatorNs, spec.drainForce, full, 2, api) && p !in first.pods
        ensures p.id in first.evicted
      {
      }
    }
  }

  /** Taken during the preparation of one of the listed nodes, whose cordon stood. */
  predicate TakenOnTheWay(p: Pod, nodes: map<string, DriverNode>, order: seq<string>, spec: DriverSpec,
          operatorNs: string, api: DrainApi) {
    p.node in order && p.node in nodes && Goes(nodes[p.node], p.node, spec, api)
          && TakenFrom(p, p.node, spec, operatorNs, api)
  }

  /** What the preparation did to the pods: evicted exactly those taken on the way, removed no others. */
  ghost predicate Prepared(u: Upgrade, v: Upgrade, order: seq<string>, spec: DriverSpec, operatorNs: string,
          api: DrainApi) {
    && (forall id :: id in v.drainage.evicted <==>
          (id in u.drainage.evicted || exists p <- u.drainage.pods ::
                p.id == id && TakenOnTheWay(p, u.nodes, order, spec, operatorNs, api)))
    && (forall p <- v.drainage.pods :: p in u.drainage.pods)
    && (forall p <- u.drainage.pods :: p in v.drainage.pods || TakenOnTheWay(p, u.nodes, order, spec, operatorNs, api))
  }

  lemma StepPrepares(u: Upgrade, v: Upgrade, order: seq<string>, name: string, spec: DriverSpec, operatorNs: string,
          now: int, api: DrainApi)
    requires Prepared(u, v, order, spec, operatorNs, api) && OnePerId(u.drainage.pods)
    requires name !in order && name in u.nodes && name in v.nodes && v.nodes[name] == u.nodes[name]
    ensures Prepared(u, PrepareOne(v, name, spec, operatorNs, now, api), order + [name], spec, operatorNs, api)
  {
    hide TakenFrom, DrainOne, Goes;
    NodeDrained(v.drainage, name, spec, operatorNs, api);
    GoesOn(v, name, spec, operatorNs, now, api);
    forall p
      ensures TakenFrom(p, name, spec, operatorNs, api) ==> p.node == name
      ensures TakenOnTheWay(p, u.nodes, order + [name], spec, operatorNs, api) <==>
              (TakenOnTheWay(p, u.nodes, order, spec, operatorNs, api)
               || (p.node == name && Goes(u.nodes[name], name, spec, api) && TakenFrom(p, name, spec, operatorNs, api)))
    {
      TakenThere(p, name, spec, operatorNs, api);
    }
  }

  lemma TakenThere(p: Pod, name: string, spec: DriverSpec, operatorNs: string, api: DrainApi)
    ensures TakenFrom(p, name, spec, operatorNs, api) ==> p.node == name
  {
  }

  lemma GoesOn(u: Upgrade, name: string, spec: DriverSpec, operatorNs: string, now: int, api: DrainApi)
    requires name in u.nodes
    ensures PrepareOne(u, name, spec, operatorNs, now, api).drainage ==
            if Goes(u.nodes[name], name, spec, api) then DrainOne(u.drainage, name, spec, operatorNs, api)
                  else u.drainage
    ensures forall n <- u.nodes :: n != name ==> PrepareOne(u, name, spec, operatorNs, now, api).nodes[n] == u.nodes[n]
  {
    hide DrainOne, MatchedBy, GatesAreOff;
  }

  /** The whole preparation: over all matched nodes whose cordon stands, the pods evicted are exactly the active,
      non-DaemonSet, non-operator, non-bare-unless-forced ones that a pass targets and the API server lets go. */
  lemma {:induction false} PreparationDrains(u: Upgrade, order: seq<string>, spec: DriverSpec, operatorNs: string,
          now: int, api: DrainApi)
    requires Distinct(order) && (forall n <- order :: n in u.nodes) && OnePerId(u.drainage.pods)
    ensures Prepared(u, PrepareAll(u, order, spec, operatorNs, now, api), order, spec, operatorNs, api)
    ensures forall n <- u.nodes :: n !in order ==>
              PrepareAll(u, order, spec, operatorNs, now, api).nodes[n] == u.nodes[n]
  {
    hide PrepareOne, Prepared, OnePerId;
    if order == [] {
      NothingPrepared(u, spec, operatorNs, api);
    } else {
      var shorter, name := order[..|order| - 1], order[|order| - 1];
      PreparationDrains(u, shorter, spec, operatorNs, now, api);
      var v := PrepareAll(u, shorter, spec, operatorNs, now, api);
      StepPrepares(u, v, shorter, name, spec, operatorNs, now, api);
      GoesOn(v, name, spec, operatorNs, now, api);
      assert shorter + [name] == order;
    }
  }

  lemma NothingPrepared(u: Upgrade, spec: DriverSpec, operatorNs: string, api: DrainApi)
    ensures Prepared(u, u, [], spec, operatorNs, api)
  {
  }

  /** With every eviction accepted: exactly the drain targets of the nodes whose cordon stands are evicted. */
  lemma AcceptedPreparation(u: Upgrade, order: seq<string>, spec: DriverSpec, operatorNs: string, now: int,
          api: DrainApi, p: Pod)
    requires Walks(order, u.nodes.Keys) && OnePerId(u.drainage.pods) && Accepting(api) && u.drainage.evicted == {}
    requires api.nodesListed && WellFormed(spec.selector) && !spec.podSelector.Unparsable? && p in u.drainage.pods
    ensures p.id in PrepareUpgrade(u, order, spec, operatorNs, now, api).drainage.evicted <==>
            p.node in u.nodes && Goes(u.nodes[p.node], p.node, spec, api) && DrainTarget(p, p.node, spec, operatorNs)
  {
    hide Goes, DrainTarget, TakenFrom, PrepareAll;
    PreparationDrains(u, order, spec, operatorNs, now, api);
    forall q: Pod
      ensures TakenFrom(q, q.node, spec, operatorNs, api) == DrainTarget(q, q.node, spec, operatorNs)
    {
      AcceptedTargets(q, q.node, spec, operatorNs, api);
    }
  }

  // ---- Cordons of others ------------------------------------------------------------

  /** What the preparation leaves of one node. */
  function Readied(n: DriverNode, name: string, spec: DriverSpec, now: int, api: DrainApi): DriverNode {
    if !MatchedBy(n, spec) then n
    else
      var (cordoned, ok) := CordonAttempt(n, api.cordon(name), spec.cr, now);
      if ok then FlipGates(cordoned, api.gates(name), spec.gates) else cordoned
  }

  /** The preparation comes by each listed node once. */
  lemma {:induction false} PreparesOnce(u: Upgrade, order: seq<string>, spec: DriverSpec, operatorNs: string, now: int,
        api: DrainApi, name: string)
    requires Distinct(order) && (forall n <- order :: n in u.nodes) && name in u.nodes
    ensures PrepareAll(u, order, spec, operatorNs, now, api).nodes[name] ==
            if name in order then Readied(u.nodes[name], name, spec, now, api) else u.nodes[name]
  {
    hide DrainOne, MatchedBy, CordonAttempt, FlipGates;
    if order != [] {
      PreparesOnce(u, order[..|order| - 1], spec, operatorNs, now, api, name);
      assert name in order <==> name in order[..|order| - 1] || name == order[|order| - 1];
    }
  }

  predicate StopsEarly(spec: DriverSpec, api: DrainApi) {
    !api.nodesListed || !WellFormed(spec.selector) || spec.podSelector.Unparsable?
  }

  /** A cordon somebody else placed keeps its mark exactly when the node is not matched, the preparation stops
      before its first node, or the cordon patch is rejected; otherwise the driver makes it its own. */
  lemma ForeignCordonKeptExactlyWhen(u: Upgrade, order: seq<string>, spec: DriverSpec, operatorNs: string, now: int,
        api: DrainApi, name: string)
    requires Walks(order, u.nodes.Keys) && name in u.nodes
    requires u.nodes[name].unschedulable && u.nodes[name].mark.owner != spec.cr
    ensures var after := PrepareUpgrade(u, order, spec, operatorNs, now, api).nodes;
            && name in after
            && (after[name].mark == u.nodes[name].mark <==>
                (!MatchedBy(u.nodes[name], spec) || StopsEarly(spec, api) || api.cordon(name).Rejected?))
            && (after[name].mark != u.nodes[name].mark ==> after[name].mark.owner == spec.cr)
  {
    hide MatchedBy, GatesAreOff, PrepareAll, WellFormed;
    PreparesOnce(u, order, spec, operatorNs, now, api, name);
  }

  /** Such a node becomes schedulable again at the hands of the driver exactly when the preparation took its cordon
      over and, once the builder is Ready at the target, the uncordon patch is not rejected. */
  lemma ForeignCordonLiftedExactlyWhen(u: Upgrade, order: seq<string>, spec: DriverSpec, operatorNs: string, now: int,
        api: DrainApi, name: string, pods: seq<BuilderPod>, dsExists: bool, later: DriverApi)
    requires Walks(order, u.nodes.Keys) && name in u.nodes && spec.cr != ""
    requires u.nodes[name].unschedulable && u.nodes[name].mark.owner != spec.cr
    ensures var ready := PrepareUpgrade(u, order, spec, operatorNs, now, api).nodes;
            var after := Tail(ready, pods, spec, dsExists, later);
            && name in after
            && (!after[name].unschedulable <==>
                (&& MatchedBy(u.nodes[name], spec) && !StopsEarly(spec, api) && !api.cordon(name).Rejected?
                 && MatchedBy(Readied(u.nodes[name], name, spec, now, api), spec)
                 && DrainEnabled(spec) && dsExists && ReadyAtTarget(pods, name, spec.version)
                       && !later.uncordon(name).Rejected?))
  {
    hide MatchedBy, GatesAreOff, PrepareAll, WellFormed, ReadyAtTarget;
    PreparesOnce(u, order, spec, operatorNs, now, api, name);
  }

  /** An instance: an administrator's cordon on a matched node is gone after one upgrade. */
  lemma ForeignCordonIsLost(api: DrainApi, later: DriverApi)
    requires api.nodesListed && api.cordon("a").Applied? && later.uncordon("a").Applied?
    ensures var spec := DriverSpec("p", "2", EVERYTHING, false, None, None, None, false, AnyPod, []);
            var u := Upgrade(map["a" := DriverNode(map[], true, CordonMark("", NoStamp))], Drainage([], {}));
            var ready := PrepareUpgrade(u, ["a"], spec, "operator", 0, api).nodes;
            var after := Tail(ready, [BuilderPod("a", "2", true, 0, "")], spec, true, later);
            "a" in after && u.nodes["a"].unschedulable && !after["a"].unschedulable
  {
    var spec := DriverSpec("p", "2", EVERYTHING, false, None, None, None, false, AnyPod, []);
    var u := Upgrade(map["a" := DriverNode(map[], true, CordonMark("", NoStamp))], Drainage([], {}));
    var pods := [BuilderPod("a", "2", true, 0, "")];
    assert ["a"][0] == "a" && u.nodes.Keys == {"a"};
    assert pods[0].node == "a" && pods[0].ready;
    ForeignCordonLiftedExactlyWhen(u, ["a"], spec, "operator", 0, api, "a", pods, true, later);
  }
}
