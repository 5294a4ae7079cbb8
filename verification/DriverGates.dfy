/** Cordons and deploy gates over one driver upgrade: what the preparation writes, what the uncordon pass takes away
    again, and what stays behind when a patch fails or its answer is lost. */
module DriverGates {
  import opened Kube
  import opened Drain
  import opened Selector
  import opened Scheduling
  import opened Driver
  import opened DriverDrain

  predicate TakesPart(n: DriverNode, spec: DriverSpec) {
    MayRun(spec.selector, spec.requirePresent, n.labels)
  }

  lemma MatchedMeans(n: DriverNode, spec: DriverSpec)
    ensures MatchedBy(n, spec) <==> TakesPart(n, spec)
  {
    hide MayRun, DriverMatches;
    MatchesMeans(spec.selector, spec.requirePresent, n.labels);
  }

  // ---- Before the roll --------------------------------------------------------------

  /** The driver's cordon is there already. */
  predicate Held(n: DriverNode, cr: string) { n.unschedulable && n.mark.owner == cr }

  /** `b` has the labels of `a`, except that every gate reads "false". */
  ghost predicate GatesClosed(a: Labels, b: Labels, gates: seq<LabelKey>) {
    && (forall i | 0 <= i < |gates| :: gates[i] in b && b[gates[i]] == "false")
    && (forall k | k !in gates :: k in a <==> k in b)
    && (forall k <- a :: k !in gates ==> b[k] == a[k])
  }

  lemma {:induction false} GatesOffMeans(labels: Labels, gates: seq<LabelKey>)
    ensures GatesClosed(labels, GatesOff(labels, gates), gates)
  {
    if gates != [] {
      var shorter, last := gates[..|gates| - 1], gates[|gates| - 1];
      GatesOffMeans(labels, shorter);
      assert forall k :: k in gates <==> k in shorter || k == last;
      forall i | 0 <= i < |gates|
        ensures gates[i] in GatesOff(labels, gates) && GatesOff(labels, gates)[gates[i]] == "false"
      {
        assert i < |shorter| ==> gates[i] == shorter[i];
      }
    }
  }

  lemma FlipMeans(n: DriverNode, answer: PatchAnswer, gates: seq<LabelKey>)
    ensures var t := FlipGates(n, answer, gates);
            && t == n.(labels := t.labels)
            && (!answer.Rejected? ==> GatesClosed(n.labels, t.labels, gates))
            && (answer.Rejected? ==> t.labels == n.labels)
  {
    hide GatesOff;
    GatesOffMeans(n.labels, gates);
    assert forall k <- gates :: exists i | 0 <= i < |gates| :: gates[i] == k;
  }

  /** What the preparation makes of one node it comes by. A node it does not match, or whose new cordon is rejected, it
      leaves alone. Any other carries the driver's cordon, with the timestamp it had; and if that is certain, and the
      gate patch is not rejected, all its gates are closed. */
  ghost predicate ReadiedAs(n: DriverNode, t: DriverNode, name: string, spec: DriverSpec, now: int, api: DrainApi) {
    var cordoned := TakesPart(n, spec) && (Held(n, spec.cr) || !api.cordon(name).Rejected?);
    var certain := TakesPart(n, spec) && (Held(n, spec.cr) || api.cordon(name).Applied?);
    && (!cordoned ==> t == n)
    && (cordoned ==> t.unschedulable && t.mark.owner == spec.cr)
    && (cordoned ==> t.mark.at == if n.mark.at.NoStamp? && !Held(n, spec.cr) then At(now) else n.mark.at)
    && (certain && !api.gates(name).Rejected? ==> GatesClosed(n.labels, t.labels, spec.gates))
    && (!certain || api.gates(name).Rejected? ==> t.labels == n.labels)
  }

  lemma ReadiedMeans(n: DriverNode, name: string, spec: DriverSpec, now: int, api: DrainApi)
    ensures ReadiedAs(n, Readied(n, name, spec, now, api), name, spec, now, api)
  {
    hide FlipGates, GatesClosed, TakesPart, MatchedBy;
    MatchedMeans(n, spec);
    FlipMeans(n, api.gates(name), spec.gates);
    var (marked, ok) := CordonAttempt(n, api.cordon(name), spec.cr, now);
    FlipMeans(marked, api.gates(name), spec.gates);
  }

  /** The whole preparation: each node as above, or untouched when it stops early. */
  lemma PreparationMeans(u: Upgrade, order: seq<string>, spec: DriverSpec, operatorNs: string, now: int, api: DrainApi,
        name: string)
    requires Walks(order, u.nodes.Keys) && name in u.nodes
    ensures var ready := PrepareUpgrade(u, order, spec, operatorNs, now, api).nodes;
            && name in ready
            && (if api.nodesListed && WellFormed(spec.selector) && !spec.podSelector.Unparsable?
                then ReadiedAs(u.nodes[name], ready[name], name, spec, now, api) else ready == u.nodes)
  {
    hide Readied, PrepareAll, WellFormed, ReadiedAs;
    PreparesOnce(u, order, spec, operatorNs, now, api, name);
    ReadiedMeans(u.nodes[name], name, spec, now, api);
  }

  /** One cordon attempt, as far as it can be told from outside: is it certain that the driver's cordon stands? */
  ghost predicate Marked(n: DriverNode, t: DriverNode, ok: bool, answer: PatchAnswer, cr: string, now: int) {
    && t.labels == n.labels && (ok <==> Held(n, cr) || answer.Applied?)
    && (!Held(n, cr) && answer.Rejected? ==> t == n)
    && (Held(n, cr) || !answer.Rejected? ==> t.unschedulable && t.mark.owner == cr)
    && (Held(n, cr) || !answer.Rejected? ==>
          t.mark.at == if n.mark.at.NoStamp? && !Held(n, cr) then At(now) else n.mark.at)
  }

  // ---- After the roll ---------------------------------------------------------------

  /** The uncordon is due and its patch gets through. */
  predicate GetsUncordon(n: DriverNode, name: string, pods: seq<BuilderPod>, spec: DriverSpec, api: DriverApi) {
    && TakesPart(n, spec) && n.mark.owner == spec.cr && ReadyAtTarget(pods, name, spec.version)
    && !api.uncordon(name).Rejected?
  }

  /** `b` has the labels of `a`, except for the gates, which are gone. */
  ghost predicate GatesGone(a: Labels, b: Labels, gates: seq<LabelKey>) {
    && (forall i | 0 <= i < |gates| :: gates[i] !in b)
    && (forall k | k !in gates :: k in a <==> k in b)
    && (forall k <- a :: k !in gates ==> b[k] == a[k])
  }

  lemma WithoutMeans(n: DriverNode, gates: seq<LabelKey>)
    ensures GatesGone(n.labels, WithoutGates(n, gates).labels, gates)
    ensures var t := WithoutGates(n, gates); t.unschedulable == n.unschedulable && t.mark == n.mark
  {
    assert forall i | 0 <= i < |gates| :: gates[i] in gates;
  }

  /** What the pass makes of one node. The cordon goes, mark and all, exactly when the uncordon is due and gets
      through; the gates go with it exactly when that patch is known to be applied and theirs is not rejected. */
  ghost predicate Released(n: DriverNode, t: DriverNode, name: string, pods: seq<BuilderPod>, spec: DriverSpec,
        api: DriverApi) {
    var due := GetsUncordon(n, name, pods, spec, api);
    var opens := due && api.uncordon(name).Applied? && !api.clearGates(name).Rejected?;
    && (!due ==> t == n)
    && (due ==> !t.unschedulable && t.mark.owner == "" && t.mark.at == NoStamp)
    && (opens ==> GatesGone(n.labels, t.labels, spec.gates))
    && (!opens ==> t.labels == n.labels)
  }

  lemma LiftMeans(n: DriverNode, name: string, pods: seq<BuilderPod>, spec: DriverSpec, api: DriverApi)
    ensures Released(n, UncordonReady(n, name, pods, spec, api), name, pods, spec, api)
  {
    hide WithoutGates, ReadyAtTarget, GatesGone, TakesPart, MatchedBy;
    MatchedMeans(n, spec);
    WithoutMeans(Uncordon(n), spec.gates);
  }

  /** The whole pass: each node as above. */
  lemma PassMeans(nodes: map<string, DriverNode>, pods: seq<BuilderPod>, spec: DriverSpec, api: DriverApi, name: string)
    requires name in nodes
    ensures var after := AfterUncordon(nodes, pods, spec, api);
            name in after && Released(nodes[name], after[name], name, pods, spec, api)
  {
    hide UncordonReady, Released;
    LiftMeans(nodes[name], name, pods, spec, api);
  }

  // ---- There and back ---------------------------------------------------------------

  /** Closing the gates, or leaving them, changes nothing about who takes part. */
  lemma StillTakesPart(a: Labels, b: Labels, spec: DriverSpec)
    requires KeySet(spec.gates) !! {Present, DriverSkip} && Ignores(spec.selector, KeySet(spec.gates))
    requires GatesClosed(a, b, spec.gates)
    ensures MayRun(spec.selector, spec.requirePresent, a) == MayRun(spec.selector, spec.requirePresent, b)
  {
    hide Selects, Ignores;
    assert Present in {Present, DriverSkip} && DriverSkip in {Present, DriverSkip};
    SelectsIgnoring(spec.selector, KeySet(spec.gates), a, b);
  }

  /** One upgrade of a matched node, from the preparation to the pass after its builder is Ready at the target. With
      cordon and uncordon applied and the removal of the gates not rejected, the node is schedulable, carries no mark
      and no gate, and every other label is as it was before the upgrade. If that removal is rejected, or the answer
      to the uncordon lost, the gates stay: closed, when the preparation could close them. */
  lemma ThereAndBack(u: Upgrade, order: seq<string>, spec: DriverSpec, operatorNs: string, now: int, api: DrainApi,
        name: string, pods: seq<BuilderPod>, later: DriverApi)
    requires Walks(order, u.nodes.Keys) && name in u.nodes && !StopsEarly(spec, api) && spec.drainEnable != Some(false)
    requires KeySet(spec.gates) !! {Present, DriverSkip} && Ignores(spec.selector, KeySet(spec.gates))
    requires TakesPart(u.nodes[name], spec) && ReadyAtTarget(pods, name, spec.version)
    requires Held(u.nodes[name], spec.cr) || api.cordon(name).Applied?
    ensures var before := u.nodes[name];
            var ready := PrepareUpgrade(u, order, spec, operatorNs, now, api).nodes;
            var after := Tail(ready, pods, spec, true, later);
            && name in ready && name in after
            && (later.uncordon(name).Applied? && !later.clearGates(name).Rejected? ==>
                  && !after[name].unschedulable && after[name].mark == CordonMark("", NoStamp)
                  && GatesGone(before.labels, after[name].labels, spec.gates))
            && (!later.uncordon(name).Applied? || later.clearGates(name).Rejected? ==>
                  && after[name].unschedulable == later.uncordon(name).Rejected?
                  && (!api.gates(name).Rejected? ==> GatesClosed(before.labels, after[name].labels, spec.gates))
                  && (api.gates(name).Rejected? ==> after[name].labels == before.labels))
  {
    hide UncordonReady, ReadyAtTarget, MayRun, PrepareUpgrade, WellFormed, Held, Ignores, GatesClosed, GatesGone;
    var before, ready := u.nodes[name], PrepareUpgrade(u, order, spec, operatorNs, now, api).nodes;
    PreparationMeans(u, order, spec, operatorNs, now, api, name);
    PassMeans(ready, pods, spec, later, name);
    if !api.gates(name).Rejected? {
      StillTakesPart(before.labels, ready[name].labels, spec);
      GoneAgain(before.labels, ready[name].labels, Tail(ready, pods, spec, true, later)[name].labels, spec.gates);
    }
  }

  lemma GoneAgain(a: Labels, b: Labels, d: Labels, gates: seq<LabelKey>)
    requires GatesClosed(a, b, gates)
    ensures GatesGone(b, d, gates) ==> GatesGone(a, d, gates)
  {
  }

  // ---- Which pods go ----------------------------------------------------------------

  /** The second pass is on unless switched off; it spares pods an unset or matching selector does not pick, and those
      with an emptyDir when that must not be deleted. */
  predicate SecondPassWants(p: Pod, spec: DriverSpec) {
    && (spec.drainFullNode.None? || spec.drainFullNode.value)
    && (spec.podSelector.Parsed? ==> Selects(spec.podSelector.selector, p.labels))
    && (spec.drainDeleteEmptyDir.None? || spec.drainDeleteEmptyDir.value || forall v <- p.volumes :: v != EmptyDir)
  }

  /** The pod is tried by a pass whose listing of its node is answered, and let go in it. */
  predicate LetGo(p: Pod, spec: DriverSpec, api: DrainApi) {
    || (OnDevice(p) && api.listed(p.node, 1) && api.evict(p.id, 1) == Evicted)
    || (SecondPassWants(p, spec) && api.listed(p.node, 2) && api.evict(p.id, 2) == Evicted)
  }

  lemma TakenMeans(p: Pod, spec: DriverSpec, operatorNs: string, api: DrainApi)
    ensures TakenFrom(p, p.node, spec, operatorNs, api) <==>
              Movable(p, p.node, operatorNs, spec.drainForce) && LetGo(p, spec, api)
  {
    hide Evictable, Movable, PodUsesTenstorrentDevice, OnDevice, Selects;
    EvictableMeans(p, p.node, operatorNs, spec.drainForce);
    DeviceMeans(p);
  }

  lemma GoesMeans(n: DriverNode, name: string, spec: DriverSpec, api: DrainApi)
    ensures Goes(n, name, spec, api) <==> TakesPart(n, spec) && (Held(n, spec.cr) || api.cordon(name).Applied?)
  {
    hide TakesPart, MatchedBy;
    MatchedMeans(n, spec);
  }

  /** Whatever the API server answers, the preparation evicts a pod exactly when its node takes part and carries the
      driver's cordon for certain, the pod may be moved, and one of the passes over its node lists and gets it. */
  lemma PodGoesExactlyWhen(u: Upgrade, order: seq<string>, spec: DriverSpec, operatorNs: string, now: int,
        api: DrainApi, p: Pod)
    requires Walks(order, u.nodes.Keys) && OnePerId(u.drainage.pods) && u.drainage.evicted == {}
    requires api.nodesListed && WellFormed(spec.selector) && !spec.podSelector.Unparsable? && p in u.drainage.pods
    ensures p.id in PrepareUpgrade(u, order, spec, operatorNs, now, api).drainage.evicted <==>
              && p.node in u.nodes && TakesPart(u.nodes[p.node], spec)
              && (Held(u.nodes[p.node], spec.cr) || api.cordon(p.node).Applied?)
              && Movable(p, p.node, operatorNs, spec.drainForce) && LetGo(p, spec, api)
  {
    hide Goes, TakenFrom, PrepareAll, WellFormed, Movable, LetGo, TakesPart;
    PreparationDrains(u, order, spec, operatorNs, now, api);
    TakenMeans(p, spec, operatorNs, api);
    if p.node in u.nodes {
      GoesMeans(u.nodes[p.node], p.node, spec, api);
    }
  }
}
