/** The driver reconciler as it runs: loops over listings, patches node by node, and carries on past
    every failed call. Its methods are proved against the functions of `Driver` and `DriverDrain`. */
module DriverController {
  import opened Kube
  import opened Drain
  import opened Selector
  import opened Driver
  import opened DriverDrain
  import opened DriverGates
  import opened DriverVerdict

  lemma TallyNone()
    ensures Tally([], Covered) == 0 && Tally([], Moving) == 0
  {
  }

  lemma TallyStep(out: seq<Published>, x: Published)
    ensures Tally(out + [x], Covered) == Tally(out, Covered) + if Covered(x.verdict.state) then 1 else 0
    ensures Tally(out + [x], Moving) == Tally(out, Moving) + if Moving(x.verdict.state) then 1 else 0
  {
    assert (out + [x])[..|out|] == out;
  }

  lemma {:induction false} RemainingTwice(pods: seq<Pod>, a: set<PodId>, b: set<PodId>)
    ensures Remaining(Remaining(pods, a), b) == Remaining(pods, a + b)
  {
    if pods != [] {
      var shorter, last := pods[..|pods| - 1], pods[|pods| - 1];
      RemainingTwice(shorter, a, b);
      if last.id !in a {
        var kept := Remaining(shorter, a);
        assert (kept + [last])[..|kept|] == kept;
      }
    }
  }

  lemma {:induction false} RemainingAll(pods: seq<Pod>)
    ensures Remaining(pods, {}) == pods
  {
    if pods != [] {
      RemainingAll(pods[..|pods| - 1]);
    }
  }

  lemma TakenStep(list: seq<Pod>, pass: nat, api: DrainApi)
    requires list != []
    ensures var p := list[|list| - 1];
            Taken(list, pass, api) == if api.evict(p.id, pass).Evicted?
                  then Taken(list[..|list| - 1], pass, api) + {p.id} else Taken(list[..|list| - 1], pass, api)
    ensures var p := list[|list| - 1];
            Vanished(Taken(list, pass, api), api) ==
            if api.evict(p.id, pass).Evicted? && !api.lingers(p.id)
            then Vanished(Taken(list[..|list| - 1], pass, api), api) + {p.id}
                  else Vanished(Taken(list[..|list| - 1], pass, api), api)
  {
    assert forall p <- list :: p in list[..|list| - 1] || p == list[|list| - 1];
  }

  lemma NothingTaken(pass: nat, api: DrainApi)
    ensures Taken([], pass, api) == {} && Vanished({}, api) == {}
  {
  }

  lemma {:induction false} GatesRead(labels: Labels, gates: seq<LabelKey>, key: LabelKey)
    ensures Get(GatesOff(labels, gates), key) == if key in gates then "false" else Get(labels, key)
  {
    if gates != [] {
      GatesRead(labels, gates[..|gates| - 1], key);
      assert key in gates <==> key in gates[..|gates| - 1] || key == gates[|gates| - 1];
    }
  }

  lemma NoGates(labels: Labels)
    ensures GatesOff(labels, []) == labels && GatesAreOff(labels, [])
  {
  }

  lemma AlreadyOff(labels: Labels, key: LabelKey)
    requires Get(labels, key) == "false"
    ensures labels[key := "false"] == labels
  {
  }

  lemma GatesOffStep(labels: Labels, gates: seq<LabelKey>)
    requires gates != []
    ensures GatesOff(labels, gates) == GatesOff(labels, gates[..|gates| - 1])[gates[|gates| - 1] := "false"]
  {
  }

  lemma GatesAreOffStep(labels: Labels, gates: seq<LabelKey>)
    requires gates != []
    ensures GatesAreOff(labels, gates) <==>
              GatesAreOff(labels, gates[..|gates| - 1]) && Get(labels, gates[|gates| - 1]) == "false"
    ensures gates[|gates| - 1] in gates[..|gates| - 1] && GatesAreOff(labels, gates[..|gates| - 1]) ==>
              Get(labels, gates[|gates| - 1]) == "false"
  {
    assert forall i | 0 <= i < |gates| - 1 :: gates[..|gates| - 1][i] == gates[i];
  }

  class DriverReconciler {
    var nodes: map<string, DriverNode>
    var pods: seq<Pod>
    var evicted: set<PodId>

    function U(): Upgrade
      reads this
    {
      Upgrade(nodes, Drainage(pods, evicted))
    }

    /** Tries every listed target; blocked and failed evictions are passed over. */
    method EvictMatching(name: string, operatorNs: string, force: bool, filter: Pod -> bool, pass: nat, api: DrainApi)
      modifies `pods, `evicted
      ensures U().drainage == EvictPass(old(U()).drainage, name, operatorNs, force, filter, pass, api)
    {
      hide Remaining, Targets, Taken, Vanished;
      if !api.listed(name, pass) { return; }
      var list := ListDevicePodsOnNode(pods, name, operatorNs, force, filter);
      ghost var before, gone := pods, evicted;
      NothingTaken(pass, api);
      RemainingAll(before);
      for j := 0 to |list|
        invariant evicted == gone + Taken(list[..j], pass, api)
        invariant pods == Remaining(before, Vanished(Taken(list[..j], pass, api), api))
      {
        assert list[..j + 1][..j] == list[..j];
        TakenStep(list[..j + 1], pass, api);
        var id := list[j].id;
        RemainingTwice(before, Vanished(Taken(list[..j], pass, api), api), {id});
        if api.evict(id, pass) != Evicted { continue; }
        evicted := evicted + {id};
        if !api.lingers(id) { pods := Remaining(pods, {id}); }
      }
      assert list[..|list|] == list;
    }

    method CordonNode(name: string, spec: DriverSpec, now: int, api: DrainApi) returns (ok: bool)
      requires name in nodes
      modifies `nodes
      ensures nodes.Keys == old(nodes).Keys && forall n <- nodes :: n != name ==> nodes[n] == old(nodes)[n]
      ensures Marked(old(nodes)[name], nodes[name], ok, api.cordon(name), spec.cr, now)
      ensures nodes == old(nodes)[name := CordonAttempt(old(nodes)[name], api.cordon(name), spec.cr, now).0]
      ensures ok == CordonAttempt(old(nodes)[name], api.cordon(name), spec.cr, now).1
    {
      var n := nodes[name];
      if CordonHeld(n.unschedulable, n.mark, spec.cr) {
        assert nodes == nodes[name := n];
        return true;
      }
      n := n.(unschedulable := true, mark := n.mark.(owner := spec.cr));
      if n.mark.at == NoStamp { n := n.(mark := n.mark.(at := At(now))); }
      if api.cordon(name).Rejected? {
        assert nodes == nodes[name := nodes[name]];
        return false;
      }
      nodes := nodes[name := n];
      return api.cordon(name).Applied?;
    }

    /** Sets every deploy gate to "false", with one patch when any was not. */
    method FlipDeployGatesOff(name: string, spec: DriverSpec, api: DrainApi)
      requires name in nodes
      modifies `nodes
      ensures name in nodes && nodes == old(nodes)[name := old(nodes)[name].(labels := nodes[name].labels)]
      ensures !api.gates(name).Rejected? ==> GatesClosed(old(nodes)[name].labels, nodes[name].labels, spec.gates)
      ensures api.gates(name).Rejected? ==> nodes[name].labels == old(nodes)[name].labels
      ensures nodes == old(nodes)[name := FlipGates(old(nodes)[name], api.gates(name), spec.gates)]
    {
      hide GatesOff, GatesAreOff, Get, GatesClosed;
      ghost var n := nodes[name];
      FlipMeans(n, api.gates(name), spec.gates);
      NoGates(n.labels);
      var labels, changed := nodes[name].labels, false;
      for i := 0 to |spec.gates|
        invariant nodes == old(nodes) && labels == GatesOff(n.labels, spec.gates[..i])
        invariant changed == !GatesAreOff(n.labels, spec.gates[..i])
      {
        assert spec.gates[..i + 1][..i] == spec.gates[..i];
        var key := spec.gates[i];
        GatesRead(n.labels, spec.gates[..i], key);
        GatesAreOffStep(n.labels, spec.gates[..i + 1]);
        if Get(labels, key) != "false" {
          labels := labels[key := "false"];
          changed := true;
        } else {
          AlreadyOff(labels, key);
        }
        GatesOffStep(n.labels, spec.gates[..i + 1]);
      }
      assert spec.gates[..|spec.gates|] == spec.gates;
      if !changed || api.gates(name).Rejected? {
        assert nodes == nodes[name := n];
        return;
      }
      nodes := nodes[name := nodes[name].(labels := labels)];
    }

    /** Cordons, closes the gates and drains each matched node in two passes; a node whose cordon fails is skipped. */
    method PrepareForUpgrade(order: seq<string>, spec: DriverSpec, operatorNs: string, now: int,
            api: DrainApi) returns (ok: bool)
      requires forall n <- order :: n in nodes
      modifies this
      ensures U() == PrepareUpgrade(old(U()), order, spec, operatorNs, now, api)
      ensures ok && Walks(order, old(nodes).Keys) ==>
                forall n <- old(nodes) :: n in nodes && ReadiedAs(old(nodes)[n], nodes[n], n, spec, now, api)
      ensures !ok ==> nodes == old(nodes) && pods == old(pods) && evicted == old(evicted)
      ensures ok == (api.nodesListed && WellFormed(spec.selector) && !spec.podSelector.Unparsable?)
    {
      hide MatchedBy, EvictPass, CordonAttempt, FlipGates, WellFormed, ReadiedAs;
      if !api.nodesListed || !WellFormed(spec.selector) { return false; }
      if spec.podSelector.Unparsable? { return false; }
      ghost var u := U();
      for i := 0 to |order|
        invariant nodes.Keys == u.nodes.Keys
        invariant U() == PrepareAll(u, order[..i], spec, operatorNs, now, api)
      {
        assert order[..i + 1][..i] == order[..i];
        assert order[i] in order;
        var name := order[i];
        ghost var v := U();
        if !MatchedBy(nodes[name], spec) { continue; }
        var cordoned := CordonNode(name, spec, now, api);
        if !cordoned { continue; }
        FlipDeployGatesOff(name, spec, api);
        assert nodes == v.nodes[name := nodes[name]];
        EvictMatching(name, operatorNs, spec.drainForce, PodUsesTenstorrentDevice, 1, api);
        if FullNodeDrain(spec) {
          EvictMatching(name, operatorNs, spec.drainForce, p => FullNodeAccepts(p, spec), 2, api);
        }
      }
      assert order[..|order|] == order;
      if Walks(order, u.nodes.Keys) {
        forall n <- u.nodes {
          PreparationMeans(u, order, spec, operatorNs, now, api, n);
        }
      }
      return true;
    }

    // ---- After the roll -------------------------------------------------------------

    /** Publishes one verdict per matched node and counts the covered and the moving ones. */
    method PopulateNodeStatuses(order: seq<string>, builders: seq<BuilderPod>, spec: DriverSpec)
      returns (out: seq<Published>, upToDate: nat, inProgress: nat)
      ensures forall n ::
                (exists e <- out :: e.name == n) <==> n in order && n in nodes && TakesPart(nodes[n], spec)
      ensures forall e <- out :: e.name in nodes && Truthful(e, nodes[e.name], builders, spec)
      ensures upToDate == |set k | 0 <= k < |out| && out[k].verdict.state in {Done, HostManaged}|
      ensures inProgress ==
                |set k | 0 <= k < |out| && out[k].verdict.state in {Cordoning, Draining, Upgrading, Uncordoning}|
      ensures out == Statuses(nodes, order, builders, spec)
    {
      hide MatchedBy, StateReason, InfoFor, Tally, Truthful, TakesPart;
      var byNode := IndexByNode(builders);
      TallyNone();
      out, upToDate, inProgress := [], 0, 0;
      for i := 0 to |order|
        invariant out == Statuses(nodes, order[..i], builders, spec)
        invariant upToDate == Tally(out, Covered) && inProgress == Tally(out, Moving)
      {
        assert order[..i + 1][..i] == order[..i];
        var n := order[i];
        if n !in nodes || !MatchedBy(nodes[n], spec) { continue; }
        var info := if n in byNode then byNode[n] else NO_POD;
        var verdict := StateReason(nodes[n], info, spec);
        TallyStep(out, Published(n, verdict, info.version));
        out := out + [Published(n, verdict, info.version)];
        match verdict.state {
          case Done => upToDate := upToDate + 1;
          case HostManaged => upToDate := upToDate + 1;
          case Cordoning => inProgress := inProgress + 1;
          case Draining => inProgress := inProgress + 1;
          case Upgrading => inProgress := inProgress + 1;
          case Uncordoning => inProgress := inProgress + 1;
          case _ =>
        }
      }
      assert order[..|order|] == order;
      StatusesMean(nodes, order, builders, spec);
      CountsMean(out);
    }

    /** Lifts our cordon from every matched node whose builder is Ready at the target, then removes its gates. */
    method UncordonReadyNodes(order: seq<string>, builders: seq<BuilderPod>, spec: DriverSpec, api: DriverApi)
      requires Walks(order, nodes.Keys)
      modifies `nodes
      ensures nodes.Keys == old(nodes).Keys
      ensures forall n <- old(nodes) :: Released(old(nodes)[n], nodes[n], n, builders, spec, api)
      ensures nodes == AfterUncordon(old(nodes), builders, spec, api)
    {
      hide MatchedBy, ReadyAtTarget, WithoutGates, Uncordon, Released;
      ghost var before := nodes;
      var readyAtTarget := ReadyNodes(builders, spec.version);
      for i := 0 to |order|
        invariant nodes.Keys == before.Keys
        invariant forall k | 0 <= k < |order| ::
            order[k] in before && nodes[order[k]] == if k < i
                  then UncordonReady(before[order[k]], order[k], builders, spec, api) else before[order[k]]
      {
        var name := order[i];
        var n := nodes[name];
        if !MatchedBy(n, spec) { continue; }
        if n.mark.owner != spec.cr { continue; }
        if name !in readyAtTarget { continue; }
        var answer := api.uncordon(name);
        if answer.Rejected? { continue; }
        nodes := nodes[name := Uncordon(n)];
        if answer.Lost? { continue; }
        if !api.clearGates(name).Rejected? {
          nodes := nodes[name := WithoutGates(Uncordon(n), spec.gates)];
        }
      }
      AllUncordoned(before, nodes, order, builders, spec, api);
      forall n <- before {
        PassMeans(before, builders, spec, api, n);
      }
    }
  }

  lemma AllUncordoned(before: map<string, DriverNode>, after: map<string, DriverNode>, order: seq<string>,
          builders: seq<BuilderPod>, spec: DriverSpec, api: DriverApi)
    requires Walks(order, before.Keys) && after.Keys == before.Keys
    requires forall k | 0 <= k < |order| ::
              order[k] in before && after[order[k]] == UncordonReady(before[order[k]], order[k], builders, spec, api)
    ensures after == AfterUncordon(before, builders, spec, api)
  {
    hide UncordonReady;
    forall name <- before
      ensures after[name] == UncordonReady(before[name], name, builders, spec, api)
    {
      assert name in order;
      var k :| 0 <= k < |order| && order[k] == name;
    }
  }

  /** Nodes with a builder pod Ready at the version. */
  method ReadyNodes(builders: seq<BuilderPod>, version: string) returns (ready: set<string>)
    ensures forall name :: name in ready <==> ReadyAtTarget(builders, name, version)
  {
    ready := {};
    for i := 0 to |builders|
      invariant forall name :: name in ready <==> ReadyAtTarget(builders[..i], name, version)
    {
      var p := builders[i];
      ReadyStep(builders[..i + 1], version);
      assert builders[..i + 1][..i] == builders[..i];
      if p.node == "" { continue; }
      if p.version != version { continue; }
      if p.ready { ready := ready + {p.node}; }
    }
    assert builders[..|builders|] == builders;
  }

  lemma ReadyStep(builders: seq<BuilderPod>, version: string)
    requires builders != []
    ensures var p := builders[|builders| - 1];
            forall name :: ReadyAtTarget(builders, name, version) <==>
              ReadyAtTarget(builders[..|builders| - 1], name, version)
                    || (p.node == name != "" && p.version == version && p.ready)
  {
    var shorter, p := builders[..|builders| - 1], builders[|builders| - 1];
    forall name
      ensures ReadyAtTarget(builders, name, version) <==>
              ReadyAtTarget(shorter, name, version) || (p.node == name != "" && p.version == version && p.ready)
    {
      if ReadyAtTarget(shorter, name, version) {
        var i :| 0 <= i < |shorter| && shorter[i].node == name && name != "" && shorter[i].version == version
              && shorter[i].ready;
        assert builders[i] == shorter[i];
      }
      if ReadyAtTarget(builders, name, version) {
        var i :| 0 <= i < |builders| && builders[i].node == name && name != "" && builders[i].version == version
              && builders[i].ready;
        assert i < |shorter| ==> shorter[i] == builders[i];
      }
    }
  }

  /** The pods by node; a later pod of the same node replaces an earlier one. */
  method IndexByNode(builders: seq<BuilderPod>) returns (byNode: map<string, PodInfo>)
    ensures forall n :: (if n in byNode then byNode[n] else NO_POD) == InfoFor(builders, n)
  {
    byNode := map[];
    for i := 0 to |builders|
      invariant forall n :: (if n in byNode then byNode[n] else NO_POD) == InfoFor(builders[..i], n)
    {
      var p := builders[i];
      InfoStep(builders[..i + 1]);
      assert builders[..i + 1][..i] == builders[..i];
      if p.node == "" { continue; }
      byNode := byNode[p.node := InfoOf(p)];
    }
    assert builders[..|builders|] == builders;
  }

  lemma InfoStep(builders: seq<BuilderPod>)
    requires builders != []
    ensures var p := builders[|builders| - 1];
            forall n :: InfoFor(builders, n) == if p.node != "" && p.node == n then InfoOf(p)
                  else InfoFor(builders[..|builders| - 1], n)
  {
  }
}
