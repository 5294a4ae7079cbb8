/** Cordon marks, pod predicates and pod listing shared by both controllers. */
module Drain {
  import opened Kube

  datatype Cordoned = Cordoned(unschedulable: bool, mark: CordonMark)

  /** Marks a node unschedulable for `owner`; an existing timestamp is kept. */
  function Cordon(unschedulable: bool, mark: CordonMark, owner: string, now: int): Cordoned {
    Cordoned(true, CordonMark(owner, if mark.at == NoStamp then At(now) else mark.at))
  }

  /** Nothing to patch: already unschedulable under our own mark. */
  predicate CordonHeld(unschedulable: bool, mark: CordonMark, owner: string) {
    unschedulable && mark.owner == owner
  }

  /** Seconds since the cordon; zero when the timestamp is missing or unreadable. */
  function CordonElapsed(mark: CordonMark, now: int): int {
    match mark.at
    case At(t) => now - t
    case _ => 0
  }

  const DEVICE_PATH := "/dev/tenstorrent"

  predicate PodUsesTenstorrentDevice(p: Pod) {
    exists i | 0 <= i < |p.volumes| :: p.volumes[i].HostPath? && DEVICE_PATH <= p.volumes[i].path
  }

  predicate PodIsDaemonSetOwned(p: Pod) {
    "DaemonSet" in p.ownerKinds
  }

  predicate PodIsBare(p: Pod) {
    p.ownerKinds == []
  }

  predicate PodHasEmptyDir(p: Pod) {
    EmptyDir in p.volumes
  }

  predicate IsTerminalPhase(phase: PodPhase) {
    phase == PodSucceeded || phase == PodFailed
  }

  /** May the drain of `node` evict this pod at all, whatever the caller's filter says? */
  predicate Evictable(p: Pod, node: string, operatorNs: string, force: bool) {
    && p.node == node
    && p.id.ns != operatorNs
    && !IsTerminalPhase(p.phase)
    && !PodIsDaemonSetOwned(p)
    && (force || !PodIsBare(p))
  }

  /** The listed pods, in listing order, that are evictable and pass the filter. */
  function Targets(all: seq<Pod>, node: string, operatorNs: string, force: bool, filter: Pod -> bool): (out: seq<Pod>)
    ensures forall p :: p in out <==> p in all && Evictable(p, node, operatorNs, force) && filter(p)
    ensures |out| <= |all|
  {
    if all == [] then []
    else
      var rest := Targets(all[..|all| - 1], node, operatorNs, force, filter);
      var p := all[|all| - 1];
      if filter(p) && Evictable(p, node, operatorNs, force) then rest + [p] else rest
  }

  lemma TargetsStep(all: seq<Pod>, node: string, operatorNs: string, force: bool, filter: Pod -> bool)
    requires all != []
    ensures var rest, p := Targets(all[..|all| - 1], node, operatorNs, force, filter), all[|all| - 1];
            Targets(all, node, operatorNs, force, filter) ==
            if filter(p) && Evictable(p, node, operatorNs, force) then rest + [p] else rest
  {
  }

  lemma NoTargets(node: string, operatorNs: string, force: bool, filter: Pod -> bool)
    ensures Targets([], node, operatorNs, force, filter) == []
  {
  }

  /** A pod a drain of `node` may evict: there, outside the operator's namespace, not finished, not a DaemonSet's, and
      owned by something unless the drain is forced. */
  predicate Movable(p: Pod, node: string, operatorNs: string, force: bool) {
    && p.node == node && p.id.ns != operatorNs && p.phase in {PodPending, PodRunning, PodUnknown}
    && "DaemonSet" !in p.ownerKinds && (force || |p.ownerKinds| > 0)
  }

  lemma EvictableMeans(p: Pod, node: string, operatorNs: string, force: bool)
    ensures Evictable(p, node, operatorNs, force) <==> Movable(p, node, operatorNs, force)
  {
  }

  /** The guard cascade of the pod listing, one `continue` per exclusion. */
  method ListDevicePodsOnNode(all: seq<Pod>, node: string, operatorNs: string, force: bool, filter: Pod -> bool)
    returns (out: seq<Pod>)
    ensures forall p :: p in out <==> p in all && Movable(p, node, operatorNs, force) && filter(p)
    ensures out == Targets(all, node, operatorNs, force, filter)
  {
    hide Targets, PodIsDaemonSetOwned, PodIsBare, IsTerminalPhase, Movable;
    out := [];
    NoTargets(node, operatorNs, force, filter);
    for i := 0 to |all|
      invariant out == Targets(all[..i], node, operatorNs, force, filter)
    {
      var p := all[i];
      assert all[..i + 1][..i] == all[..i];
      TargetsStep(all[..i + 1], node, operatorNs, force, filter);
      if p.node != node { continue; }
      if p.id.ns == operatorNs { continue; }
      if !filter(p) { continue; }
      if IsTerminalPhase(p.phase) { continue; }
      if PodIsDaemonSetOwned(p) { continue; }
      if !force && PodIsBare(p) { continue; }
      out := out + [p];
    }
    assert all[..|all|] == all;
    forall p {
      EvictableMeans(p, node, operatorNs, force);
    }
  }

  /** An eviction call: accepted, nothing left to evict, refused by a disruption budget, or failed. */
  datatype EvictAnswer = Evicted | AlreadyGone | Blocked | EvictError

  /** The pods left once some ids are gone. */
  function Remaining(pods: seq<Pod>, gone: set<PodId>): (rest: seq<Pod>)
    ensures forall p :: p in rest <==> p in pods && p.id !in gone
  {
    if pods == [] then []
    else
      var rest, last := Remaining(pods[..|pods| - 1], gone), pods[|pods| - 1];
      if last.id in gone then rest else rest + [last]
  }

  /** Pods the firmware controller waits for before it flashes a node. */
  function DevicePods(all: seq<Pod>, node: string, operatorNs: string, force: bool): seq<Pod> {
    Targets(all, node, operatorNs, force, PodUsesTenstorrentDevice)
  }

  /** A pod with a host path below the device directory. */
  predicate OnDevice(p: Pod) {
    exists v <- p.volumes :: v.HostPath? && |v.path| >= 16 && v.path[..16] == "/dev/tenstorrent"
  }

  lemma DeviceMeans(p: Pod)
    ensures PodUsesTenstorrentDevice(p) <==> OnDevice(p)
  {
    assert |DEVICE_PATH| == 16;
    forall v: Volume | v.HostPath?
      ensures DEVICE_PATH <= v.path <==> |v.path| >= 16 && v.path[..16] == DEVICE_PATH
    {
    }
  }

  /** A pod the drain of `node` waits for. */
  predicate HoldsDevice(p: Pod, node: string, operatorNs: string, force: bool) {
    Movable(p, node, operatorNs, force) && OnDevice(p)
  }

  /** Listing, guards and device filter come to exactly that. */
  lemma DevicePodMeans(p: Pod, all: seq<Pod>, node: string, operatorNs: string, force: bool)
    ensures p in DevicePods(all, node, operatorNs, force) <==> p in all && HoldsDevice(p, node, operatorNs, force)
  {
    hide Movable, OnDevice, Evictable, PodUsesTenstorrentDevice;
    EvictableMeans(p, node, operatorNs, force);
    DeviceMeans(p);
  }
}
