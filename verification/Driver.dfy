/** The driver policy's published node states, and the uncordon pass that follows them. */
module Driver {
  import opened Kube
  import opened Selector
  import opened Scheduling

  datatype DriverNode = DriverNode(labels: Labels, unschedulable: bool, mark: CordonMark)

  datatype PodSelector = AnyPod | Parsed(selector: LabelSelector) | Unparsable

  datatype DriverSpec = DriverSpec(
    cr: string,
    version: string,
    selector: LabelSelector,
    requirePresent: bool,
    drainEnable: Option<bool>,
    drainFullNode: Option<bool>,
    drainDeleteEmptyDir: Option<bool>,
    drainForce: bool,
    podSelector: PodSelector,
    gates: seq<LabelKey>)

  predicate DrainEnabled(spec: DriverSpec) { spec.drainEnable != Some(false) }

  predicate MatchedBy(n: DriverNode, spec: DriverSpec) {
    DriverMatches(spec.selector, spec.requirePresent, n.labels)
  }

  /** A builder pod as listed; `version` is the one its template was rolled from. */
  datatype BuilderPod = BuilderPod(node: string, version: string, ready: bool, restarts: int, waiting: string)

  datatype PodInfo = PodInfo(version: string, ready: bool, restarts: int, waiting: string)

  const NO_POD := PodInfo("", false, 0, "")

  function InfoOf(p: BuilderPod): PodInfo { PodInfo(p.version, p.ready, p.restarts, p.waiting) }

  /** The last listed pod of a node speaks for it; a pod not yet on a node speaks for none. */
  function InfoFor(pods: seq<BuilderPod>, name: string): PodInfo {
    if pods == [] then NO_POD
    else
      var p := pods[|pods| - 1];
      if p.node != "" && p.node == name then InfoOf(p) else InfoFor(pods[..|pods| - 1], name)
  }

  datatype DriverState = Pending | Cordoning | Draining | Upgrading | Uncordoning | Done | Failed | HostManaged

  datatype DriverReason =
    | NoReason | HostManagedKMD | BuilderImagePullFailed | BuilderCrashLoop
    | UncordonDue | BuilderReady | Installing | DrainRunning

  datatype Verdict = Verdict(state: DriverState, reason: DriverReason)

  predicate PullStuck(waiting: string) { waiting == "ImagePullBackOff" || waiting == "ErrImagePull" }

  function StateReason(n: DriverNode, info: PodInfo, spec: DriverSpec): Verdict {
    var ours := n.mark.owner == spec.cr;
    if Get(n.labels, InstallMode) == "host" then Verdict(HostManaged, HostManagedKMD)
    else if PullStuck(info.waiting) then Verdict(Failed, BuilderImagePullFailed)
    else if info.restarts >= 3 && !info.ready then Verdict(Failed, BuilderCrashLoop)
    else if info.ready && info.version == spec.version then
      if ours then Verdict(Uncordoning, UncordonDue) else Verdict(Done, BuilderReady)
    else if info.version == spec.version then Verdict(Upgrading, Installing)
    else if ours then Verdict(Draining, DrainRunning)
    else Verdict(Pending, NoReason)
  }

  // ---- The uncordon pass ------------------------------------------------------------

  datatype DriverApi = DriverApi(uncordon: string -> PatchAnswer, clearGates: string -> PatchAnswer)

  predicate ReadyAtTarget(pods: seq<BuilderPod>, name: string, version: string) {
    exists i | 0 <= i < |pods| :: pods[i].node == name && name != "" && pods[i].version == version && pods[i].ready
  }

  function Uncordon(n: DriverNode): DriverNode {
    n.(unschedulable := false, mark := CordonMark("", NoStamp))
  }

  function KeySet(keys: seq<LabelKey>): set<LabelKey> {
    set k | k in keys
  }

  function WithoutGates(n: DriverNode, gates: seq<LabelKey>): DriverNode {
    n.(labels := n.labels - KeySet(gates))
  }

  /** One node of the pass; only a clean uncordon goes on to restore the deploy gates. */
  function UncordonReady(n: DriverNode, name: string, pods: seq<BuilderPod>, spec: DriverSpec,
          api: DriverApi): DriverNode {
    if !MatchedBy(n, spec) || n.mark.owner != spec.cr || !ReadyAtTarget(pods, name, spec.version) then n
    else match api.uncordon(name)
      case Rejected => n
      case Lost => Uncordon(n)
      case Applied => if api.clearGates(name).Rejected? then Uncordon(n) else WithoutGates(Uncordon(n), spec.gates)
  }

  function AfterUncordon(nodes: map<string, DriverNode>, pods: seq<BuilderPod>, spec: DriverSpec,
          api: DriverApi): map<string, DriverNode> {
    map name <- nodes :: UncordonReady(nodes[name], name, pods, spec, api)
  }

  /** The tail of a reconcile: without drain, or before the DaemonSet exists, nothing is uncordoned. */
  function Tail(nodes: map<string, DriverNode>, pods: seq<BuilderPod>, spec: DriverSpec, dsExists: bool,
          api: DriverApi): map<string, DriverNode> {
    if DrainEnabled(spec) && dsExists then AfterUncordon(nodes, pods, spec, api) else nodes
  }

  // ---- Status and action agree ------------------------------------------------------

  predicate Lifted(before: DriverNode, after: DriverNode, cr: string) {
    before.mark.owner == cr && after.mark.owner != cr
  }

  /** A Ready pod listed for the node is the one that speaks for it, and is not stuck pulling. */
  predicate LastPodSpeaks(pods: seq<BuilderPod>, name: string, version: string) {
    ReadyAtTarget(pods, name, version) ==>
      var info := InfoFor(pods, name); info.ready && info.version == version && !PullStuck(info.waiting)
  }

  /** The pod that speaks for a node is one of its pods, if it has any. */
  lemma {:induction false} InfoIsOfAPod(pods: seq<BuilderPod>, name: string)
    ensures InfoFor(pods, name) == NO_POD || exists i | 0 <= i < |pods| ::
              pods[i].node == name != "" && InfoFor(pods, name) == InfoOf(pods[i])
  {
    if pods != [] && !(pods[|pods| - 1].node != "" && pods[|pods| - 1].node == name) {
      var shorter := pods[..|pods| - 1];
      InfoIsOfAPod(shorter, name);
      if i :| 0 <= i < |shorter| && shorter[i].node == name != "" && InfoFor(shorter, name) == InfoOf(shorter[i]) {
        assert pods[i] == shorter[i];
      }
    }
  }

  /** For a cordoned node that is not host-managed, published Uncordoning and actually uncordoned are the
      same thing exactly when the last pod listed for it speaks for every Ready one. */
  lemma StatusMeansAction(n: DriverNode, name: string, pods: seq<BuilderPod>, spec: DriverSpec, api: DriverApi)
    requires MatchedBy(n, spec) && n.mark.owner == spec.cr && spec.cr != "" && Get(n.labels, InstallMode) != "host"
    requires !api.uncordon(name).Rejected?
    ensures (StateReason(n, InfoFor(pods, name), spec).state.Uncordoning? <==>
             Lifted(n, UncordonReady(n, name, pods, spec, api), spec.cr))
            <==> LastPodSpeaks(pods, name, spec.version)
  {
    hide MatchedBy;
    InfoIsOfAPod(pods, name);
  }

  /** One builder pod per node, and no Ready pod waiting. */
  predicate Settled(pods: seq<BuilderPod>) {
    && (forall i, j | 0 <= i < j < |pods| :: pods[i].node != pods[j].node || pods[i].node == "")
    && (forall i | 0 <= i < |pods| :: pods[i].ready ==> pods[i].waiting == "")
  }

  lemma {:induction false} SettledSpeaks(pods: seq<BuilderPod>, name: string, version: string)
    requires Settled(pods)
    ensures LastPodSpeaks(pods, name, version)
  {
    if ReadyAtTarget(pods, name, version) {
      var shorter := pods[..|pods| - 1];
      if pods[|pods| - 1].node != name {
        SettledSpeaks(shorter, name, version);
        var i :| 0 <= i < |pods| && pods[i].node == name && pods[i].version == version && pods[i].ready;
        assert shorter[i] == pods[i];
      }
    }
  }

  /** With one builder pod per node, drain on and patches landing: the nodes a reconcile uncordons are exactly
      those it published as Uncordoning and the cordoned host-managed ones whose pod is Ready at the target. */
  lemma UncordonsWhatItPublished(nodes: map<string, DriverNode>, pods: seq<BuilderPod>, spec: DriverSpec,
          api: DriverApi, name: string)
    requires Settled(pods) && spec.cr != "" && DrainEnabled(spec) && name in nodes && MatchedBy(nodes[name], spec)
    requires !api.uncordon(name).Rejected?
    ensures var n, after := nodes[name], Tail(nodes, pods, spec, true, api);
            var st := StateReason(n, InfoFor(pods, name), spec).state;
            && name in after
            && (Lifted(n, after[name], spec.cr) <==>
                st.Uncordoning? || (st.HostManaged? && n.mark.owner == spec.cr
                      && ReadyAtTarget(pods, name, spec.version)))
  {
    hide MatchedBy, ReadyAtTarget;
    var n := nodes[name];
    SettledSpeaks(pods, name, spec.version);
    if n.mark.owner == spec.cr && Get(n.labels, InstallMode) != "host" {
      StatusMeansAction(n, name, pods, spec, api);
    }
  }

  /** And each of those published as Uncordoning is published as Done by the next reconcile. */
  lemma UncordoningBecomesDone(nodes: map<string, DriverNode>, pods: seq<BuilderPod>, spec: DriverSpec,
          api: DriverApi, name: string)
    requires Settled(pods) && spec.cr != "" && DrainEnabled(spec) && name in nodes && MatchedBy(nodes[name], spec)
    requires !api.uncordon(name).Rejected? && KeySet(spec.gates) !! {InstallMode, Present, DriverSkip}
    requires Ignores(spec.selector, KeySet(spec.gates))
    requires StateReason(nodes[name], InfoFor(pods, name), spec).state.Uncordoning?
    ensures var after := Tail(nodes, pods, spec, true, api);
            name in after && MatchedBy(after[name], spec)
            && StateReason(after[name], InfoFor(pods, name), spec) == Verdict(Done, BuilderReady)
  {
    hide Selects, ReadyAtTarget, Ignores;
    assert forall k <- {InstallMode, Present, DriverSkip} :: k !in KeySet(spec.gates);
    UncordonsWhatItPublished(nodes, pods, spec, api, name);
    SelectsIgnoring(spec.selector, KeySet(spec.gates), nodes[name].labels,
          WithoutGates(nodes[name], spec.gates).labels);
  }

  /** With two pods on a node the two disagree: an old pod listed last hides the Ready one from the status. */
  lemma TwoPodsDisagree(spec: DriverSpec, api: DriverApi)
    requires spec == DriverSpec("p", "2", EVERYTHING, false, None, None, None, false, AnyPod, [])
    requires api.uncordon("n").Applied?
    ensures var n := DriverNode(map[], true, CordonMark("p", NoStamp));
            var pods := [BuilderPod("n", "2", true, 0, ""), BuilderPod("n", "1", false, 0, "")];
            && StateReason(n, InfoFor(pods, "n"), spec).state.Draining?
            && Lifted(n, UncordonReady(n, "n", pods, spec, api), "p")
  {
    var pods := [BuilderPod("n", "2", true, 0, ""), BuilderPod("n", "1", false, 0, "")];
    assert pods[0].node == "n" && pods[0].ready;
    assert ReadyAtTarget(pods, "n", "2");
  }
}
