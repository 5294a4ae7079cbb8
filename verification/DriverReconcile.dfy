/** The driver controller on one node, made of its own functions, refines the end-to-end protocol: what that
    protocol proves of its abstract controller holds of the cordons this one places and lifts. */
module DriverReconcile {
  import opened Kube
  import opened Selector
  import opened Driver
  import opened DriverDrain
  import opened DriverGates
  import D = DriverRollout

  /** How far a reconcile has got: the template is in place; a Ready builder was listed for a node we cordoned.
      `host` remembers the mode that builder was in, which the controller does not see. */
  datatype Task = NoTask | Rolled(spec: DriverSpec) | Chosen(spec: DriverSpec, builders: seq<BuilderPod>, host: bool)

  datatype OneNode = OneNode(
    name: string,
    loaded: Option<string>,
    refcnt: nat,
    hostInstall: bool,
    lastRead: Option<nat>,
    pod: Option<D.Builder>,
    node: DriverNode,
    template: Option<string>,
    task: Task)

  datatype Step =
    | Outside(e: D.Event)
    | RollOut(spec: DriverSpec, paused: bool, drift: bool, stored: bool, operatorNs: string, now: int, api: DrainApi,
              drainage: Drainage)
    | Look(listed: bool, restarts: int, waiting: string)
    | Lift(lift: DriverApi)
    | Abort

  /** What is not the controller: the container, its probe, the DaemonSet's pods and the kernel. */
  predicate IsOutside(e: D.Event) {
    || e.ScriptRuns? || e.ContainerRestarts? || e.Probed? || e.ConditionLost?
    || e.PodDeleted? || e.PodCreated? || e.RefcntMoves? || e.HostInstallMoves?
  }

  /** The builder pods the API server lists for the node. */
  function Builders(k: OneNode, restarts: int, waiting: string): seq<BuilderPod> {
    if k.pod.None? then []
    else [BuilderPod(k.name, k.pod.value.version, k.pod.value.ready != D.Absent, restarts, waiting)]
  }

  /** The first half of a reconcile: create the DaemonSet, or prepare the nodes and update its template on drift;
      a failed call ends the reconcile. */
  function RolledOut(k: OneNode, spec: DriverSpec, paused: bool, drift: bool, stored: bool, operatorNs: string,
        now: int,
        api: DrainApi, drainage: Drainage): OneNode
  {
    if k.template.None? then
      if paused || !stored then k else k.(template := Some(spec.version), task := Rolled(spec))
    else if paused || !(drift || k.template != Some(spec.version)) then k.(task := Rolled(spec))
    else
      var node := if DrainEnabled(spec) then PreparedAlone(k, spec, operatorNs, now, api, drainage) else k.node;
      if stored then k.(node := node, template := Some(spec.version), task := Rolled(spec)) else k.(node := node)
  }

  /** The preparation on a cluster of this one node. */
  function PreparedAlone(k: OneNode, spec: DriverSpec, operatorNs: string, now: int, api: DrainApi,
        drainage: Drainage): DriverNode {
    PrepareUpgrade(Upgrade(map[k.name := k.node], drainage), [k.name], spec, operatorNs, now, api).nodes[k.name]
  }

  /** A paused policy changes neither template nor node, and a template is never replaced by one that was not stored.
      When an existing template is due for replacement and drain is on, the node has been prepared first, cordon and
      gates, unless listing or selectors stopped the preparation; nothing else touches the node. */
  lemma PreparedBeforeRoll(k: OneNode, spec: DriverSpec, paused: bool, drift: bool, stored: bool, operatorNs: string,
        now: int, api: DrainApi, drainage: Drainage)
    ensures var t := RolledOut(k, spec, paused, drift, stored, operatorNs, now, api, drainage);
            var due := !paused && k.template.Some? && (drift || k.template.value != spec.version);
            var prepares := due && spec.drainEnable != Some(false) && !StopsEarly(spec, api);
            && (paused || !stored ==> t.template == k.template)
            && (!paused && stored ==> t.template == Some(spec.version))
            && (t.task == Rolled(spec) || (t.task == k.task && (k.template.None? || due) && (paused || !stored)))
            && (prepares ==> ReadiedAs(k.node, t.node, k.name, spec, now, api))
            && (!prepares ==> t.node == k.node)
  {
    hide PrepareUpgrade, ReadiedAs, WellFormed;
    var u := Upgrade(map[k.name := k.node], drainage);
    assert [k.name][0] == k.name;
    PreparationMeans(u, [k.name], spec, operatorNs, now, api, k.name);
  }

  /** Would the uncordon pass act on the node, given what it lists? */
  predicate Acts(k: OneNode, builders: seq<BuilderPod>, spec: DriverSpec) {
    MatchedBy(k.node, spec) && k.node.mark.owner == spec.cr && ReadyAtTarget(builders, k.name, spec.version)
  }

  function Do(k: OneNode, s: Step, cr: string): OneNode {
    match s
    case Outside(e) =>
      if !IsOutside(e) then k
      else
        var t := D.Next(Abs(k, cr), e);
        k.(loaded := t.loaded, refcnt := t.refcnt, hostInstall := t.hostInstall, lastRead := t.lastRead, pod := t.pod)
    case RollOut(spec, paused, drift, stored, ns, now, api, drainage) =>
      if k.task.NoTask? && spec.cr == cr then RolledOut(k, spec, paused, drift, stored, ns, now, api, drainage) else k
    case Look(listed, restarts, waiting) =>
      if !k.task.Rolled? then k
      else
        var builders := Builders(k, restarts, waiting);
        if DrainEnabled(k.task.spec) && listed && Acts(k, builders, k.task.spec)
        then k.(task := Chosen(k.task.spec, builders, k.pod.Some? && k.pod.value.ready.OfHost?)) else k.(task := NoTask)
    case Lift(api) =>
      if !k.task.Chosen? then k
      else k.(node := UncordonReady(k.node, k.name, k.task.builders, k.task.spec, api), task := NoTask)
    case Abort => k.(task := NoTask)
  }

  function DoAll(k: OneNode, ss: seq<Step>, cr: string): OneNode {
    if ss == [] then k else Do(DoAll(k, ss[..|ss| - 1], cr), ss[|ss| - 1], cr)
  }

  /** Listing and lifting without a pause in between is the tail of the reconcile. */
  lemma LookThenLiftIsTail(k: OneNode, restarts: int, waiting: string, api: DriverApi, cr: string)
    requires k.task.Rolled?
    ensures var spec := k.task.spec;
            Do(Do(k, Look(true, restarts, waiting), cr), Lift(api), cr).node ==
            Tail(map[k.name := k.node], Builders(k, restarts, waiting), spec, true, api)[k.name]
  {
    hide MatchedBy, ReadyAtTarget;
  }

  // ---- Refinement -------------------------------------------------------------------

  function Abs(k: OneNode, cr: string): D.System {
    var ctl := match k.task
      case NoTask => D.Resting
      case Rolled(spec) => D.Rolled(spec.version)
      case Chosen(spec, _, host) => D.SawReady(spec.version, host);
    D.System(k.loaded, k.refcnt, k.hostInstall, k.lastRead, k.pod, k.template, k.node.mark.owner == cr, ctl)
  }

  /** A reconcile in progress is this policy's, and the node it has chosen is still the one it chose. */
  predicate Coherent(k: OneNode, cr: string) {
    && cr != "" && k.name != ""
    && (!k.task.NoTask? ==> k.task.spec.cr == cr)
    && (k.task.Chosen? ==> Acts(k, k.task.builders, k.task.spec))
  }

  lemma OneEvent(a: D.System, e: D.Event)
    ensures D.Run(a, [e]) == D.Next(a, e)
  {
    hide D.Next;
    D.Push(a, [], e);
    assert [] + [e] == [e];
  }

  /** The outside changes neither the template nor the cordon nor the controller. */
  lemma OutsideStaysOutside(a: D.System, e: D.Event)
    requires IsOutside(e)
    ensures var b := D.Next(a, e);
            b.template == a.template && b.cordoned == a.cordoned && b.ctl == a.ctl
  {
    hide D.NextPlace, D.NextMarker, D.Removes, D.Inserts;
  }

  lemma OutsideRefines(k: OneNode, e: D.Event, cr: string)
    requires IsOutside(e)
    ensures Abs(Do(k, Outside(e), cr), cr) == D.Run(Abs(k, cr), [e])
  {
    hide D.Run, D.Next, IsOutside;
    OneEvent(Abs(k, cr), e);
    OutsideStaysOutside(Abs(k, cr), e);
  }

  /** Preparing the node either leaves its mark to whoever had it or makes it ours. */
  lemma PreparationMarks(k: OneNode, spec: DriverSpec, operatorNs: string, now: int, api: DrainApi, drainage: Drainage)
    ensures var node := PreparedAlone(k, spec, operatorNs, now, api, drainage);
            node.mark.owner == k.node.mark.owner || node.mark.owner == spec.cr
  {
    hide MatchedBy, GatesAreOff, PrepareAll, WellFormed;
    var u := Upgrade(map[k.name := k.node], drainage);
    PreparesOnce(u, [k.name], spec, operatorNs, now, api, k.name);
    assert [k.name][0] == k.name;
  }

  lemma RollOutRefines(k: OneNode, s: Step, cr: string) returns (es: seq<D.Event>)
    requires Coherent(k, cr) && s.RollOut?
    ensures Coherent(Do(k, s, cr), cr) && Abs(Do(k, s, cr), cr) == D.Run(Abs(k, cr), es)
  {
    hide PreparedAlone, D.Next, Acts;
    var spec, node := s.spec, PreparedAlone(k, s.spec, s.operatorNs, s.now, s.api, s.drainage);
    var start, last := D.ReconcileStarts(spec.version, s.paused), if s.stored then D.Rolls else D.ReconcileFails;
    PreparationMarks(k, spec, s.operatorNs, s.now, s.api, s.drainage);
    if !k.task.NoTask? || spec.cr != cr {
      es := [];
    } else {
      es := [start, D.Prepares(node.mark.owner == cr && DrainEnabled(spec) && !Quiet(k, s)),
             if s.stored || Quiet(k, s) then D.Rolls else D.ReconcileFails];
      D.Steps3(Abs(k, cr), es[0], es[1], es[2]);
      StartsRolling(Abs(k, cr), es[0], es[1], es[2]);
    }
  }

  /** Nothing is to be stored: the template already says what it should, or a pause forbids to change it. */
  predicate Quiet(k: OneNode, s: Step)
    requires s.RollOut?
  {
    k.template.Some? && (s.paused || !(s.drift || k.template != Some(s.spec.version)))
  }

  lemma StartsRolling(a: D.System, e0: D.Event, e1: D.Event, e2: D.Event)
    requires a.ctl.Resting? && e0.ReconcileStarts? && e1.Prepares? && (e2.Rolls? || e2.ReconcileFails?)
    ensures var b := D.Next(D.Next(D.Next(a, e0), e1), e2);
            var prepared := a.cordoned || (!e0.paused && a.template.Some? && e1.cordonLands);
            b == if e2.ReconcileFails? then a.(cordoned := prepared)
                 else if !e0.paused then a.(cordoned := prepared, template := Some(e0.version),
                       ctl := D.Rolled(e0.version))
                 else if a.template.None? then a else a.(ctl := D.Rolled(e0.version))
  {
  }

  lemma LookRefines(k: OneNode, s: Step, cr: string) returns (es: seq<D.Event>)
    requires Coherent(k, cr) && s.Look?
    ensures Coherent(Do(k, s, cr), cr) && Abs(Do(k, s, cr), cr) == D.Run(Abs(k, cr), es)
  {
    hide MatchedBy, ReadyAtTarget, Builders, D.Run;
    if !k.task.Rolled? {
      es := [];
      NoEvents(Abs(k, cr));
    } else {
      var builders := Builders(k, s.restarts, s.waiting);
      ListedReady(k, s.restarts, s.waiting, k.task.spec.version);
      var acts := DrainEnabled(k.task.spec) && s.listed && Acts(k, builders, k.task.spec);
      es := [if acts then D.Observes else D.ReconcileFails];
      OneEvent(Abs(k, cr), es[0]);
    }
  }

  /** The listing shows the node Ready at a version exactly when its one builder is. */
  lemma ListedReady(k: OneNode, restarts: int, waiting: string, version: string)
    requires k.name != ""
    ensures ReadyAtTarget(Builders(k, restarts, waiting), k.name, version) <==>
            k.pod.Some? && k.pod.value.version == version && k.pod.value.ready != D.Absent
  {
    var builders := Builders(k, restarts, waiting);
    if k.pod.Some? {
      assert builders[0].node == k.name;
    }
  }

  lemma LiftRefines(k: OneNode, s: Step, cr: string) returns (es: seq<D.Event>)
    requires Coherent(k, cr) && s.Lift?
    ensures Coherent(Do(k, s, cr), cr) && Abs(Do(k, s, cr), cr) == D.Run(Abs(k, cr), es)
  {
    hide MatchedBy, ReadyAtTarget;
    if !k.task.Chosen? {
      es := [];
    } else {
      es := [if s.lift.uncordon(k.name).Rejected? then D.ReconcileFails else D.Uncordons];
      OneEvent(Abs(k, cr), es[0]);
    }
  }

  /** Every step of the controller, and everything around it, is a run of the protocol. */
  lemma StepRefines(k: OneNode, s: Step, cr: string) returns (es: seq<D.Event>)
    requires Coherent(k, cr)
    ensures Coherent(Do(k, s, cr), cr) && Abs(Do(k, s, cr), cr) == D.Run(Abs(k, cr), es)
  {
    hide D.Run, D.Next, UncordonReady, Acts;
    match s
    case Outside(e) =>
      if IsOutside(e) {
        es := [e];
        OutsideRefines(k, e, cr);
        StillActs(k, e, cr);
      } else {
        es := [];
        NoEvents(Abs(k, cr));
      }
    case RollOut(_, _, _, _, _, _, _, _) => es := RollOutRefines(k, s, cr);
    case Look(_, _, _) => es := LookRefines(k, s, cr);
    case Lift(_) => es := LiftRefines(k, s, cr);
    case Abort =>
      es := [D.ReconcileFails];
      Fails(Abs(k, cr));
  }

  lemma StillActs(k: OneNode, e: D.Event, cr: string)
    requires Coherent(k, cr) && IsOutside(e)
    ensures Coherent(Do(k, Outside(e), cr), cr)
  {
    hide MatchedBy, ReadyAtTarget, D.Next;
  }

  lemma NoEvents(a: D.System)
    ensures D.Run(a, []) == a
  {
  }

  lemma Fails(a: D.System)
    ensures D.Run(a, [D.ReconcileFails]) == a.(ctl := D.Resting)
  {
    OneEvent(a, D.ReconcileFails);
  }

  lemma {:induction false} RunRefines(k: OneNode, ss: seq<Step>, cr: string) returns (es: seq<D.Event>)
    requires Coherent(k, cr)
    ensures Coherent(DoAll(k, ss, cr), cr) && Abs(DoAll(k, ss, cr), cr) == D.Run(Abs(k, cr), es)
  {
    hide D.Run, Do, Coherent, Abs;
    if ss == [] {
      es := [];
      NoEvents(Abs(k, cr));
    } else {
      var first := RunRefines(k, ss[..|ss| - 1], cr);
      var rest := StepRefines(DoAll(k, ss[..|ss| - 1], cr), ss[|ss| - 1], cr);
      D.PushAll(Abs(k, cr), first, rest);
      es := first + rest;
    }
  }

  /** Over any run of the controller and everything around it: whenever the uncordon pass lifts its cordon at
      spec.version, the kernel reports that version, unless the builder it saw was in host-managed mode or a pause has
      left the template at another version. */
  lemma LiftsOnlyWhenLoaded(k0: OneNode, ss: seq<Step>, api: DriverApi, cr: string)
    requires Coherent(k0, cr) && k0.pod.None? && k0.template.None? && k0.task.NoTask?
    ensures var k := DoAll(k0, ss, cr);
            Lifted(k.node, Do(k, Lift(api), cr).node, cr) ==>
              && k.task.Chosen?
              && (k.loaded == Some(k.task.spec.version) || k.task.host || k.template != Some(k.task.spec.version))
  {
    hide D.Run, D.Next, UncordonReady, Acts;
    var es := RunRefines(k0, ss, cr);
    var k := DoAll(k0, ss, cr);
    if k.task.Chosen? {
      D.CordonLiftedOnlyWhenLoaded(Abs(k0, cr), es, k.task.spec.version);
    }
  }

  // ---- With drain switched off ------------------------------------------------------

  predicate WithoutDrain(s: Step) { s.RollOut? ==> !DrainEnabled(s.spec) }

  /** Over any run of reconciles with drain off, the node is never touched: a cordon placed earlier stays, and the
      node is published as Uncordoning whenever its builder is listed Ready at the target and not stuck. */
  lemma {:induction false} UncordoningWithoutDrain(k: OneNode, ss: seq<Step>, cr: string, spec: DriverSpec,
        info: PodInfo)
    requires k.task.NoTask? && k.node.mark.owner == cr == spec.cr
    requires forall i | 0 <= i < |ss| :: WithoutDrain(ss[i])
    ensures var v := DoAll(k, ss, cr);
            && v.node == k.node && (!v.task.NoTask? ==> v.task.Rolled? && !DrainEnabled(v.task.spec))
            && (info.ready && info.version == spec.version && !PullStuck(info.waiting)
                  && Get(k.node.labels, InstallMode) != "host" ==>
                  StateReason(v.node, info, spec) == Verdict(Uncordoning, UncordonDue))
  {
    hide D.Next, PreparedAlone, UncordonReady, Acts;
    if ss != [] {
      UncordoningWithoutDrain(k, ss[..|ss| - 1], cr, spec, info);
    }
  }
}
