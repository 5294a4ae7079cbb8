/** What the driver policy publishes of a node, told from the builder pods listed, the cordon and one label. */
module DriverVerdict {
  import opened Kube
  import opened Scheduling
  import opened Driver
  import opened DriverGates

  /** Pod `i` is the last one listed on the node. */
  ghost predicate LastOn(pods: seq<BuilderPod>, name: string, i: int) {
    0 <= i < |pods| && pods[i].node == name != "" && forall j | i < j < |pods| :: pods[j].node != name
  }

  predicate NoneOn(pods: seq<BuilderPod>, name: string) {
    name == "" || forall i | 0 <= i < |pods| :: pods[i].node != name
  }

  /** A node's last listed pod speaks for it; without one nothing is known of its builder. */
  lemma {:induction false} InfoMeans(pods: seq<BuilderPod>, name: string)
    ensures forall i | LastOn(pods, name, i) ::
              InfoFor(pods, name) == PodInfo(pods[i].version, pods[i].ready, pods[i].restarts, pods[i].waiting)
    ensures NoneOn(pods, name) ==> InfoFor(pods, name) == PodInfo("", false, 0, "")
    ensures NoneOn(pods, name) || exists i :: LastOn(pods, name, i)
  {
    if pods != [] {
      var shorter, last := pods[..|pods| - 1], |pods| - 1;
      InfoMeans(shorter, name);
      if pods[last].node == name != "" {
        assert LastOn(pods, name, last);
      } else {
        forall i
          ensures LastOn(pods, name, i) <==> LastOn(shorter, name, i)
        {
        }
        assert NoneOn(shorter, name) ==> NoneOn(pods, name) by {
          assert forall i | 0 <= i < last :: pods[i] == shorter[i];
        }
      }
    }
  }

  predicate HostMode(n: DriverNode) {
    InstallMode in n.labels && n.labels[InstallMode] == "host"
  }

  /** The builder cannot pull its image, or keeps crashing. */
  predicate Stuck(p: BuilderPod) { p.waiting in {"ImagePullBackOff", "ErrImagePull"} }

  predicate Crashing(p: BuilderPod) { p.restarts >= 3 && !p.ready && !Stuck(p) }

  /** What is published of a node for which pod `p` speaks, state by state and reason by reason. */
  ghost predicate Fits(v: Verdict, n: DriverNode, p: BuilderPod, spec: DriverSpec) {
    var ours, well := n.mark.owner == spec.cr, !HostMode(n) && !Stuck(p) && !Crashing(p);
    && (v.state == HostManaged <==> HostMode(n)) && (v.reason == HostManagedKMD <==> HostMode(n))
    && (v.state == Failed <==> !HostMode(n) && (Stuck(p) || Crashing(p)))
    && (v.reason == BuilderImagePullFailed <==> !HostMode(n) && Stuck(p))
    && (v.reason == BuilderCrashLoop <==> !HostMode(n) && Crashing(p))
    && (v.state == Done <==> well && p.ready && p.version == spec.version && !ours)
    && (v.state == Uncordoning <==> well && p.ready && p.version == spec.version && ours)
    && (v.state == Upgrading <==> well && !p.ready && p.version == spec.version)
    && (v.state == Draining <==> well && p.version != spec.version && ours)
    && (v.state == Pending <==> well && p.version != spec.version && !ours)
    && ReasonFits(v)
  }

  predicate ReasonFits(v: Verdict) {
    && (v.reason == BuilderReady <==> v.state == Done) && (v.reason == UncordonDue <==> v.state == Uncordoning)
    && (v.reason == Installing <==> v.state == Upgrading) && (v.reason == DrainRunning <==> v.state == Draining)
    && (v.reason == NoReason <==> v.state == Pending)
  }

  /** What is published of a node without a builder pod. */
  ghost predicate FitsNone(v: Verdict, n: DriverNode, spec: DriverSpec) {
    var ours := n.mark.owner == spec.cr;
    && (v.state == HostManaged <==> HostMode(n)) && (v.reason == HostManagedKMD <==> HostMode(n))
    && (v.state == Upgrading <==> !HostMode(n) && spec.version == "")
    && (v.state == Draining <==> !HostMode(n) && spec.version != "" && ours)
    && (v.state == Pending <==> !HostMode(n) && spec.version != "" && !ours)
    && ReasonFits(v)
  }

  lemma VerdictMeans(n: DriverNode, name: string, pods: seq<BuilderPod>, spec: DriverSpec)
    ensures var v := StateReason(n, InfoFor(pods, name), spec);
            && (forall i | LastOn(pods, name, i) :: Fits(v, n, pods[i], spec))
            && (NoneOn(pods, name) ==> FitsNone(v, n, spec))
  {
    hide LastOn, NoneOn, InfoFor;
    InfoMeans(pods, name);
  }

  /** Published Done: the node's last listed builder is Ready at spec.version and not stuck pulling, so one Ready at
      the version is there; no cordon of ours stands, and the node is not host-managed. */
  lemma DoneIsReady(n: DriverNode, name: string, pods: seq<BuilderPod>, spec: DriverSpec)
    requires spec.version != ""
    ensures StateReason(n, InfoFor(pods, name), spec).state == Done <==>
              && !HostMode(n) && n.mark.owner != spec.cr
              && exists i :: LastOn(pods, name, i) && pods[i].ready && pods[i].version == spec.version
                    && !Stuck(pods[i])
    ensures StateReason(n, InfoFor(pods, name), spec).state == Done ==> ReadyAtTarget(pods, name, spec.version)
  {
    hide InfoFor, NoneOn, StateReason;
    InfoMeans(pods, name);
    VerdictMeans(n, name, pods, spec);
  }

  // ---- The published list -----------------------------------------------------------

  datatype Published = Published(name: string, verdict: Verdict, currentVersion: string)

  predicate Covered(st: DriverState) { st.Done? || st.HostManaged? }

  predicate Moving(st: DriverState) { st.Cordoning? || st.Draining? || st.Upgrading? || st.Uncordoning? }

  /** The entry says of its node what its last listed pod, or the lack of one, tells. */
  ghost predicate Truthful(entry: Published, n: DriverNode, pods: seq<BuilderPod>, spec: DriverSpec) {
    && (forall i | LastOn(pods, entry.name, i) ::
          Fits(entry.verdict, n, pods[i], spec) && entry.currentVersion == pods[i].version)
    && (NoneOn(pods, entry.name) ==> FitsNone(entry.verdict, n, spec) && entry.currentVersion == "")
  }

  lemma EntryMeans(n: DriverNode, name: string, pods: seq<BuilderPod>, spec: DriverSpec)
    ensures var info := InfoFor(pods, name);
            Truthful(Published(name, StateReason(n, info, spec), info.version), n, pods, spec)
  {
    hide LastOn, NoneOn, InfoFor, Fits, FitsNone, StateReason;
    InfoMeans(pods, name);
    VerdictMeans(n, name, pods, spec);
  }

  /** What is published for the matched nodes of a listing, in listing order. */
  function Statuses(nodes: map<string, DriverNode>, order: seq<string>, pods: seq<BuilderPod>,
          spec: DriverSpec): seq<Published> {
    if order == [] then []
    else
      var rest, n := Statuses(nodes, order[..|order| - 1], pods, spec), order[|order| - 1];
      if n in nodes && MatchedBy(nodes[n], spec)
      then rest + [Published(n, StateReason(nodes[n], InfoFor(pods, n), spec), InfoFor(pods, n).version)]
      else rest
  }

  /** One truthful entry for each listed node that takes part, and none for any other. */
  lemma {:induction false} StatusesMean(nodes: map<string, DriverNode>, order: seq<string>, pods: seq<BuilderPod>,
        spec: DriverSpec)
    ensures var out := Statuses(nodes, order, pods, spec);
            && (forall n :: (exists e <- out :: e.name == n) <==> n in order && n in nodes && TakesPart(nodes[n], spec))
            && (forall e <- out :: e.name in nodes && Truthful(e, nodes[e.name], pods, spec))
  {
    hide StateReason, InfoFor, Truthful, MatchedBy, TakesPart;
    if order != [] {
      var shorter, last := order[..|order| - 1], order[|order| - 1];
      StatusesMean(nodes, shorter, pods, spec);
      assert forall n :: n in order <==> n in shorter || n == last;
      if last in nodes {
        MatchedMeans(nodes[last], spec);
        EntryMeans(nodes[last], last, pods, spec);
        var rest := Statuses(nodes, shorter, pods, spec);
        var e := Published(last, StateReason(nodes[last], InfoFor(pods, last), spec), InfoFor(pods, last).version);
        assert forall x :: x in rest + [e] <==> x in rest || x == e;
        assert e in rest + [e];
      }
    }
  }

  function Tally(out: seq<Published>, p: DriverState -> bool): nat {
    if out == [] then 0 else Tally(out[..|out| - 1], p) + if p(out[|out| - 1].verdict.state) then 1 else 0
  }

  function OnState(p: DriverState -> bool): Published -> bool {
    (e: Published) => p(e.verdict.state)
  }

  /** Counting up is counting the entries. */
  lemma {:induction false} TallyMeans(out: seq<Published>, p: DriverState -> bool)
    ensures Tally(out, p) == |Positions(out, OnState(p))|
  {
    hide Positions;
    PositionsStep(out, OnState(p));
    if out != [] {
      TallyMeans(out[..|out| - 1], p);
    }
  }

  /** The two summary counts: entries Done or host-managed, and entries on their way. */
  lemma CountsMean(out: seq<Published>)
    ensures Tally(out, Covered) == |set k | 0 <= k < |out| && out[k].verdict.state in {Done, HostManaged}|
    ensures Tally(out, Moving) ==
              |set k | 0 <= k < |out| && out[k].verdict.state in {Cordoning, Draining, Upgrading, Uncordoning}|
  {
    TallyMeans(out, Covered);
    TallyMeans(out, Moving);
    forall e: Published
      ensures OnState(Covered)(e) <==> e.verdict.state in {Done, HostManaged}
      ensures OnState(Moving)(e) <==> e.verdict.state in {Cordoning, Draining, Upgrading, Uncordoning}
    {
      assert OnState(Covered)(e) == Covered(e.verdict.state) && OnState(Moving)(e) == Moving(e.verdict.state);
    }
    assert (set k | 0 <= k < |out| && out[k].verdict.state in {Done, HostManaged}) == Positions(out, OnState(Covered));
    assert (set k | 0 <= k < |out| && out[k].verdict.state in {Cordoning, Draining, Upgrading, Uncordoning}) ==
           Positions(out, OnState(Moving));
  }
}
