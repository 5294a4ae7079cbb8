/** A rollout with nothing to do does nothing: the second of two reconciles of an idle cluster
    writes no node, creates no Job and emits no event. */
module Quiescence {
  import opened Kube
  import opened Drain
  import opened Selector
  import opened Firmware
  import opened Steps
  import opened Passes
  import opened Progress
  import opened Matching
  import opened Status
  import opened History

  /** Nothing moves during the reconcile, and the writes of the status pass land. */
  ghost predicate Undisputed(c: Ctx) {
    && c.api.statusWritten && NoInterference(c)
    && (forall n, k | k in {StateLabel, VersionNote, VersionLabel} :: c.api.patch(n, k).Applied?)
  }

  /** No action is due, whatever slots are free. */
  predicate Parked(ns: NodeStatus) { !IsAdvanceable(ns.state) || HandsOff(ns.message) }

  /** Switched off, paused, halted, or every node terminal, running its Job or not ours to touch. */
  predicate Idle(w: World, c: Ctx) {
    !Acts(c) || Halted(w, c) || forall i | 0 <= i < |ObserveAll(w, c)| :: Parked(ObserveAll(w, c)[i])
  }

  lemma {:induction false} IdleTurns(w: World, c: Ctx, k: nat)
    requires Undisputed(c) && k <= |Begin(w, c).states|
    requires forall i | 0 <= i < |Begin(w, c).states| :: Parked(Begin(w, c).states[i])
    ensures Turns(Begin(w, c), k, c) == Begin(w, c)
  {
    hide Begin, AdvanceNode, PodsToDrain;
    if k > 0 {
      IdleTurns(w, c, k - 1);
    }
  }

  lemma IdleAdvances(w: World, c: Ctx)
    requires Undisputed(c) && Listing(w, c) && Idle(w, c)
    ensures Advanced(w, c) == Begin(w, c)
    ensures Begin(w, c).w == w && Begin(w, c).states == ObserveAll(w, c)
    ensures forall n <- Begin(w, c).local :: Begin(w, c).local[n] == w.nodes[n]
  {
    hide Turns, ObserveAll, Parked;
    LocalMeans(w, c);
    if Acts(c) && !Halted(w, c) {
      IdleTurns(w, c, |Begin(w, c).states|);
    }
  }

  // ---- Mirrors in place -------------------------------------------------------------

  /** The node already shows its state, and its version once done. */
  predicate Mirrored(n: Node, st: NodeState, c: Ctx) {
    && Get(n.labels, UpgradeState) == StateName(st)
    && (st.Done? ==> n.currentVersion == Readback(c.spec) && Get(n.labels, FWVersion) == Readback(c.spec))
  }

  lemma TidySiteMirrored(site: Site, c: Ctx)
    requires Fresh(site) && Undisputed(c)
    ensures Fresh(TidySite(site, c)) && Mirrored(TidySite(site, c).server, site.ns.state, c)
  {
    hide StateName, Readback, Logged;
  }

  lemma TidySiteIdle(site: Site, c: Ctx)
    requires Mirrored(site.mine, site.ns.state, c)
    ensures TidySite(site, c) == site
  {
  }

  ghost predicate AllFresh(s: Pass)
    requires Sane(s)
  {
    forall n <- s.local :: s.local[n] == s.w.nodes[n]
  }

  /** The status pass leaves every node of ours mirrored. */
  lemma {:induction false} TidyAllMirrored(s: Pass, states: seq<NodeStatus>, c: Ctx)
    requires Sane(s) && AllFresh(s) && Undisputed(c) && OnePerName(states)
    ensures var t := TidyAll(s, states, c);
            && AllFresh(t) && t.local.Keys == s.local.Keys
            && (forall i | 0 <= i < |states| && states[i].name in s.local ::
                  Mirrored(t.w.nodes[states[i].name], states[i].state, c))
  {
    hide Mirrored, TidySite, Undisputed;
    if states != [] {
      var shorter, last := states[..|states| - 1], states[|states| - 1];
      TidyAllMirrored(s, shorter, c);
      var t := TidyAll(s, shorter, c);
      if last.name in t.local {
        TidySiteMirrored(SiteOf(t, last, c), c);
        TidySiteMirrors(SiteOf(t, last, c), c);
      }
      forall i | 0 <= i < |shorter|
        ensures states[i] == shorter[i] && states[i].name != last.name
      {
      }
    }
  }

  /** With every mirror in place the status pass writes nothing. */
  lemma {:induction false} TidyAllIdle(s: Pass, states: seq<NodeStatus>, c: Ctx)
    requires Sane(s) && AllFresh(s)
    requires forall i | 0 <= i < |states| && states[i].name in s.local ::
              Mirrored(s.w.nodes[states[i].name], states[i].state, c)
    ensures TidyAll(s, states, c).w == s.w
    ensures TidyAll(s, states, c) == s
  {
    hide Mirrored, TidySite;
    if states != [] {
      var shorter, last := states[..|states| - 1], states[|states| - 1];
      forall i | 0 <= i < |shorter| && shorter[i].name in s.local
        ensures Mirrored(s.w.nodes[shorter[i].name], shorter[i].state, c)
      {
        assert states[i] == shorter[i];
      }
      TidyAllIdle(s, shorter, c);
      if last.name in s.local {
        TidySiteIdle(SiteOf(s, last, c), c);
        PutBackSame(s, SiteOf(s, last, c), c);
      }
    }
  }

  lemma PutBackSame(s: Pass, site: Site, c: Ctx)
    requires Sane(s) && site.ns.name in s.local && site == SiteOf(s, site.ns, c)
    ensures PutBack(s, site, c) == s
  {
    assert s.w.nodes[site.ns.name := site.server] == s.w.nodes;
    assert s.local[site.ns.name := site.mine] == s.local;
  }

  // ---- The second look --------------------------------------------------------------

  /** The cluster a first idle reconcile leaves, as far as observation goes. */
  ghost predicate OnlyMirrored(w: World, v: World) {
    && v.nodes.Keys == w.nodes.Keys && v.jobs == w.jobs && v.pods == w.pods
    && (forall n <- w.nodes :: OnlyMirrors(w.nodes[n], v.nodes[n]))
  }

  /** The same policy and the same answers, a moment later, with no drain deadline in between. */
  ghost predicate MomentLater(w: World, c: Ctx, d: Ctx) {
    d == c.(now := d.now) && forall n <- w.nodes :: InTime(w.nodes[n], c) == InTime(w.nodes[n], d)
  }

  predicate LooksAlike(a: NodeStatus, b: NodeStatus) {
    a.name == b.name && a.state == b.state && a.reason == b.reason && HandsOff(a.message) == HandsOff(b.message)
  }

  lemma JobAlike(name: string, a: Node, b: Node, job: Job, c: Ctx, d: Ctx)
    requires d == c.(now := d.now) && a.cordon == b.cordon
    ensures LooksAlike(ObserveJob(name, a, job, c), ObserveJob(name, b, job, d))
  {
  }

  lemma DrainAlike(w: World, v: World, name: string, a: Node, b: Node, c: Ctx, d: Ctx)
    requires d == c.(now := d.now) && a.cordon == b.cordon && a.unschedulable == b.unschedulable
    requires w.pods == v.pods && InTime(a, c) == InTime(a, d)
    ensures LooksAlike(ObserveDrain(w, name, a, c), ObserveDrain(v, name, b, d))
  {
    hide DevicePods;
  }

  lemma ObserveAlike(w: World, v: World, n: string, c: Ctx, d: Ctx)
    requires OnlyMirrored(w, v) && MomentLater(w, c, d) && n in w.nodes
    ensures LooksAlike(Observe(w, n, w.nodes[n], c), Observe(v, n, v.nodes[n], d))
  {
    hide ObserveJob, ObserveDrain, OnlyMirrors, InTime;
    MirrorsCore(w.nodes[n], v.nodes[n]);
    if JobFor(n, c) in w.jobs {
      JobAlike(n, w.nodes[n], v.nodes[n], w.jobs[JobFor(n, c)], c, d);
    }
    DrainAlike(w, v, n, w.nodes[n], v.nodes[n], c, d);
  }

  lemma IdleLeaves(w: World, c: Ctx)
    requires Undisputed(c) && Listing(w, c) && Lists(w, c) && Idle(w, c)
    ensures OnlyMirrored(w, Reconcile(w, c).w)
  {
    hide Advanced, Reconcile, OnlyMirrors, Undisputed, Idle, ObserveAll, Begin;
    IdleAdvances(w, c);
    ReconcileLeaves(w, c);
  }

  lemma {:induction false} PartitionAlike(w: World, v: World, c: Ctx, d: Ctx, order: seq<string>, mine: bool)
    requires v.nodes.Keys == w.nodes.Keys && d.cr == c.cr
    requires forall n <- w.nodes ::
              Matches(w.nodes[n], c) == Matches(v.nodes[n], d) && Owner(w.nodes[n]) == Owner(v.nodes[n])
    ensures Partition(w, c, order, mine) == Partition(v, d, order, mine)
  {
    hide Matches, Owner;
    if order != [] {
      PartitionAlike(w, v, c, d, order[..|order| - 1], mine);
    }
  }

  lemma SecondLook(w: World, c: Ctx, d: Ctx)
    requires Undisputed(c) && Listing(w, c) && Lists(w, c) && Idle(w, c)
    requires MomentLater(w, c, d) && Ignores(c.spec.selector, OPERATOR_KEYS)
    ensures var v := Reconcile(w, c).w;
            && |ObserveAll(v, d)| == |ObserveAll(w, c)|
            && (forall i | 0 <= i < |ObserveAll(w, c)| :: LooksAlike(ObserveAll(w, c)[i], ObserveAll(v, d)[i]))
  {
    hide Reconcile, Matches, Owner, Observe, Undisputed, Idle, Listing, OnlyMirrored, LooksAlike;
    var v := Reconcile(w, c).w;
    IdleLeaves(w, c);
    MirroredNodes(w, v);
    forall n <- w.nodes
      ensures Matches(w.nodes[n], c) == Matches(v.nodes[n], d)
      ensures LooksAlike(Observe(w, n, w.nodes[n], c), Observe(v, n, v.nodes[n], d))
    {
      MatchedSetStable(w, c, d, n);
      MatchesAtAnyTime(w.nodes[n], c, d);
      ObserveAlike(w, v, n, c, d);
    }
    PartitionAlike(w, v, c, d, c.api.order, true);
    PartitionAlike(w, v, c, d, c.api.order, false);
    var mine := Partition(w, c, c.api.order, true);
    forall i | 0 <= i < |ObserveAll(w, c)|
      ensures LooksAlike(ObserveAll(w, c)[i], ObserveAll(v, d)[i])
    {
      if i < |mine| {
        assert mine[i] in mine;
      } else {
        ConflictAlike(ObserveAll(w, c)[i]);
      }
    }
  }

  lemma ConflictAlike(ns: NodeStatus)
    ensures LooksAlike(ns, ns)
  {
  }

  lemma MirroredNodes(w: World, v: World)
    requires OnlyMirrored(w, v)
    ensures v.nodes.Keys == w.nodes.Keys && v.jobs == w.jobs && v.pods == w.pods
    ensures forall n <- w.nodes :: Owner(w.nodes[n]) == Owner(v.nodes[n])
  {
  }

  lemma MatchesAtAnyTime(n: Node, c: Ctx, d: Ctx)
    requires d == c.(now := d.now)
    ensures Matches(n, c) == Matches(n, d)
  {
  }

  // ---- The second reconcile ---------------------------------------------------------

  lemma StillIdle(w: World, c: Ctx, v: World, d: Ctx)
    requires Idle(w, c) && |ObserveAll(v, d)| == |ObserveAll(w, c)| && d == c.(now := d.now)
    requires forall i | 0 <= i < |ObserveAll(w, c)| :: LooksAlike(ObserveAll(w, c)[i], ObserveAll(v, d)[i])
    ensures Idle(v, d) && Halted(v, d) == Halted(w, c)
  {
    hide ObserveAll;
    var a, b := ObserveAll(w, c), ObserveAll(v, d);
    forall i | 0 <= i < |a|
      ensures a[i].state == b[i].state && Parked(a[i]) == Parked(b[i])
    {
      assert LooksAlike(a[i], b[i]);
    }
  }

  lemma ExplainAlike(a: NodeStatus, b: NodeStatus, c: Ctx, d: Ctx, halted: bool)
    requires LooksAlike(a, b) && d == c.(now := d.now)
    ensures Explain(a, c, halted).state == Explain(b, d, halted).state
    ensures Explain(a, c, halted).reason == Explain(b, d, halted).reason
    ensures Explain(b, d, halted).name == a.name && Explain(b, d, halted).state == a.state
  {
  }

  /** What the second reconcile is about to publish is what the first one published. */
  lemma NothingMoved(w: World, c: Ctx, d: Ctx, i: nat)
    requires Undisputed(c) && Listing(w, c) && Lists(w, c) && Idle(w, c)
    requires MomentLater(w, c, d) && Ignores(c.spec.selector, OPERATOR_KEYS)
    requires var v := Reconcile(w, c).w; Listing(v, d) && i < |ObserveAll(v, d)|
    ensures var v := Reconcile(w, c).w;
            && Advanced(v, d) == Begin(v, d)
                  && |Explained(Advanced(v, d).states, d, Halted(v, d))| == |ObserveAll(v, d)| == |Settled(w, c)|
            && var ns, was := Explained(Advanced(v, d).states, d, Halted(v, d))[i], Settled(w, c)[i];
               ns.name == was.name && ns.state == was.state && ns.reason == was.reason
  {
    hide Reconcile, ObserveAll, Explain, LooksAlike, Idle, Halted, Begin, Turns, Undisputed, Listing, MomentLater,
         Unmoved;
    var v := Reconcile(w, c).w;
    SecondLook(w, c, d);
    SameContext(w, c, d);
    StillIdle(w, c, v, d);
    IdleAdvances(w, c);
    IdleAdvances(v, d);
    ExplainAlike(ObserveAll(w, c)[i], ObserveAll(v, d)[i], c, d, Halted(w, c));
    ExplainAlike(ObserveAll(w, c)[i], ObserveAll(w, c)[i], c, c,
          Halted(w, c)) by { ConflictAlike(ObserveAll(w, c)[i]); }
  }

  lemma SameContext(w: World, c: Ctx, d: Ctx)
    requires MomentLater(w, c, d)
    ensures d == c.(now := d.now) && (Undisputed(c) ==> Undisputed(d))
  {
  }

  lemma {:induction false} NoAnnouncements(states: seq<NodeStatus>, prev: seq<NodeStatus>)
    requires forall i | 0 <= i < |states| :: Unmoved(states[i], Find(prev, states[i].name))
    ensures Announcements(states, prev) == []
  {
    hide Find, Unmoved;
    if states != [] {
      var shorter := states[..|states| - 1];
      assert forall i | 0 <= i < |shorter| :: shorter[i] == states[i];
      NoAnnouncements(shorter, prev);
    }
  }

  lemma FindAt(states: seq<NodeStatus>, i: nat)
    requires OnePerName(states) && i < |states|
    ensures Find(states, states[i].name) == Some(states[i])
  {
    FindMeans(states, states[i].name);
  }

  lemma FirstPublished(w: World, c: Ctx, i: nat)
    requires Undisputed(c) && Listing(w, c) && Lists(w, c) && i < |Settled(w, c)|
    ensures Find(Published(Reconcile(w, c).w, c.cr), Settled(w, c)[i].name) == Some(Settled(w, c)[i])
  {
    hide Reconcile, Settled, Listing, Lists, Find, OnePerName, SameEntries, SortByName;
    CompletedWhen(w, c);
    ReconcileStatus(w, c, c.cr);
    PublishedEntries(w, c);
    SettledOnePerName(w, c);
    FindAnyOrder(Reconcile(w, c).states, Settled(w, c), Settled(w, c)[i].name);
    FindAt(Settled(w, c), i);
  }

  /** The first reconcile leaves each node of ours showing the state it published for it. */
  lemma FirstMirrors(w: World, c: Ctx, i: nat)
    requires Undisputed(c) && Listing(w, c) && Lists(w, c) && Idle(w, c) && i < |Settled(w, c)|
    requires Settled(w, c)[i].name in Begin(w, c).local
    ensures var n := Settled(w, c)[i].name;
            n in Reconcile(w, c).w.nodes && Mirrored(Reconcile(w, c).w.nodes[n], Settled(w, c)[i].state, c)
  {
    hide Settled, Advanced, Mirrored, Begin, Listing, Idle, OnePerName, Halted, SortByName, Announcements, Summarize,
         Explained, Undisputed, TidyAll;
    IdleAdvances(w, c);
    SettledOnePerName(w, c);
    AllFreshNow(w, c);
    TidyAllMirrored(Advanced(w, c), Settled(w, c), c);
    TidyAllMirrors(Advanced(w, c), Settled(w, c), c);
    LocalMeans(w, c);
    assert Reconcile(w, c).w.nodes == TidyAll(Advanced(w, c), Settled(w, c), c).w.nodes;
  }

  lemma AllFreshNow(w: World, c: Ctx)
    requires Begin(w, c).w == w
    requires forall n <- Begin(w, c).local :: Begin(w, c).local[n] == w.nodes[n]
    ensures AllFresh(Begin(w, c))
  {
    hide Begin;
  }

  lemma SettledIs(w: World, c: Ctx, i: nat)
    requires i < |Advanced(w, c).states|
    ensures |Settled(w, c)| == |Advanced(w, c).states|
    ensures var ns := Explained(Advanced(w, c).states, c, Halted(w, c))[i];
            Settled(w, c)[i].name == ns.name && Settled(w, c)[i].state == ns.state
  {
    hide Advanced, Halted, Explain;
  }

  lemma StillListing(w: World, c: Ctx, d: Ctx)
    requires Undisputed(c) && Listing(w, c) && Lists(w, c) && Idle(w, c) && MomentLater(w, c, d)
    ensures Listing(Reconcile(w, c).w, d) && Lists(Reconcile(w, c).w, d)
  {
    hide Reconcile, Idle, Undisputed, OnlyMirrors, InTime;
    IdleLeaves(w, c);
  }

  lemma SecondMirrored(w: World, c: Ctx, d: Ctx, i: nat)
    requires Undisputed(c) && Listing(w, c) && Lists(w, c) && Idle(w, c)
    requires MomentLater(w, c, d) && Ignores(c.spec.selector, OPERATOR_KEYS)
    requires var v := Reconcile(w, c).w;
             Listing(v, d) && i < |Settled(v, d)| && Settled(v, d)[i].name in Begin(v, d).local
    ensures var v, ns := Reconcile(w, c).w, Settled(Reconcile(w, c).w, d)[i];
            ns.name in v.nodes && Mirrored(v.nodes[ns.name], ns.state, d)
  {
    hide Reconcile, Settled, Advanced, Listing, Idle, ObserveAll, Halted, Undisputed, OnlyMirrored, MomentLater,
         Begin, Matches, Lists, Explained;
    var v := Reconcile(w, c).w;
    SameContext(w, c, d);
    SettledNames(v, d);
    NothingMoved(w, c, d, i);
    SettledIs(v, d, i);
    LocalMeans(v, d);
    LocalMeans(w, c);
    SettledNames(w, c);
    ObservedAt(w, c, i);
    IdleLeaves(w, c);
    MirroredNodes(w, v);
    FirstMirrors(w, c, i);
  }

  /** Paused, switched off, halted or finished: a second reconcile of the unchanged cluster
      writes no node, creates no Job, evicts no pod and emits no event. */
  lemma SecondReconcileIsSilent(w: World, c: Ctx, d: Ctx)
    requires Undisputed(c) && Listing(w, c) && Lists(w, c) && Idle(w, c)
    requires MomentLater(w, c, d) && Ignores(c.spec.selector, OPERATOR_KEYS)
    ensures var v, r := Reconcile(w, c).w, Reconcile(Reconcile(w, c).w, d);
            && r.w.nodes == v.nodes && r.w.jobs == v.jobs && r.w.evicted == v.evicted && r.w.log == v.log
            && r.events == []
  {
    hide Listing, Idle, ObserveAll, Halted, Undisputed, MomentLater, Mirrored, Settled, Advanced, Begin, Lists,
         TidyAll, SortByName, Summarize, Explained, Announcements, Reconcile;
    var v := Reconcile(w, c).w;
    StillListing(w, c, d);
    SecondSettles(w, c, d);
    ReconcileIs(v, d);
  }

  lemma ReconcileIs(v: World, d: Ctx)
    requires Lists(v, d)
    ensures var r, t := Reconcile(v, d), TidyAll(Advanced(v, d), Settled(v, d), d).w;
            && r.w.nodes == t.nodes && r.w.jobs == t.jobs && r.w.evicted == t.evicted && r.w.log == t.log
            && r.events == Announcements(Explained(Advanced(v, d).states, d, Halted(v, d)), Published(v, d.cr))
  {
    hide Advanced, Settled, TidyAll, Announcements, Lists, SortByName, Summarize, Explained;
  }

  lemma SecondSettles(w: World, c: Ctx, d: Ctx)
    requires Undisputed(c) && Listing(w, c) && Lists(w, c) && Idle(w, c)
    requires MomentLater(w, c, d) && Ignores(c.spec.selector, OPERATOR_KEYS)
    requires Listing(Reconcile(w, c).w, d)
    ensures var v := Reconcile(w, c).w;
            && TidyAll(Advanced(v, d), Settled(v, d), d).w == v
            && Announcements(Explained(Advanced(v, d).states, d, Halted(v, d)), Published(v, d.cr)) == []
  {
    hide Listing, Idle, ObserveAll, Halted, Undisputed, MomentLater, Mirrored, Settled, Advanced, Begin, Lists,
         TidyAll, Explained, Announcements, Reconcile, Find;
    var v := Reconcile(w, c).w;
    var raw := Explained(Advanced(v, d).states, d, Halted(v, d));
    SameContext(w, c, d);
    SecondLook(w, c, d);
    StillIdle(w, c, v, d);
    IdleAdvances(v, d);
    SettledNames(v, d);
    SettledNames(w, c);
    forall i | 0 <= i < |raw|
      ensures Unmoved(raw[i], Find(Published(v, d.cr), raw[i].name))
    {
      ExplainedSize(v, d);
      NothingMoved(w, c, d, i);
      FirstPublished(w, c, i);
    }
    NoAnnouncements(raw, Published(v, d.cr));
    forall i | 0 <= i < |Settled(v, d)| && Settled(v, d)[i].name in Begin(v, d).local
      ensures Settled(v, d)[i].name in v.nodes && Mirrored(v.nodes[Settled(v, d)[i].name], Settled(v, d)[i].state, d)
    {
      SecondMirrored(w, c, d, i);
    }
    AllFreshNow(v, d);
    TidyAllIdle(Begin(v, d), Settled(v, d), d);
  }

  lemma ExplainedSize(w: World, c: Ctx)
    ensures |Explained(Advanced(w, c).states, c, Halted(w, c))| == |Advanced(w, c).states|
  {
    hide Advanced, Halted;
  }
}
