/** The whole advance loop of a reconcile: every node is met once, untouched until its turn and after it. */
module Passes {
  import opened Kube
  import opened Selector
  import opened Firmware
  import opened Steps

  /** A reconcile of a named policy whose node listing is complete and free of duplicates. */
  ghost predicate Listing(w: World, c: Ctx) {
    c.cr != "" && Walks(c.api.order, w.nodes.Keys)
  }

  /** Nobody interferes while the reconcile runs. */
  ghost predicate NoInterference(c: Ctx) {
    c.api.beforeCount == [] && forall i :: c.api.before(i) == []
  }

  lemma {:induction false} PartitionDistinct(w: World, c: Ctx, order: seq<string>, mine: bool)
    requires Distinct(order)
    ensures Distinct(Partition(w, c, order, mine))
  {
    if order != [] {
      var shorter, n := order[..|order| - 1], order[|order| - 1];
      PartitionDistinct(w, c, shorter, mine);
      var rest := Partition(w, c, shorter, mine);
      assert n !in rest;
      forall i | 0 <= i < |rest|
        ensures rest[i] != n
      {
        assert rest[i] in rest;
      }
    }
  }

  /** The local copies are exactly the listed nodes the policy matches and may own. */
  lemma LocalMeans(w: World, c: Ctx)
    requires Listing(w, c)
    ensures var s := Begin(w, c);
            && (forall n :: n in s.local <==> n in w.nodes && Matches(w.nodes[n], c) && Claimable(w.nodes[n], c.cr))
            && (forall n <- s.local :: s.local[n] == w.nodes[n])
            && s.w.nodes == w.nodes && s.w.log == w.log && s.w.status == w.status && s.w.evicted == w.evicted
            && s.states == ObserveAll(w, c)
  {
    InterfereKeeps(w, c.api.beforeCount);
  }

  /** State `i` is the observation of a matched node we may own, or a reported conflict. */
  lemma ObservedAt(w: World, c: Ctx, i: nat)
    requires Listing(w, c) && i < |ObserveAll(w, c)|
    ensures var ns := ObserveAll(w, c)[i];
            && ns.name in w.nodes && Matches(w.nodes[ns.name], c)
            && (Claimable(w.nodes[ns.name], c.cr) ==> ns == Observe(w, ns.name, w.nodes[ns.name], c))
            && (!Claimable(w.nodes[ns.name], c.cr) ==> ns == Conflicted(ns.name))
  {
    hide Observe;
    var mine, theirs := Partition(w, c, c.api.order, true), Partition(w, c, c.api.order, false);
    if i < |mine| {
      assert mine[i] in mine;
    } else {
      assert theirs[i - |mine|] in theirs;
    }
  }

  /** Every matched node has its state. */
  lemma ObservedCovers(w: World, c: Ctx, n: string) returns (i: nat)
    requires Listing(w, c) && n in w.nodes && Matches(w.nodes[n], c)
    ensures i < |ObserveAll(w, c)| && ObserveAll(w, c)[i].name == n
  {
    hide Observe;
    var mine, theirs := Partition(w, c, c.api.order, true), Partition(w, c, c.api.order, false);
    if Claimable(w.nodes[n], c.cr) {
      i :| 0 <= i < |mine| && mine[i] == n;
    } else {
      var j :| 0 <= j < |theirs| && theirs[j] == n;
      i := |mine| + j;
    }
  }

  lemma ObservedDistinct(w: World, c: Ctx, i: nat, j: nat)
    requires Listing(w, c) && i < j < |ObserveAll(w, c)|
    ensures ObserveAll(w, c)[i].name != ObserveAll(w, c)[j].name
  {
    hide Observe;
    PartitionDistinct(w, c, c.api.order, true);
    PartitionDistinct(w, c, c.api.order, false);
    var mine, theirs := Partition(w, c, c.api.order, true), Partition(w, c, c.api.order, false);
    if j < |mine| {
      assert mine[i] != mine[j];
    } else if i < |mine| {
      assert mine[i] in mine && theirs[j - |mine|] in theirs;
    } else {
      assert theirs[i - |mine|] != theirs[j - |mine|];
    }
  }

  // ---- Before and after a node's turn -----------------------------------------------

  /** Did one of the first `k` turns belong to node `n`? */
  predicate Met(states: seq<NodeStatus>, k: nat, n: string)
    requires k <= |states|
  {
    exists j :: 0 <= j < k && states[j].name == n
  }

  /** After `k` turns: later states as observed, nodes not met yet untouched on both sides. */
  predicate Shape(w: World, c: Ctx, s: Pass, k: nat) {
    var s0 := Begin(w, c);
    && |s.states| == |s0.states| && k <= |s.states|
    && s.local.Keys == s0.local.Keys && s.w.nodes.Keys == w.nodes.Keys
    && (forall j | 0 <= j < |s.states| :: s.states[j].name == s0.states[j].name)
    && (forall j | k <= j < |s.states| :: s.states[j] == s0.states[j])
    && (forall n <- w.nodes :: !Met(s0.states, k, n) || n !in s0.local ==> s.w.nodes[n] == w.nodes[n])
    && (forall n <- s0.local :: !Met(s0.states, k, n) ==> s.local[n] == w.nodes[n])
    && s.w.status == w.status
  }

  lemma NotMetBefore(w: World, c: Ctx, k: nat)
    requires Listing(w, c) && k < |ObserveAll(w, c)|
    ensures !Met(ObserveAll(w, c), k, ObserveAll(w, c)[k].name)
  {
    forall j | 0 <= j < k
      ensures ObserveAll(w, c)[j].name != ObserveAll(w, c)[k].name
    {
      ObservedDistinct(w, c, j, k);
    }
  }

  lemma ShapeStep(w: World, c: Ctx, s: Pass, t: Pass, k: nat)
    requires Shape(w, c, s, k) && k < |s.states|
    requires OnlyNode(s, t, s.states[k].name)
    requires |t.states| == |s.states| && t.states == s.states[k := t.states[k]] && t.states[k].name == s.states[k].name
    ensures Shape(w, c, t, k + 1)
  {
    hide Begin;
    var s0 := Begin(w, c);
    forall n
      ensures Met(s0.states, k + 1, n) <==> Met(s0.states, k, n) || n == s0.states[k].name
    {
    }
  }

  lemma ShapeStart(w: World, c: Ctx)
    requires Listing(w, c)
    ensures Shape(w, c, Begin(w, c), 0)
  {
    hide ObserveAll;
    LocalMeans(w, c);
  }

  lemma ShapeFresh(w: World, c: Ctx, s: Pass, k: nat)
    requires Listing(w, c) && Shape(w, c, s, k) && k < |s.states|
    ensures Sane(s) && FreshAt(s, k)
  {
    hide ObserveAll;
    LocalMeans(w, c);
    NotMetBefore(w, c, k);
  }

  lemma {:induction false} PassShape(w: World, c: Ctx, k: nat)
    requires Listing(w, c) && k <= |Begin(w, c).states|
    ensures Shape(w, c, Turns(Begin(w, c), k, c), k)
    ensures k < |Begin(w, c).states| ==> FreshAt(Turns(Begin(w, c), k, c), k)
  {
    hide Turn, ObserveAll, Begin, Shape, OnlyNode, FreshAt, MoveAt;
    if k == 0 {
      ShapeStart(w, c);
    } else {
      PassShape(w, c, k - 1);
      var s := Turns(Begin(w, c), k - 1, c);
      TurnFrame(s, k - 1, c);
      ShapeStep(w, c, s, Turn(s, k - 1, c), k - 1);
    }
    if k < |Begin(w, c).states| {
      ShapeFresh(w, c, Turns(Begin(w, c), k, c), k);
    }
  }

  // ---- The status pass at the end ---------------------------------------------------

  /** Publishing writes two labels and one annotation on nodes of ours, and nothing else. */
  ghost predicate Tidied(s: Pass, t: Pass) {
    && t.w.nodes.Keys == s.w.nodes.Keys && t.local.Keys == s.local.Keys
    && t.w == s.w.(nodes := t.w.nodes) && t.states == s.states
    && (forall n <- s.w.nodes :: n !in s.local ==> t.w.nodes[n] == s.w.nodes[n])
    && (forall n <- s.w.nodes :: OnlyMirrors(s.w.nodes[n], t.w.nodes[n]))
  }

  /** Two versions of a node that differ at most in what the operator mirrors onto it. */
  ghost predicate OnlyMirrors(a: Node, b: Node) {
    && SameCore(a, b) && b.(labels := a.labels, currentVersion := a.currentVersion) == a
    && (forall k :: k != UpgradeState && k != FWVersion ==> (k in a.labels <==> k in b.labels))
    && (forall k <- a.labels :: k != UpgradeState && k != FWVersion ==> b.labels[k] == a.labels[k])
  }

  lemma PatchMirrors(site: Site, needed: bool, e: Edit, kind: Write, c: Ctx)
    requires e.NoteVersion? || (e.SetLabel? && (e.key == UpgradeState || e.key == FWVersion))
    ensures var r := PatchIf(site, needed, e, kind, c);
            r == site.(server := r.server, mine := r.mine) && OnlyMirrors(site.server, r.server)
  {
  }

  lemma TidySiteMirrors(site: Site, c: Ctx)
    ensures var r := TidySite(site, c);
            r == site.(server := r.server, mine := r.mine) && OnlyMirrors(site.server, r.server)
  {
    hide PatchIf;
    var want, back := StateName(site.ns.state), Readback(c.spec);
    var s1 := PatchIf(site, Get(site.mine.labels, UpgradeState) != want, SetLabel(UpgradeState, want), StateLabel, c);
    PatchMirrors(site, Get(site.mine.labels, UpgradeState) != want, SetLabel(UpgradeState, want), StateLabel, c);
    var s2 := PatchIf(s1, s1.mine.currentVersion != back, NoteVersion(back), VersionNote, c);
    PatchMirrors(s1, s1.mine.currentVersion != back, NoteVersion(back), VersionNote, c);
    PatchMirrors(s2, Get(s2.mine.labels, FWVersion) != back, SetLabel(FWVersion, back), VersionLabel, c);
  }

  lemma TidyOne(s: Pass, ns: NodeStatus, c: Ctx)
    requires Sane(s)
    ensures Tidied(s, Tidy(s, ns, c))
  {
    hide TidySite;
    if ns.name in s.local {
      TidySiteMirrors(SiteOf(s, ns, c), c);
    }
  }

  lemma MirrorsCore(a: Node, b: Node)
    requires OnlyMirrors(a, b)
    ensures SameCore(a, b)
  {
  }

  lemma MirrorsCompose(a: Node, b: Node, d: Node)
    requires OnlyMirrors(a, b) && OnlyMirrors(b, d)
    ensures OnlyMirrors(a, d)
  {
  }

  lemma TidiedCompose(s: Pass, t: Pass, u: Pass)
    requires Tidied(s, t) && Tidied(t, u)
    ensures Tidied(s, u)
  {
    hide OnlyMirrors;
    forall n <- s.w.nodes
      ensures OnlyMirrors(s.w.nodes[n], u.w.nodes[n])
    {
      assert OnlyMirrors(s.w.nodes[n], t.w.nodes[n]) && OnlyMirrors(t.w.nodes[n], u.w.nodes[n]);
      MirrorsCompose(s.w.nodes[n], t.w.nodes[n], u.w.nodes[n]);
    }
  }

  lemma TidiedSame(s: Pass)
    ensures Tidied(s, s)
  {
  }

  lemma {:induction false} TidyAllMirrors(s: Pass, states: seq<NodeStatus>, c: Ctx)
    requires Sane(s)
    ensures Tidied(s, TidyAll(s, states, c))
  {
    hide Tidy, Tidied;
    if states == [] {
      TidiedSame(s);
    } else {
      var t := TidyAll(s, states[..|states| - 1], c);
      TidyAllMirrors(s, states[..|states| - 1], c);
      TidyOne(t, states[|states| - 1], c);
      TidiedCompose(s, t, Tidy(t, states[|states| - 1], c));
    }
  }

  /** The cluster a completed reconcile leaves: the advance loop's, up to mirrors and status. */
  lemma ReconcileLeaves(w: World, c: Ctx)
    ensures var r := Reconcile(w, c).w;
            && (Lists(w, c) ==>
                  var s := Advanced(w, c);
                  && r.jobs == s.w.jobs && r.pods == s.w.pods && r.evicted == s.w.evicted && r.log == s.w.log
                  && r.nodes.Keys == s.w.nodes.Keys
                  && (forall n <- r.nodes :: OnlyMirrors(s.w.nodes[n], r.nodes[n]))
                  && (forall n <- r.nodes :: n !in s.local ==> r.nodes[n] == s.w.nodes[n]))
            && (!Lists(w, c) ==> r == w || r == Interfere(w, c.api.beforeCount))
  {
    hide Advanced, Settled, TidyAll;
    if Lists(w, c) {
      TidyAllMirrors(Advanced(w, c), Settled(w, c), c);
    }
  }
}
