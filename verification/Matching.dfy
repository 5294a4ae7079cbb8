/** The matched set is stable: a selector that looks at none of the operator's own labels selects
    the same nodes before and after any reconcile. */
module Matching {
  import opened Kube
  import opened Selector
  import opened Firmware
  import opened Steps
  import opened Passes
  import opened NodeLife
  import opened Progress

  const OPERATOR_KEYS: set<LabelKey> := {OwnerCR, UpgradeState, FWVersion}

  /** Same labels but for the operator's own. */
  ghost predicate SameUserLabels(a: Node, b: Node) {
    forall k | k !in OPERATOR_KEYS ::
          (k in a.labels <==> k in b.labels) && (k in a.labels ==> a.labels[k] == b.labels[k])
  }

  lemma MatchesAlike(a: Node, b: Node, c: Ctx)
    requires SameUserLabels(a, b) && Ignores(c.spec.selector, OPERATOR_KEYS)
    ensures Matches(a, c) == Matches(b, c)
  {
    SelectsIgnoring(c.spec.selector, OPERATOR_KEYS, a.labels, b.labels);
    assert FirmwareSkip !in OPERATOR_KEYS && Present !in OPERATOR_KEYS;
  }

  lemma StepLabels(site: Site, pods: seq<Pod>, c: Ctx)
    ensures CordonStep(site, c).site.server.labels == site.server.labels
    ensures UncordonStep(site, c).site.server.labels == site.server.labels
    ensures DrainStep(site, pods, c).site.server == site.server
  {
  }

  lemma SpawnLabels(site: Site, c: Ctx)
    ensures SameUserLabels(site.server, SpawnFlashJob(site, c).site.server)
  {
  }

  lemma AdvanceLabels(site: Site, pods: seq<Pod>, c: Ctx)
    requires Fresh(site)
    ensures SameUserLabels(site.server, AdvanceNode(site, pods, c).site.server)
  {
    hide CordonStep, UncordonStep, DrainStep, SpawnFlashJob, ClaimOwnership;
    ClaimFrame(site, c);
    StepLabels(ClaimOwnership(site, c).site, pods, c);
    SpawnLabels(ClaimOwnership(site, c).site, c);
  }

  lemma ReconcileLabels(w: World, c: Ctx, name: string)
    requires Listing(w, c) && name in w.nodes
    ensures var r := Reconcile(w, c).w;
            name in r.nodes && SameUserLabels(w.nodes[name], r.nodes[name])
  {
    hide Reconcile, Begin, ObserveAll, Listing, Lists, Matches, Claimable, OnlyMirrors, MoveOn, SameUserLabels;
    if Lists(w, c) && Matches(w.nodes[name], c) && Claimable(w.nodes[name], c.cr) {
      LocalMeans(w, c);
      var i := ObservedCovers(w, c, name);
      ReconcileMoves(w, c, i);
      MoveLabels(w, c, i);
      MirrorLabels(w.nodes[name], MoveOn(w, c, i).server, Reconcile(w, c).w.nodes[name]);
    } else {
      ReconcileSkipsUnlisted(w, c, name);
      SameLabels(w.nodes[name]);
    }
  }

  lemma SameLabels(a: Node)
    ensures SameUserLabels(a, a)
  {
  }

  lemma MoveLabels(w: World, c: Ctx, i: nat)
    requires i < |Begin(w, c).states| && Begin(w, c).states[i].name in w.nodes
    ensures SameUserLabels(w.nodes[Begin(w, c).states[i].name], MoveOn(w, c, i).server)
  {
    hide Begin, AdvanceNode, Advances, Takes, SameUserLabels;
    AdvanceLabels(FoundSite(w, Begin(w, c).states[i], c), PodsAt(w, c, i), c);
    SameLabels(w.nodes[Begin(w, c).states[i].name]);
  }

  lemma MirrorLabels(a: Node, b: Node, d: Node)
    requires SameUserLabels(a, b) && OnlyMirrors(b, d)
    ensures SameUserLabels(a, d)
  {
  }

  /** No reconcile of any policy changes which nodes a policy's selector picks. */
  lemma MatchedSetStable(w: World, d: Ctx, c: Ctx, name: string)
    requires Listing(w, d) && name in w.nodes && Ignores(c.spec.selector, OPERATOR_KEYS)
    ensures var r := Reconcile(w, d).w;
            name in r.nodes && Matches(r.nodes[name], c) == Matches(w.nodes[name], c)
  {
    hide Reconcile, Matches, SameUserLabels, Listing;
    ReconcileLabels(w, d, name);
    MatchesAlike(w.nodes[name], Reconcile(w, d).w.nodes[name], c);
  }
}
