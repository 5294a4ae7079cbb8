/** Cordons against the cap: how many nodes a policy holds cordoned is no matter of maxParallel. */
module CordonCount {
  import opened Kube
  import opened Firmware
  import opened Selector
  import opened Passes
  import opened NodeLife
  import opened Progress
  import opened Matching
  import opened SmoothRound
  import opened Convergence

  /** Unschedulable under this policy's mark. */
  predicate Holds(n: Node, cr: string) { n.unschedulable && n.cordon.owner == cr }

  /** The matched nodes the policy holds cordoned, those it is due to cordon, and those it is due to give back. */
  function Cordons(w: World, c: Ctx): set<string> {
    set n | n in w.nodes && Matches(w.nodes[n], c) && Holds(w.nodes[n], c.cr)
  }

  function Due(w: World, c: Ctx): set<string> {
    set n | n in w.nodes && Matches(w.nodes[n], c) && Stage(w, n, c).Cordoning?
  }

  function Leaving(w: World, c: Ctx): set<string> {
    set n | n in w.nodes && Matches(w.nodes[n], c) && Holds(w.nodes[n], c.cr) && Stage(w, n, c).Uncordoning?
  }

  /** What a smooth action does to the cordon: places it, lifts it, or leaves it. */
  lemma MoveHolds(w: World, c: Ctx, n: string, site: Site, pods: seq<Pod>)
    requires Smooth(c) && n in w.nodes && site.server == site.mine == w.nodes[n] && c.cr != ""
    requires site.ns.state == Stage(w, n, c)
    ensures Holds(AdvanceNode(site, pods, c).site.server, c.cr) <==>
            (Stage(w, n, c).Cordoning? || (Holds(w.nodes[n], c.cr) && !Stage(w, n, c).Uncordoning?))
  {
    hide AdvanceNode, PodsToDrain;
    SmoothMove(site, pods, c);
    MoveParts(site, pods, c);
  }

  lemma MoveOnHolds(w: World, c: Ctx, i: nat)
    requires Smooth(c) && Listing(w, c) && AllRollable(w, c) && i < |Begin(w, c).states|
    ensures var n := Begin(w, c).states[i].name;
            n in w.nodes && (Holds(MoveOn(w, c, i).server, c.cr) <==>
            (Stage(w, n, c).Cordoning? || (Holds(w.nodes[n], c.cr) && !Stage(w, n, c).Uncordoning?)))
  {
    hide Begin, ObserveAll, Smooth, AllRollable, Stage, AdvanceNode, Halted, SlotsAt, PodsAt, Holds, Advances, Matches;
    var ns := Begin(w, c).states[i];
    NeverHalts(w, c);
    FleetIsOurs(w, c, ns.name);
    MoveHolds(w, c, ns.name, FoundSite(w, ns, c), PodsAt(w, c, i));
  }

  /** After a smooth round a matched node is held if it was due, or if it was held and is not being given back. */
  lemma RoundHolds(w: World, c: Ctx, n: string)
    requires Smooth(c) && Listing(w, c) && AllRollable(w, c) && n in w.nodes && Matches(w.nodes[n], c)
    ensures n in Round(w, c).nodes
    ensures Holds(Round(w, c).nodes[n], c.cr) <==>
            (Stage(w, n, c).Cordoning? || (Holds(w.nodes[n], c.cr) && !Stage(w, n, c).Uncordoning?))
  {
    hide Begin, Reconcile, ObserveAll, Listing, Smooth, AllRollable, Stage, OnlyMirrors, MoveOn, Matches, Halted;
    var i := ObservedCovers(w, c, n);
    LocalMeans(w, c);
    NeverHalts(w, c);
    ReconcileMoves(w, c, i);
    MoveOnHolds(w, c, i);
    MirrorsCore(MoveOn(w, c, i).server, Reconcile(w, c).w.nodes[n]);
  }

  lemma DueIsNotHeld(w: World, c: Ctx, n: string)
    requires n in w.nodes && Stage(w, n, c).Cordoning?
    ensures !w.nodes[n].unschedulable
  {
  }

  /** One smooth round newly cordons exactly the nodes that are due, all of them, and gives back those it is due to. */
  lemma RoundCordons(w: World, c: Ctx)
    requires Smooth(c) && Listing(w, c) && AllRollable(w, c) && Ignores(c.spec.selector, OPERATOR_KEYS)
    ensures Cordons(Round(w, c), c) - Cordons(w, c) == Due(w, c)
    ensures Cordons(Round(w, c), c) == Cordons(w, c) - Leaving(w, c) + Due(w, c)
  {
    hide Round, Smooth, Listing, AllRollable, Stage, Matches, Ignores;
    SmoothLists(c);
    RoundFleet(w, c);
    forall n
      ensures n in Cordons(Round(w, c), c) <==> n in Cordons(w, c) - Leaving(w, c) + Due(w, c)
      ensures n in Due(w, c) ==> n !in Cordons(w, c)
    {
      assert n in Fleet(Round(w, c), c) <==> n in Fleet(w, c);
      if n in Fleet(w, c) {
        RoundHolds(w, c, n);
        if n in Due(w, c) { DueIsNotHeld(w, c, n); }
      }
    }
  }

  /** So the nodes held cordoned stay within the cap exactly when those that stay and those that are due together
      do; how many slots are taken plays no part. */
  lemma CordonsWithinCapExactlyWhen(w: World, c: Ctx)
    requires Smooth(c) && Listing(w, c) && AllRollable(w, c) && Ignores(c.spec.selector, OPERATOR_KEYS)
    ensures |Cordons(Round(w, c), c)| <= MaxParallel(c.spec) <==>
            |Cordons(w, c)| - |Leaving(w, c)| + |Due(w, c)| <= MaxParallel(c.spec)
  {
    hide Round, Smooth, Listing, AllRollable, Cordons, Leaving, Due, MaxParallel, Ignores;
    RoundCordons(w, c);
    LeavingAreHeld(w, c);
    var stay := Cordons(w, c) - Leaving(w, c);
    assert Cordons(w, c) == stay + Leaving(w, c);
    assert Due(w, c) !! stay;
  }

  lemma LeavingAreHeld(w: World, c: Ctx)
    ensures Leaving(w, c) <= Cordons(w, c)
  {
    hide Stage, Matches;
  }
}
