/** One node across one reconcile: untouched until its turn, moved once, untouched after it. */
module NodeLife {
  import opened Kube
  import opened Firmware
  import opened Steps
  import opened Passes

  /** The pass when node `i` has its turn. */
  function AtTurn(w: World, c: Ctx, i: nat): (s: Pass)
    requires i <= |Begin(w, c).states|
    ensures Sane(s)
  {
    Turns(Begin(w, c), i, c)
  }

  predicate Advances(w: World, c: Ctx) { Lists(w, c) && Acts(c) && !Halted(w, c) }

  /** Which Jobs a node has cannot change before its turn or after it. */
  ghost predicate SameJobsOf(a: World, b: World, n: string) {
    forall id: JobId :: id.node == n ==> (id in a.jobs <==> id in b.jobs)
  }

  /** Node `n`, whose state is number `i`, is the same in both passes. */
  ghost predicate SameOn(s: Pass, t: Pass, i: nat, n: string) {
    && n in s.w.nodes && n in t.w.nodes && t.w.nodes[n] == s.w.nodes[n]
    && i < |s.states| == |t.states| && t.states[i] == s.states[i]
    && (n in t.local <==> n in s.local)
    && SameJobsOf(s.w, t.w, n)
  }

  lemma TurnElsewhere(s0: Pass, k: nat, c: Ctx, i: nat, n: string)
    requires Sane(s0) && k < |s0.states| && FreshAt(s0, k) && s0.states[k].name != n
    requires i < |s0.states| && i != k && n in s0.w.nodes
    ensures SameOn(s0, Turn(s0, k, c), i, n)
  {
    hide Turn, FreshAt, Acted, MoveAt;
    TurnFrame(s0, k, c);
    TurnJobs(s0, k, c);
    InterfereKeeps(s0.w, c.api.before(k));
  }

  /** Stepping past turn `k`, which is another node's, changes nothing about node `i`. */
  lemma PastTurn(w: World, c: Ctx, i: nat, k: nat)
    requires Listing(w, c) && i < |Begin(w, c).states| && k < |Begin(w, c).states| && i != k
    ensures SameOn(AtTurn(w, c, k), AtTurn(w, c, k + 1), i, Begin(w, c).states[i].name)
  {
    hide Turn, Begin, FreshAt, ObserveAll, SameOn, Shape, Listing;
    LocalMeans(w, c);
    ObservedAt(w, c, i);
    PassShape(w, c, k);
    ShapeNames(w, c, AtTurn(w, c, k), k);
    if i < k { ObservedDistinct(w, c, i, k); } else { ObservedDistinct(w, c, k, i); }
    TurnElsewhere(AtTurn(w, c, k), k, c, i, Begin(w, c).states[i].name);
  }

  lemma {:induction false} BeforeTurn(w: World, c: Ctx, i: nat, k: nat)
    requires Listing(w, c) && k <= i < |Begin(w, c).states|
    ensures SameOn(Begin(w, c), AtTurn(w, c, k), i, Begin(w, c).states[i].name)
  {
    hide Turn, Begin, ObserveAll, SameOn, Listing;
    var n := Begin(w, c).states[i].name;
    if k == 0 {
      LocalMeans(w, c);
      ObservedAt(w, c, i);
      SameAsItself(Begin(w, c), i, n);
    } else {
      BeforeTurn(w, c, i, k - 1);
      PastTurn(w, c, i, k - 1);
      SameCompose(Begin(w, c), AtTurn(w, c, k - 1), AtTurn(w, c, k), i, n);
    }
  }

  lemma SameAsItself(s: Pass, i: nat, n: string)
    requires i < |s.states| && n in s.w.nodes
    ensures SameOn(s, s, i, n)
  {
  }

  lemma SameCompose(s: Pass, t: Pass, u: Pass, i: nat, n: string)
    requires SameOn(s, t, i, n) && SameOn(t, u, i, n)
    ensures SameOn(s, u, i, n)
  {
  }

  lemma ShapeNames(w: World, c: Ctx, s: Pass, k: nat)
    requires Listing(w, c) && Shape(w, c, s, k)
    ensures |s.states| == |Begin(w, c).states| && s.w.nodes.Keys == w.nodes.Keys
    ensures forall j | 0 <= j < |s.states| :: s.states[j].name == Begin(w, c).states[j].name
  {
  }

  lemma BeginJobs(w: World, c: Ctx)
    ensures Begin(w, c).w == Interfere(w, c.api.beforeCount)
    ensures Begin(w, c).w.jobs.Keys == w.jobs.Keys
  {
    InterfereKeeps(w, c.api.beforeCount);
  }

  lemma {:induction false} AfterTurn(w: World, c: Ctx, i: nat, k: nat)
    requires Listing(w, c) && i < k <= |Begin(w, c).states|
    ensures SameOn(AtTurn(w, c, i + 1), AtTurn(w, c, k), i, Begin(w, c).states[i].name)
  {
    hide Turns, Begin, ObserveAll, SameOn, Listing, Shape;
    var n := Begin(w, c).states[i].name;
    if k == i + 1 {
      LocalMeans(w, c);
      ObservedAt(w, c, i);
      PassShape(w, c, k);
      ShapeNames(w, c, AtTurn(w, c, k), k);
      SameAsItself(AtTurn(w, c, k), i, n);
    } else {
      AfterTurn(w, c, i, k - 1);
      PastTurn(w, c, i, k - 1);
      SameCompose(AtTurn(w, c, i + 1), AtTurn(w, c, k - 1), AtTurn(w, c, k), i, n);
    }
  }

  /** At its turn a node is as the reconcile found it. */
  lemma TurnStarts(w: World, c: Ctx, i: nat)
    requires Listing(w, c) && i < |Begin(w, c).states|
    ensures var ns, s := Begin(w, c).states[i], AtTurn(w, c, i);
            && ns.name in w.nodes && ns.name in s.w.nodes && s.w.nodes[ns.name] == w.nodes[ns.name]
            && |s.states| == |Begin(w, c).states| && s.states[i] == ns && FreshAt(s, i)
            && (ns.name in s.local <==> Claimable(w.nodes[ns.name], c.cr))
            && SameJobsOf(w, s.w, ns.name)
  {
    hide Turns, Begin, FreshAt, ObserveAll, Shape;
    LocalMeans(w, c);
    ObservedAt(w, c, i);
    BeginJobs(w, c);
    BeforeTurn(w, c, i, i);
    PassShape(w, c, i);
  }

  /** The site a reconcile finds at a node: local copy and server agree, nothing done yet. */
  function FoundSite(w: World, ns: NodeStatus, c: Ctx): Site
    requires ns.name in w.nodes
  {
    Site(w.nodes[ns.name], w.nodes[ns.name], ns, JobFor(ns.name, c) in w.jobs, {}, [])
  }

  /** The turn acts on the site the reconcile found. */
  lemma SiteIsFound(w: World, c: Ctx, i: nat)
    requires Listing(w, c) && i < |Begin(w, c).states|
    ensures var ns, s := Begin(w, c).states[i], AtTurn(w, c, i);
            && ns.name in w.nodes && c.cr != "" && i < |s.states| && s.states[i] == ns
            && (ns.name in s.local ==> Claimable(w.nodes[ns.name], c.cr) && SiteAt(s, i, c) == FoundSite(w, ns, c))
  {
    hide Turns, Begin, ObserveAll;
    TurnStarts(w, c, i);
    InterfereKeeps(AtTurn(w, c, i).w, c.api.before(i));
  }

  /** The slots left and the pods listed when node `i` has its turn. */
  function SlotsAt(w: World, c: Ctx, i: nat): int
    requires i <= |Begin(w, c).states|
  {
    AtTurn(w, c, i).capacity
  }

  function PodsAt(w: World, c: Ctx, i: nat): seq<Pod>
    requires i < |Begin(w, c).states|
  {
    PodsToDrain(Disturbed(AtTurn(w, c, i), i, c).w, Begin(w, c).states[i].name, c)
  }

  /** The node's move, or standing still when it is not acted on. */
  function MoveOn(w: World, c: Ctx, i: nat): Site
    requires i < |Begin(w, c).states| && Begin(w, c).states[i].name in w.nodes
  {
    var ns := Begin(w, c).states[i];
    var site := FoundSite(w, ns, c);
    if Advances(w, c) && Takes(ns, SlotsAt(w, c, i)) && Claimable(w.nodes[ns.name], c.cr)
    then AdvanceNode(site, PodsAt(w, c, i), c).site else site
  }

  /** The node in the pass is exactly what the site says. */
  ghost predicate LeftAs(s: Pass, i: nat, site: Site, c: Ctx) {
    && i < |s.states| && site.ns.name in s.w.nodes
    && s.w.nodes[site.ns.name] == site.server && s.states[i] == site.ns
    && (JobFor(site.ns.name, c) in s.w.jobs <==> site.hasJob)
  }

  lemma TurnMoves(w: World, c: Ctx, i: nat)
    requires Listing(w, c) && i < |Begin(w, c).states| && Advances(w, c)
    requires Begin(w, c).states[i].name in w.nodes
    ensures LeftAs(AtTurn(w, c, i + 1), i, MoveOn(w, c, i), c)
    ensures MoveOn(w, c, i).ns.name == Begin(w, c).states[i].name
  {
    hide Turn, Begin, ObserveAll, AdvanceNode, Advances, Listing;
    var s, ns := AtTurn(w, c, i), Begin(w, c).states[i];
    TurnStarts(w, c, i);
    TurnFrame(s, i, c);
    InterfereKeeps(s.w, c.api.before(i));
    if Acted(s, i) {
      assert SiteAt(s, i, c) == FoundSite(w, ns, c);
      AdvanceOwner(FoundSite(w, ns, c), PodsAt(w, c, i), c);
      TurnHasJob(s, i, c);
    }
  }

  lemma TurnHasJob(s0: Pass, i: nat, c: Ctx)
    requires Sane(s0) && i < |s0.states| && FreshAt(s0, i) && Acted(s0, i)
    ensures JobFor(s0.states[i].name, c) in Turn(s0, i, c).w.jobs <==> MoveAt(s0, i, c).site.hasJob
  {
    hide AdvanceNode, JobFor;
    InterfereKeeps(s0.w, c.api.before(i));
    AdvanceOwner(SiteAt(s0, i, c), PodsToDrain(Disturbed(s0, i, c).w, s0.states[i].name, c), c);
  }

  /** One completed listing: the node, its status and its Job end as its one move leaves them,
      up to the mirrored labels. */
  lemma ReconcileMoves(w: World, c: Ctx, i: nat)
    requires Listing(w, c) && Lists(w, c) && i < |Begin(w, c).states|
    ensures var ns, r := Begin(w, c).states[i], Reconcile(w, c).w;
            && ns.name in w.nodes && ns.name in r.nodes
            && |Advanced(w, c).states| == |Begin(w, c).states|
            && var site := MoveOn(w, c, i);
               && site.ns.name == ns.name
               && OnlyMirrors(site.server, r.nodes[ns.name])
               && (JobFor(ns.name, c) in r.jobs <==> site.hasJob)
               && Advanced(w, c).states[i] == site.ns
  {
    hide Turns, Begin, ObserveAll, MoveOn, Listing, OnlyMirrors, Reconcile, Halted;
    TurnStarts(w, c, i);
    ReconcileLeaves(w, c);
    if Advances(w, c) {
      TurnMoves(w, c, i);
      AfterTurn(w, c, i, |Begin(w, c).states|);
    } else {
      StandsStill(w, c, i);
    }
  }

  lemma StandsStill(w: World, c: Ctx, i: nat)
    requires Listing(w, c) && i < |Begin(w, c).states| && !Advances(w, c) && Begin(w, c).states[i].name in w.nodes
    ensures LeftAs(Begin(w, c), i, MoveOn(w, c, i), c)
  {
    hide Observe, ObserveAll, Advances;
    LocalMeans(w, c);
    BeginJobs(w, c);
  }

  lemma {:induction false} TurnsSkip(w: World, c: Ctx, n: string, k: nat)
    requires Listing(w, c) && k <= |Begin(w, c).states| && n in w.nodes && n !in Begin(w, c).local
    ensures var u := AtTurn(w, c, k).w;
            n in u.nodes && u.nodes[n] == w.nodes[n] && SameJobsOf(w, u, n)
  {
    hide Turn, Begin, ObserveAll, Listing, FreshAt, Acted, MoveAt;
    LocalMeans(w, c);
    BeginJobs(w, c);
    if k > 0 {
      TurnsSkip(w, c, n, k - 1);
      PassShape(w, c, k - 1);
      var s := AtTurn(w, c, k - 1);
      TurnSkips(s, k - 1, c, n);
    }
  }

  lemma TurnSkips(s: Pass, k: nat, c: Ctx, n: string)
    requires Sane(s) && k < |s.states| && FreshAt(s, k) && n in s.w.nodes && n !in s.local
    ensures var u := Turn(s, k, c).w;
            n in u.nodes && u.nodes[n] == s.w.nodes[n] && SameJobsOf(s.w, u, n)
  {
    hide Turn, FreshAt, MoveAt;
    TurnFrame(s, k, c);
    TurnJobs(s, k, c);
    InterfereKeeps(s.w, c.api.before(k));
  }

  /** A node the policy does not match, or another one owns: left as it was, with the Jobs it had. */
  lemma ReconcileSkips(w: World, c: Ctx, n: string)
    requires Listing(w, c) && n in w.nodes && !(Matches(w.nodes[n], c) && Claimable(w.nodes[n], c.cr))
    ensures var r := Reconcile(w, c).w;
            n in r.nodes && r.nodes[n] == w.nodes[n] && SameJobsOf(w, r, n)
  {
    hide Turns, Begin, ObserveAll, Listing, Reconcile, Matches, Claimable, Lists, Halted;
    LocalMeans(w, c);
    ReconcileLeaves(w, c);
    if Lists(w, c) {
      TurnsSkip(w, c, n, |Begin(w, c).states|);
      PassShape(w, c, |Begin(w, c).states|);
      ShapeNames(w, c, AtTurn(w, c, |Begin(w, c).states|), |Begin(w, c).states|);
      BeginJobs(w, c);
    } else {
      InterfereKeeps(w, c.api.beforeCount);
    }
  }
}
