/** Cordons are lifted only by the policy that placed them, and only once per placement. */
module CordonPairing {
  import opened Kube
  import opened Firmware
  import opened Protocol
  import opened Steps
  import opened Passes
  import opened NodeLife
  import opened SlotBound
  import opened Ownership
  import opened Progress

  /** The last thing `cr` wrote about `n`'s cordon was to place it. */
  predicate Held(log: seq<Action>, cr: string, n: string) {
    log != [] &&
    match log[|log| - 1]
    case CordonWrite(a, m, _) => (a == cr && m == n) || Held(log[..|log| - 1], cr, n)
    case UncordonWrite(a, m) => !(a == cr && m == n) && Held(log[..|log| - 1], cr, n)
    case JobCreate(_) => Held(log[..|log| - 1], cr, n)
  }

  /** Every cordon is placed on a schedulable node, every uncordon lifts a cordon still held. */
  predicate Paired(log: seq<Action>) {
    log == [] ||
    (&& Paired(log[..|log| - 1])
     && match log[|log| - 1]
        case CordonWrite(_, _, wasSchedulable) => wasSchedulable
        case UncordonWrite(cr, n) => Held(log[..|log| - 1], cr, n)
        case JobCreate(_) => true)
  }

  /** What `Paired` says about one uncordon, spelled out over positions in the log. */
  lemma {:induction false} PairedMeans(log: seq<Action>, k: nat)
    requires Paired(log) && k < |log| && log[k].UncordonWrite?
    ensures var u := log[k];
            exists j :: 0 <= j < k && log[j] == CordonWrite(u.cr, u.node, true) &&
              forall m | j < m < k :: log[m] != UncordonWrite(u.cr, u.node)
  {
    var shorter := log[..|log| - 1];
    if k < |log| - 1 {
      PairedMeans(shorter, k);
      var j :| 0 <= j < k && shorter[j] == CordonWrite(log[k].cr, log[k].node, true) &&
        forall m | j < m < k :: shorter[m] != UncordonWrite(log[k].cr, log[k].node);
      assert log[j] == shorter[j] && forall m | j < m < k :: log[m] == shorter[m];
    } else {
      var j := HeldSince(shorter, log[k].cr, log[k].node);
      assert log[j] == shorter[j] && forall m | j < m < k :: log[m] == shorter[m];
    }
  }

  lemma {:induction false} HeldSince(log: seq<Action>, cr: string, n: string) returns (j: nat)
    requires Paired(log) && Held(log, cr, n)
    ensures j < |log| && log[j] == CordonWrite(cr, n, true)
    ensures forall m | j < m < |log| :: log[m] != UncordonWrite(cr, n)
  {
    var last, shorter := log[|log| - 1], log[..|log| - 1];
    if last.CordonWrite? && last.cr == cr && last.node == n {
      j := |log| - 1;
    } else {
      j := HeldSince(shorter, cr, n);
    }
  }

  /** The log and the nodes agree on who holds which cordon. */
  ghost predicate LogTrue(w: World) {
    && Paired(w.log)
    && (forall cr, n | cr != "" :: Held(w.log, cr, n) <==> (n in w.nodes && w.nodes[n].cordon.owner == cr))
  }

  lemma UntouchedLogIsTrue(w: World)
    requires Untouched(w)
    ensures LogTrue(w)
  {
  }

  /** What a step may log about its node: at most one write, true to what it did. */
  predicate LogsTruly(before: Node, after: Node, name: string, log: seq<Action>, cr: string) {
    || (log == [] && after.cordon.owner == before.cordon.owner)
    || (log == [CordonWrite(cr, name, true)] && after.cordon.owner == cr)
    || (log == [UncordonWrite(cr, name)] && before.cordon.owner == cr && after.cordon.owner == "")
    || (|log| == 1 && log[0].JobCreate? && after.cordon.owner == before.cordon.owner)
  }

  lemma StepLogs(site: Site, pods: seq<Pod>, c: Ctx)
    requires Fresh(site) && site.log == []
    requires site.ns.state.Cordoning? ==> !site.server.unschedulable
    requires site.ns.state.Uncordoning? ==> site.server.cordon.owner == c.cr
    ensures site.ns.state.Cordoning? ==>
              LogsTruly(site.server, CordonStep(site, c).site.server, site.ns.name, CordonStep(site, c).site.log, c.cr)
    ensures site.ns.state.Uncordoning? ==>
              LogsTruly(site.server, UncordonStep(site, c).site.server, site.ns.name,
                    UncordonStep(site, c).site.log, c.cr)
    ensures LogsTruly(site.server, DrainStep(site, pods, c).site.server, site.ns.name,
              DrainStep(site, pods, c).site.log, c.cr)
    ensures LogsTruly(site.server, SpawnFlashJob(site, c).site.server, site.ns.name,
              SpawnFlashJob(site, c).site.log, c.cr)
  {
  }

  lemma AdvanceLogs(site: Site, pods: seq<Pod>, c: Ctx)
    requires Fresh(site) && site.log == []
    requires site.ns.state.Cordoning? ==> !site.server.unschedulable
    requires site.ns.state.Uncordoning? ==> site.server.cordon.owner == c.cr
    ensures var m := AdvanceNode(site, pods, c).site;
            LogsTruly(site.server, m.server, site.ns.name, m.log, c.cr)
  {
    hide CordonStep, UncordonStep, DrainStep, SpawnFlashJob, ClaimOwnership;
    ClaimFrame(site, c);
    if ClaimOwnership(site, c).ok {
      StepLogs(ClaimOwnership(site, c).site, pods, c);
    }
  }

  lemma ObservedForCordon(w: World, name: string, c: Ctx)
    requires name in w.nodes
    ensures var st := Observe(w, name, w.nodes[name], c).state;
            && (st.Cordoning? ==> !w.nodes[name].unschedulable)
            && (st.Uncordoning? ==> w.nodes[name].cordon.owner == c.cr)
  {
  }

  /** Logging a true write about a node keeps log and nodes in agreement. */
  lemma LogStep(a: World, b: World, name: string, log: seq<Action>, cr: string)
    requires LogTrue(a) && cr != "" && b.log == a.log + log
    requires a.nodes.Keys == b.nodes.Keys && name in a.nodes
    requires forall n <- a.nodes :: n != name ==> b.nodes[n] == a.nodes[n]
    requires LogsTruly(a.nodes[name], b.nodes[name], name, log, cr)
    requires a.nodes[name].cordon.owner in {"", cr}
    ensures LogTrue(b)
  {
    if log == [] {
      assert b.log == a.log;
    } else {
      assert b.log[..|b.log| - 1] == a.log && b.log[|b.log| - 1] == log[0];
      forall x, n | x != ""
        ensures Held(b.log, x, n) <==> (n in b.nodes && b.nodes[n].cordon.owner == x)
      {
        assert Held(a.log, x, n) <==> (n in a.nodes && a.nodes[n].cordon.owner == x);
      }
    }
  }

  lemma TurnLogs(w: World, c: Ctx, k: nat)
    requires Listing(w, c) && k < |Begin(w, c).states| && OwnedWell(w)
    requires LogTrue(AtTurn(w, c, k).w)
    ensures LogTrue(AtTurn(w, c, k + 1).w)
  {
    hide Begin, ObserveAll, Listing, AdvanceNode, FreshAt, OwnedWell, LogTrue, Turn, Takes, Matches, Observe;
    var s, t, ns := AtTurn(w, c, k), AtTurn(w, c, k + 1), Begin(w, c).states[k];
    TurnStarts(w, c, k);
    TurnFrame(s, k, c);
    LocalMeans(w, c);
    ObservedAt(w, c, k);
    InterfereKeeps(s.w, c.api.before(k));
    SiteIsFound(w, c, k);
    if Acted(s, k) {
      var site := FoundSite(w, ns, c);
      ObservedForCordon(w, ns.name, c);
      AdvanceLogs(site, PodsToDrain(Disturbed(s, k, c).w, ns.name, c), c);
      MarkIsOurs(w, ns.name, c.cr);
      LogStep(s.w, t.w, ns.name, MoveAt(s, k, c).site.log, c.cr);
    } else {
      SameLog(s.w, t.w);
    }
  }

  lemma MarkIsOurs(w: World, name: string, cr: string)
    requires OwnedWell(w) && name in w.nodes && Claimable(w.nodes[name], cr)
    ensures w.nodes[name].cordon.owner in {"", cr}
  {
  }

  lemma SameLog(a: World, b: World)
    requires LogTrue(a) && b.log == a.log && b.nodes.Keys == a.nodes.Keys
    requires forall n <- a.nodes :: b.nodes[n].cordon.owner == a.nodes[n].cordon.owner
    ensures LogTrue(b)
  {
    forall x, n | x != ""
      ensures Held(b.log, x, n) <==> (n in b.nodes && b.nodes[n].cordon.owner == x)
    {
      assert Held(a.log, x, n) <==> (n in a.nodes && a.nodes[n].cordon.owner == x);
    }
  }

  lemma {:induction false} TurnsLog(w: World, c: Ctx, k: nat)
    requires Listing(w, c) && k <= |Begin(w, c).states| && OwnedWell(w) && LogTrue(w)
    ensures LogTrue(AtTurn(w, c, k).w)
  {
    hide Begin, ObserveAll, Listing, Turn, OwnedWell, LogTrue;
    if k == 0 {
      LocalMeans(w, c);
      SameLog(w, Begin(w, c).w);
    } else {
      TurnsLog(w, c, k - 1);
      TurnLogs(w, c, k - 1);
    }
  }

  lemma ReconcileLogs(w: World, c: Ctx)
    requires Listing(w, c) && OwnedWell(w) && LogTrue(w)
    ensures LogTrue(Reconcile(w, c).w)
  {
    hide Begin, Turn, Reconcile, Lists, Halted, OwnedWell, LogTrue, OnlyMirrors;
    var r := Reconcile(w, c).w;
    ReconcileLeaves(w, c);
    if Lists(w, c) {
      TurnsLog(w, c, 0);
      TurnsLog(w, c, |Begin(w, c).states|);
      ReconcileLog(w, c);
      forall n <- r.nodes
        ensures r.nodes[n].cordon == Advanced(w, c).w.nodes[n].cordon
      {
        MirrorsCore(Advanced(w, c).w.nodes[n], r.nodes[n]);
      }
      SameLog(Advanced(w, c).w, r);
    } else {
      InterfereKeeps(w, c.api.beforeCount);
      SameLog(w, r);
    }
  }

  lemma ReconcileLog(w: World, c: Ctx)
    requires Lists(w, c)
    ensures Reconcile(w, c).w.log == Advanced(w, c).w.log
  {
    hide Advanced, Settled;
    TidyAllMirrors(Advanced(w, c), Settled(w, c), c);
  }

  /** Nobody else edits the firmware cordon annotations, the owner label, or deletes a node. */
  predicate LeavesCordons(e: Event) {
    RespectsOwners(e) && !e.CordonEdited?
  }

  lemma OccurLogs(w: World, e: Event)
    requires (e.Reconciled? ==> Listing(w, e.c)) && OwnedWell(w) && LogTrue(w) && LeavesCordons(e)
    ensures LogTrue(Occur(w, e))
  {
    hide Reconcile, LogTrue, OwnedWell, Listing;
    match e
    case Reconciled(c) => ReconcileLogs(w, c);
    case NodeAdded(name, n) =>
      if name !in w.nodes {
        NodeAddedLogs(w, name, n);
      }
    case _ => SameLog(w, Occur(w, e));
  }

  lemma NodeAddedLogs(w: World, name: string, n: Node)
    requires LogTrue(w) && name !in w.nodes && n.cordon.owner == ""
    ensures LogTrue(EditNode(w, name, n))
  {
    forall x, m | x != ""
      ensures Held(w.log, x, m) <==> (m in w.nodes[name := n] && w.nodes[name := n][m].cordon.owner == x)
    {
      assert Held(w.log, x, m) <==> (m in w.nodes && w.nodes[m].cordon.owner == x);
    }
  }

  /** Over any run in which nobody else edits firmware cordon marks: every uncordon by a policy
      lifts a cordon that policy placed on a then schedulable node and has not lifted since. */
  lemma {:induction false} CordonPairs(w: World, es: seq<Event>)
    requires Faithful(w, es) && OwnedWell(w) && LogTrue(w)
    requires forall i | 0 <= i < |es| :: LeavesCordons(es[i])
    ensures LogTrue(Run(w, es))
  {
    hide Occur, Listing, LogTrue, OwnedWell, RespectsOwners;
    if es != [] {
      FaithfulPrefix(w, es);
      CordonPairs(w, es[..|es| - 1]);
      OwnershipExclusion(w, es[..|es| - 1]);
      OccurLogs(Run(w, es[..|es| - 1]), es[|es| - 1]);
    }
  }

  /** The same, spelled out: before each uncordon stands a cordon by the same policy on the same node,
      placed while the node was schedulable, with no uncordon by that policy in between. */
  lemma EveryUncordonHasItsCordon(w: World, es: seq<Event>, k: nat)
    requires Faithful(w, es) && OwnedWell(w) && LogTrue(w)
    requires forall i | 0 <= i < |es| :: LeavesCordons(es[i])
    requires var log := Run(w, es).log; k < |log| && log[k].UncordonWrite?
    ensures var log := Run(w, es).log;
            var u := log[k];
            exists j :: 0 <= j < k && log[j] == CordonWrite(u.cr, u.node, true) &&
              forall m | j < m < k :: log[m] != UncordonWrite(u.cr, u.node)
  {
    hide Run, OwnedWell, Faithful, Paired, Held, LeavesCordons;
    CordonPairs(w, es);
    PairedMeans(Run(w, es).log, k);
  }

  /** In particular in every run of a cluster no policy has touched before. */
  lemma PairedFromTheStart(w: World, es: seq<Event>)
    requires Faithful(w, es) && Untouched(w)
    requires forall i | 0 <= i < |es| :: LeavesCordons(es[i])
    ensures Paired(Run(w, es).log) && OwnedWell(Run(w, es))
  {
    hide Run, Faithful, Paired, Held, OwnedWell, RespectsOwners;
    UntouchedIsOwnedWell(w);
    UntouchedLogIsTrue(w);
    CordonPairs(w, es);
    OwnershipExclusion(w, es);
  }

  // ---- Cordons of others ------------------------------------------------------------

  lemma ForeignCordonMove(w: World, name: string, c: Ctx, pods: seq<Pod>)
    requires name in w.nodes && w.nodes[name].unschedulable && w.nodes[name].cordon.owner != c.cr
    ensures var m := AdvanceNode(FoundSite(w, Observe(w, name, w.nodes[name], c), c), pods, c).site;
            SameCordon(w.nodes[name], m.server)
  {
    hide AdvanceNode, Observe;
    ObservedForCordon(w, name, c);
    MoveParts(FoundSite(w, Observe(w, name, w.nodes[name], c), c), pods, c);
  }

  /** A node somebody else made unschedulable is neither stamped nor made schedulable by any
      reconcile, under any answers; with drain on and the lookup answered it is not flashed either. */
  lemma ForeignCordonStands(w: World, c: Ctx, name: string)
    requires Listing(w, c) && name in w.nodes
    requires w.nodes[name].unschedulable && w.nodes[name].cordon.owner != c.cr
    ensures var r := Reconcile(w, c).w;
            && name in r.nodes && SameCordon(w.nodes[name], r.nodes[name])
            && (DrainEnabled(c.spec) && c.api.lookupAnswers(name) ==>
                  (JobFor(name, c) in r.jobs <==> JobFor(name, c) in w.jobs))
  {
    hide Reconcile, Begin, ObserveAll, Lists, Matches, Claimable, OnlyMirrors, AdvanceNode, Observe, Advances, PodsAt;
    if Lists(w, c) && Matches(w.nodes[name], c) && Claimable(w.nodes[name], c.cr) {
      LocalMeans(w, c);
      var i := ObservedCovers(w, c, name);
      ObservedAt(w, c, i);
      ReconcileMoves(w, c, i);
      ForeignCordonMove(w, name, c, PodsAt(w, c, i));
      MirrorsCore(MoveOn(w, c, i).server, Reconcile(w, c).w.nodes[name]);
      NotFlashed(w, name, c);
      AdvanceOwner(FoundSite(w, Begin(w, c).states[i], c), PodsAt(w, c, i), c);
    } else {
      ReconcileSkipsUnlisted(w, c, name);
    }
  }

  lemma NotFlashed(w: World, name: string, c: Ctx)
    requires name in w.nodes && w.nodes[name].unschedulable && w.nodes[name].cordon.owner != c.cr
    ensures DrainEnabled(c.spec) && c.api.lookupAnswers(name) && JobFor(name, c) !in w.jobs ==>
              HandsOff(Observe(w, name, w.nodes[name], c).message)
  {
  }
}
