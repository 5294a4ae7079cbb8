/** What a drain does to the listed pods, whatever the API server answers: told from the answers alone. */
module DrainTurn {
  import opened Kube
  import opened Drain
  import opened Firmware
  import opened Steps
  import opened Passes
  import opened NodeLife
  import opened SmoothRound
  import opened Status

  // ---- One list of pods -------------------------------------------------------------

  /** The drain gets as far as pod `k`: the first whose eviction fails outright, or past the last one. */
  predicate GetsTo(list: seq<Pod>, evict: PodId -> EvictAnswer, k: nat) {
    && k <= |list| && (k < |list| ==> evict(list[k].id) == EvictError)
    && forall j | 0 <= j < k :: evict(list[j].id) != EvictError
  }

  /** `id` is that of the last of the first `k` pods whose eviction a disruption budget blocked. */
  predicate LastBlocked(list: seq<Pod>, evict: PodId -> EvictAnswer, k: nat, id: PodId)
    requires k <= |list|
  {
    exists b | 0 <= b < k ::
      list[b].id == id && evict(id) == Blocked && forall j | b < j < k :: evict(list[j].id) != Blocked
  }

  /** What the answers to the first `k` evictions come to. */
  ghost predicate Answered(list: seq<Pod>, evict: PodId -> EvictAnswer, k: nat, done: set<PodId>,
        blocked: Option<PodId>)
    requires k <= |list|
  {
    && (forall id :: id in done <==> exists j | 0 <= j < k :: list[j].id == id && evict(id) == Evicted)
    && (blocked.None? ==> forall j | 0 <= j < k :: evict(list[j].id) != Blocked)
    && (blocked.Some? ==> LastBlocked(list, evict, k, blocked.value))
  }

  lemma AnsweredStep(list: seq<Pod>, evict: PodId -> EvictAnswer, i: nat, acc: Evictions)
    requires i < |list| && Answered(list, evict, i, acc.done, acc.blocked) && evict(list[i].id) != EvictError
    ensures var id := list[i].id;
            && (evict(id) == Evicted ==> Answered(list, evict, i + 1, acc.done + {id}, acc.blocked))
            && (evict(id) == AlreadyGone ==> Answered(list, evict, i + 1, acc.done, acc.blocked))
            && (evict(id) == Blocked ==> Answered(list, evict, i + 1, acc.done, Some(id)))
  {
    var last := list[i].id;
    forall id
      ensures (exists j | 0 <= j < i + 1 :: list[j].id == id && evict(id) == Evicted) <==>
              ((exists j | 0 <= j < i :: list[j].id == id && evict(id) == Evicted)
                    || (id == last && evict(last) == Evicted))
    {
      if j :| 0 <= j < i && list[j].id == id && evict(id) == Evicted {
        assert j < i + 1;
      }
    }
    if acc.blocked.Some? && evict(last) != Blocked {
      var b :| 0 <= b < i && list[b].id == acc.blocked.value && evict(acc.blocked.value) == Blocked
            && forall j | b < j < i :: evict(list[j].id) != Blocked;
      assert LastBlocked(list, evict, i + 1, acc.blocked.value);
    }
  }

  lemma {:induction false} EvictsFrom(list: seq<Pod>, i: nat, evict: PodId -> EvictAnswer,
        acc: Evictions) returns (k: nat)
    requires i <= |list| && acc.ok && Answered(list, evict, i, acc.done, acc.blocked)
    requires forall j | 0 <= j < i :: evict(list[j].id) != EvictError
    ensures var e := EvictFrom(list, i, evict, acc);
            && GetsTo(list, evict, k) && Answered(list, evict, k, e.done, e.blocked) && (e.ok <==> k == |list|)
    decreases |list| - i
  {
    hide Answered;
    if i == |list| {
      k := i;
    } else {
      var id := list[i].id;
      match evict(id)
      case Evicted =>
        AnsweredStep(list, evict, i, acc);
        k := EvictsFrom(list, i + 1, evict, acc.(done := acc.done + {id}));
      case AlreadyGone =>
        AnsweredStep(list, evict, i, acc);
        k := EvictsFrom(list, i + 1, evict, acc);
      case Blocked =>
        AnsweredStep(list, evict, i, acc);
        k := EvictsFrom(list, i + 1, evict, acc.(blocked := Some(id)));
      case EvictError =>
        k := i;
    }
  }

  lemma NothingAnswered(list: seq<Pod>, evict: PodId -> EvictAnswer)
    ensures Answered(list, evict, 0, {}, None)
  {
  }

  lemma OneEnd(list: seq<Pod>, evict: PodId -> EvictAnswer, j: nat, k: nat)
    requires GetsTo(list, evict, j) && GetsTo(list, evict, k)
    ensures j == k
  {
  }

  /** A drain evicts exactly the accepted pods before its end, notes the last blocked one, and is fine exactly when no
      eviction failed outright: a blocked pod stops nothing. */
  lemma DrainMeans(list: seq<Pod>, c: Ctx, k: nat)
    requires GetsTo(list, c.api.evict, k)
    ensures var e := EvictAll(list, c);
            Answered(list, c.api.evict, k, e.done, e.blocked) && (e.ok <==> k == |list|)
  {
    hide Answered, EvictFrom;
    NothingAnswered(list, c.api.evict);
    var end := EvictsFrom(list, 0, c.api.evict, Evictions({}, None, true));
    OneEnd(list, c.api.evict, end, k);
  }

  lemma EndExists(list: seq<Pod>, evict: PodId -> EvictAnswer) returns (k: nat)
    ensures GetsTo(list, evict, k)
  {
    k := 0;
    while k < |list| && evict(list[k].id) != EvictError
      invariant k <= |list| && forall j | 0 <= j < k :: evict(list[j].id) != EvictError
    {
      k := k + 1;
    }
  }

  /** What a node's drain leaves: the accepted pods evicted, the last blocked one noted in its status entry. */
  ghost predicate DrainLeaves(before: set<PodId>, ns: NodeStatus, after: set<PodId>, out: NodeStatus, list: seq<Pod>,
        evict: PodId -> EvictAnswer, k: nat)
    requires k <= |list|
  {
    && (forall id :: id in after <==>
          (id in before || exists j | 0 <= j < k :: list[j].id == id && evict(id) == Evicted))
    && ((forall j | 0 <= j < k :: evict(list[j].id) != Blocked) ==> out == ns)
    && (forall id :: LastBlocked(list, evict, k, id) ==>
          out == ns.(reason := EvictionBlocked, message := EvictionBlockedMessage(id)))
  }

  lemma LastBlockedIsOne(list: seq<Pod>, evict: PodId -> EvictAnswer, k: nat, a: PodId, b: PodId)
    requires k <= |list| && LastBlocked(list, evict, k, a) && LastBlocked(list, evict, k, b)
    ensures a == b
    ensures exists j | 0 <= j < k :: evict(list[j].id) == Blocked
  {
    var i :| 0 <= i < k && list[i].id == a && evict(a) == Blocked
          && forall m | i < m < k :: evict(list[m].id) != Blocked;
    var j :| 0 <= j < k && list[j].id == b && evict(b) == Blocked
          && forall m | j < m < k :: evict(list[m].id) != Blocked;
    assert i == j;
  }

  lemma AnsweredLeaves(before: set<PodId>, ns: NodeStatus, list: seq<Pod>, evict: PodId -> EvictAnswer, k: nat,
        e: Evictions)
    requires k <= |list| && Answered(list, evict, k, e.done, e.blocked)
    ensures var out := if e.blocked.None? then ns
                       else ns.(reason := EvictionBlocked, message := EvictionBlockedMessage(e.blocked.value));
            DrainLeaves(before, ns, before + e.done, out, list, evict, k)
  {
    hide LastBlocked;
    if e.blocked.Some? {
      LastBlockedIsOne(list, evict, k, e.blocked.value, e.blocked.value);
    }
    forall id | LastBlocked(list, evict, k, id)
      ensures e.blocked == Some(id)
    {
      LastBlockedIsOne(list, evict, k, id, id);
      if e.blocked.Some? {
        LastBlockedIsOne(list, evict, k, e.blocked.value, id);
      }
    }
  }

  /** The same of the drain step on top of all that has been evicted so far. */
  lemma StepLeaves(site: Site, list: seq<Pod>, c: Ctx) returns (k: nat)
    ensures GetsTo(list, c.api.evict, k)
    ensures var m := DrainStep(site, list, c);
            && m.ok == m.advanced
            && (!c.api.drainListed(site.ns.name) ==> !m.ok && m.site == site)
            && (c.api.drainListed(site.ns.name) ==>
                  && (m.ok <==> k == |list|)
                  && DrainLeaves(site.evicted, site.ns, m.site.evicted, m.site.ns, list, c.api.evict, k))
  {
    hide EvictAll, DrainLeaves, Answered;
    k := EndExists(list, c.api.evict);
    DrainMeans(list, c, k);
    AnsweredLeaves(site.evicted, site.ns, list, c.api.evict, k, EvictAll(list, c));
  }

  // ---- A turn of the advance loop ---------------------------------------------------

  /** The reconcile drains node `i`: it advances, the node is observed Draining and ours to take, the claim goes
      through and the pod listing is answered. */
  predicate Drains(w: World, c: Ctx, i: nat)
    requires i < |ObserveAll(w, c)|
  {
    var ns := ObserveAll(w, c)[i];
    && Advances(w, c) && ns.state.Draining? && ns.name in w.nodes && Claimable(w.nodes[ns.name], c.cr)
    && (Owner(w.nodes[ns.name]) == c.cr || c.api.patch(ns.name, Claim).Applied?) && c.api.drainListed(ns.name)
  }

  /** What any action leaves of evictions and status entry. */
  lemma AdvanceDrains(site: Site, list: seq<Pod>, c: Ctx)
    ensures var t, e := AdvanceNode(site, list, c).site, EvictAll(list, c);
            var drains := site.ns.state.Draining?
                  && (Owner(site.mine) == c.cr || c.api.patch(site.ns.name, Claim).Applied?)
                        && c.api.drainListed(site.ns.name);
            && t.evicted == site.evicted + (if drains then e.done else {})
            && (!site.ns.state.Pending? ==>
                  t.ns == if drains && e.blocked.Some?
                        then site.ns.(reason := EvictionBlocked,
                              message := EvictionBlockedMessage(e.blocked.value)) else site.ns)
            && (site.ns.state.Pending? ==> t.ns == site.ns || t.ns == Flagged(site.ns, JobFor(site.ns.name, c)))
  {
    hide EvictAll, Apply, Logged;
    assert site.evicted + {} == site.evicted;
  }

  /** Pod `id` is accepted in the drain of node `i`, no eviction before it having failed outright. */
  predicate Evicts(w: World, c: Ctx, i: nat, id: PodId)
    requires i < |ObserveAll(w, c)|
  {
    var list := PodsAt(w, c, i);
    && Drains(w, c, i)
    && exists j | 0 <= j < |list| ::
         && list[j].id == id && c.api.evict(id) == Evicted
         && forall m | 0 <= m < j :: c.api.evict(list[m].id) != EvictError
  }

  lemma AcceptedBefore(list: seq<Pod>, evict: PodId -> EvictAnswer, k: nat, id: PodId)
    requires GetsTo(list, evict, k) && evict(id) == Evicted
    ensures (exists j | 0 <= j < k :: list[j].id == id) <==>
            exists j | 0 <= j < |list| :: list[j].id == id && forall m | 0 <= m < j :: evict(list[m].id) != EvictError
  {
    if j :| 0 <= j < k && list[j].id == id {
      assert forall m | 0 <= m < j :: evict(list[m].id) != EvictError;
    }
  }

  lemma AcceptedIn(list: seq<Pod>, c: Ctx, id: PodId)
    ensures id in EvictAll(list, c).done <==>
            exists j | 0 <= j < |list| :: list[j].id == id && c.api.evict(id) == Evicted
                  && forall m | 0 <= m < j :: c.api.evict(list[m].id) != EvictError
  {
    hide EvictAll;
    var k := EndExists(list, c.api.evict);
    DrainMeans(list, c, k);
    if c.api.evict(id) == Evicted {
      AcceptedBefore(list, c.api.evict, k, id);
    }
  }

  /** A turn evicts what the drain of its node evicts. */
  lemma TurnDrains(w: World, c: Ctx, i: nat)
    requires Listing(w, c) && Advances(w, c) && i < |Begin(w, c).states|
    ensures |ObserveAll(w, c)| == |Begin(w, c).states|
    ensures AtTurn(w, c, i + 1).w.evicted ==
              AtTurn(w, c, i).w.evicted + if Drains(w, c, i) then EvictAll(PodsAt(w, c, i), c).done else {}
  {
    hide Turn, Begin, ObserveAll, AdvanceNode, EvictAll, Advances, Owner, Claimable, Takes, PodsToDrain;
    var s, list := AtTurn(w, c, i), PodsAt(w, c, i);
    LocalMeans(w, c);
    TurnStarts(w, c, i);
    SiteIsFound(w, c, i);
    TurnFrame(s, i, c);
    InterfereKeeps(s.w, c.api.before(i));
    AdvanceDrains(FoundSite(w, ObserveAll(w, c)[i], c), list, c);
    DrainingIsTaken(w, c, i, s.capacity);
  }

  lemma DrainingIsTaken(w: World, c: Ctx, i: nat, capacity: int)
    requires Listing(w, c) && i < |ObserveAll(w, c)|
    ensures ObserveAll(w, c)[i].state.Draining? ==> Takes(ObserveAll(w, c)[i], capacity)
  {
    hide ObserveAll;
    ObservedAt(w, c, i);
  }

  lemma TurnEvicts(w: World, c: Ctx, i: nat, id: PodId)
    requires Listing(w, c) && Advances(w, c) && i < |Begin(w, c).states|
    ensures |ObserveAll(w, c)| == |Begin(w, c).states|
    ensures id in AtTurn(w, c, i + 1).w.evicted <==> id in AtTurn(w, c, i).w.evicted || Evicts(w, c, i, id)
  {
    hide Turns, Begin, ObserveAll, EvictAll, Advances, Drains, PodsAt;
    LocalMeans(w, c);
    TurnDrains(w, c, i);
    AcceptedIn(PodsAt(w, c, i), c, id);
  }

  lemma {:induction false} TurnsEvict(w: World, c: Ctx, k: nat, id: PodId)
    requires Listing(w, c) && Advances(w, c) && k <= |Begin(w, c).states|
    ensures |ObserveAll(w, c)| == |Begin(w, c).states|
    ensures id in AtTurn(w, c, k).w.evicted <==> id in w.evicted || exists i | 0 <= i < k :: Evicts(w, c, i, id)
  {
    hide Turn, Begin, ObserveAll, Evicts, Listing, Advances;
    LocalMeans(w, c);
    if k > 0 {
      TurnsEvict(w, c, k - 1, id);
      TurnEvicts(w, c, k - 1, id);
    }
  }

  /** Under any answers a reconcile evicts exactly the accepted device pods of the nodes it drains, up to the first
      eviction that fails outright; a pod a disruption budget blocks costs no other pod its turn. */
  lemma EvictedExactly(w: World, c: Ctx, id: PodId)
    requires Listing(w, c) && Lists(w, c)
    ensures id in Reconcile(w, c).w.evicted <==>
            id in w.evicted || exists i | 0 <= i < |ObserveAll(w, c)| :: Evicts(w, c, i, id)
  {
    hide Turns, Begin, ObserveAll, PodsAt, Listing, Lists, Reconcile, Halted, Acts;
    ReconcileLeaves(w, c);
    LocalMeans(w, c);
    if Advances(w, c) {
      TurnsEvict(w, c, |ObserveAll(w, c)|, id);
    }
  }

  // ---- What the status says about it ------------------------------------------------

  /** The published entry of state number `i`: time apart, what the loop left of it, explained if it waits. */
  lemma PublishedAt(w: World, c: Ctx, i: nat) returns (out: NodeStatus)
    requires Listing(w, c) && Lists(w, c) && i < |ObserveAll(w, c)|
    ensures |Advanced(w, c).states| == |ObserveAll(w, c)|
    ensures var ns := Explain(Advanced(w, c).states[i], c, Halted(w, c));
            out in Reconcile(w, c).states && out == ns.(since := out.since) && out.name == ObserveAll(w, c)[i].name
  {
    hide ObserveAll, Advanced, Lists, Reconcile, Find, Halted, Listing, Unmoved;
    PublishedEntries(w, c);
    SettledNames(w, c);
    out := Settled(w, c)[i];
    assert out in Settled(w, c);
  }

  lemma ObservedReasons(w: World, c: Ctx, i: nat)
    requires Listing(w, c) && i < |ObserveAll(w, c)|
    ensures ObserveAll(w, c)[i].reason != EvictionBlocked
  {
    hide ObserveAll;
    ObservedAt(w, c, i);
  }

  /** What the loop leaves of a node's status entry, as far as its drain goes. */
  lemma DrainedEntry(w: World, c: Ctx, i: nat)
    requires Listing(w, c) && Lists(w, c) && i < |ObserveAll(w, c)|
    ensures |Advanced(w, c).states| == |ObserveAll(w, c)|
    ensures var ns, out, e := ObserveAll(w, c)[i], Advanced(w, c).states[i], EvictAll(PodsAt(w, c, i), c);
            if Drains(w, c, i) && e.blocked.Some?
            then out == ns.(reason := EvictionBlocked, message := EvictionBlockedMessage(e.blocked.value))
            else out == ns || out.reason == FlashRunning
  {
    hide ObserveAll, Advanced, Reconcile, Lists, EvictAll, Advances, AdvanceNode, Owner, Claimable, PodsAt, SlotsAt,
          Turns,
         Listing, OnlyMirrors;
    LocalMeans(w, c);
    ReconcileMoves(w, c, i);
    AdvanceDrains(FoundSite(w, ObserveAll(w, c)[i], c), PodsAt(w, c, i), c);
    DrainingIsTaken(w, c, i, SlotsAt(w, c, i));
  }

  /** A matched node is published as EvictionBlocked exactly when the reconcile drained it and a disruption budget
      blocked one of the evictions tried; the message names the last one blocked. */
  lemma BlockedIsPublished(w: World, c: Ctx, i: nat, k: nat) returns (out: NodeStatus)
    requires Listing(w, c) && Lists(w, c) && i < |ObserveAll(w, c)| && GetsTo(PodsAt(w, c, i), c.api.evict, k)
    ensures out in Reconcile(w, c).states && out.name == ObserveAll(w, c)[i].name
    ensures out.reason == EvictionBlocked <==>
              Drains(w, c, i) && exists j | 0 <= j < k :: c.api.evict(PodsAt(w, c, i)[j].id) == Blocked
    ensures out.reason == EvictionBlocked ==>
              && out.state.Draining?
              && exists id :: LastBlocked(PodsAt(w, c, i), c.api.evict, k, id)
                    && out.message == EvictionBlockedMessage(id)
  {
    hide ObserveAll, Advanced, Reconcile, Lists, EvictAll, Drains, PodsAt, Listing, Halted, LastBlocked;
    var list := PodsAt(w, c, i);
    out := PublishedAt(w, c, i);
    ObservedReasons(w, c, i);
    DrainedEntry(w, c, i);
    DrainMeans(list, c, k);
    DrainingOnly(w, c, i);
    var e := EvictAll(list, c);
    if e.blocked.Some? {
      LastBlockedIsOne(list, c.api.evict, k, e.blocked.value, e.blocked.value);
    }
  }

  lemma DrainingOnly(w: World, c: Ctx, i: nat)
    requires i < |ObserveAll(w, c)|
    ensures Drains(w, c, i) ==> ObserveAll(w, c)[i].state.Draining?
  {
    hide ObserveAll;
  }

  /** While nobody interferes, the pods a node's turn finds are those the reconcile found. */
  lemma PodsAsFound(w: World, c: Ctx, i: nat)
    requires Listing(w, c) && NoInterference(c) && i < |Begin(w, c).states|
    ensures PodsAt(w, c, i) == PodsToDrain(w, Begin(w, c).states[i].name, c)
  {
    hide Turns, Begin, ObserveAll, PodsToDrain, Listing;
    PodsStay(w, c, i);
    TurnStarts(w, c, i);
    PodsListedAt(w, AtTurn(w, c, i), i, c);
  }

  /** So in an undisturbed reconcile a device pod of a drained node is evicted whenever its own eviction is accepted,
      however many others are blocked, as long as no eviction fails outright. */
  lemma AcceptedPodGoes(w: World, c: Ctx, i: nat, p: Pod)
    requires Listing(w, c) && Lists(w, c) && NoInterference(c) && i < |ObserveAll(w, c)| && Drains(w, c, i)
    requires p in w.pods && HoldsDevice(p, ObserveAll(w, c)[i].name, c.operatorNs, c.spec.drainForce)
    requires c.api.evict(p.id) == Evicted && forall q <- w.pods :: c.api.evict(q.id) != EvictError
    ensures p.id in Reconcile(w, c).w.evicted
  {
    hide Begin, ObserveAll, Listing, Lists, Reconcile, Drains, PodsAt, DevicePods, PodsToDrain, HoldsDevice;
    LocalMeans(w, c);
    var list := PodsAt(w, c, i);
    PodsAsFound(w, c, i);
    var name := ObserveAll(w, c)[i].name;
    PodsToDrainIs(w, name, c);
    DevicePodMeans(p, w.pods, name, c.operatorNs, c.spec.drainForce);
    assert p in list;
    var j :| 0 <= j < |list| && list[j] == p;
    forall m | 0 <= m < j
      ensures c.api.evict(list[m].id) != EvictError
    {
      DevicePodMeans(list[m], w.pods, name, c.operatorNs, c.spec.drainForce);
    }
    EvictedExactly(w, c, p.id);
    assert Evicts(w, c, i, p.id);
  }

  lemma PodsToDrainIs(w: World, name: string, c: Ctx)
    ensures PodsToDrain(w, name, c) == DevicePods(w.pods, name, c.operatorNs, c.spec.drainForce)
  {
  }
}
