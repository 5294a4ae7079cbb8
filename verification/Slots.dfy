/** The slot budget in closed form: who gets a slot can be told before the loop runs, under any answers. */
module Slots {
  import opened Kube
  import opened Firmware
  import opened Steps
  import opened Passes
  import opened NodeLife
  import opened SlotBound

  /** A node that takes a slot if one is left: waiting, ours to touch, its claim and its Create going through. */
  predicate WouldSpend(w: World, c: Ctx, ns: NodeStatus) {
    && ns.state.Pending? && !HandsOff(ns.message) && ns.name in w.nodes && Claimable(w.nodes[ns.name], c.cr)
    && (Owner(w.nodes[ns.name]) == c.cr || c.api.patch(ns.name, Claim).Applied?)
    && c.api.create(ns.name).Accepted?
  }

  /** How many of the first `k` observed nodes would. */
  function Spenders(w: World, c: Ctx, k: nat): nat
    requires k <= |ObserveAll(w, c)|
  {
    if k == 0 then 0 else Spenders(w, c, k - 1) + if WouldSpend(w, c, ObserveAll(w, c)[k - 1]) then 1 else 0
  }

  /** The budget the loop starts with. */
  function Budget(w: World, c: Ctx): int {
    MaxParallel(c.spec) - InFlight(Interfere(w, c.api.beforeCount).jobs, c.cr)
  }

  /** What is left of it after `n` slots were asked for; an overdrawn budget stays as it is. */
  function Left(budget: int, n: nat): int { if budget <= 0 then budget else Max(0, budget - n) }

  /** An action spends a slot exactly when the node was waiting and both claim and Create go through. */
  lemma MoveSpends(site: Site, pods: seq<Pod>, c: Ctx)
    ensures SlotsSpent(site.ns, AdvanceNode(site, pods, c)) ==
            if && site.ns.state.Pending? && (Owner(site.mine) == c.cr || c.api.patch(site.ns.name, Claim).Applied?)
               && c.api.create(site.ns.name).Accepted? then 1 else 0
  {
    hide CordonStep, UncordonStep, DrainStep, Apply, Owner;
  }

  lemma TurnSlots(s0: Pass, i: nat, c: Ctx)
    requires Sane(s0) && i < |s0.states|
    ensures Turn(s0, i, c).capacity ==
            s0.capacity - if Acted(s0, i) then SlotsSpent(s0.states[i], MoveAt(s0, i, c)) else 0
  {
    hide AdvanceNode, SlotsSpent;
    InterfereKeeps(s0.w, c.api.before(i));
  }

  lemma TurnSpendsExactly(w: World, c: Ctx, k: nat)
    requires Listing(w, c) && k < |Begin(w, c).states|
    ensures |ObserveAll(w, c)| == |Begin(w, c).states|
    ensures SlotsAt(w, c, k + 1) ==
            SlotsAt(w, c, k) - if WouldSpend(w, c, ObserveAll(w, c)[k]) && SlotsAt(w, c, k) > 0 then 1 else 0
  {
    hide Turn, Begin, ObserveAll, AdvanceNode, SlotsSpent, FreshAt, HandsOff;
    var s := AtTurn(w, c, k);
    LocalMeans(w, c);
    TurnStarts(w, c, k);
    TurnSlots(s, k, c);
    if Acted(s, k) {
      SiteIsFound(w, c, k);
      MoveSpends(SiteAt(s, k, c), PodsToDrain(Disturbed(s, k, c).w, s.states[k].name, c), c);
    }
  }

  /** The slots left at a node's turn, told before the loop runs. */
  lemma {:induction false} SlotsBefore(w: World, c: Ctx, k: nat)
    requires Listing(w, c) && k <= |ObserveAll(w, c)|
    ensures |ObserveAll(w, c)| == |Begin(w, c).states|
    ensures SlotsAt(w, c, k) == Left(Budget(w, c), Spenders(w, c, k))
  {
    hide Begin, ObserveAll, WouldSpend, SlotsAt, Listing;
    LocalMeans(w, c);
    if k == 0 {
      BudgetStarts(w, c);
    } else {
      SlotsBefore(w, c, k - 1);
      TurnSpendsExactly(w, c, k - 1);
    }
  }

  lemma BudgetStarts(w: World, c: Ctx)
    ensures SlotsAt(w, c, 0) == Budget(w, c)
  {
    hide ObserveAll, Interfere, InFlight;
  }
}
