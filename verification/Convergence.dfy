/** Left alone and told no lies, a rollout of N nodes finishes in ceil(N / maxParallel) + 3 rounds. */
module Convergence {
  import opened Drain
  import opened Selector
  import opened Firmware
  import opened Passes
  import opened NodeLife
  import opened SlotBound
  import opened Progress
  import opened Matching
  import opened SmoothRound
  import opened Ownership

  predicate SameRollout(c: Ctx, d: Ctx) { SamePolicy(c, d) && d.requirePresent == c.requirePresent }

  function Rounds(w: World, cs: seq<Ctx>): World {
    if cs == [] then w else Round(Rounds(w, cs[..|cs| - 1]), cs[|cs| - 1])
  }

  /** Nodes waiting for a slot. */
  function PendingSet(w: World, c: Ctx): set<string> {
    set n | n in w.nodes && Matches(w.nodes[n], c) && Stage(w, n, c).Pending?
  }

  /** What `j` rounds have settled: nobody in the way, no Job running, then no node left to cordon or drain. */
  predicate Phase(w: World, c: Ctx, j: nat) {
    && (j >= 1 ==> InFlight(w.jobs, c.cr) == 0)
    && (forall n <- Fleet(w, c) :: Clear(w, n, c) && StageBy(Stage(w, n, c), j))
  }

  predicate StageBy(st: NodeState, j: nat) {
    && (j >= 1 ==> !st.Cordoning? && !st.Flashing?)
    && (j >= 2 ==> !st.Draining?)
  }

  lemma RoundKeys(w: World, c: Ctx)
    requires Listing(w, c) && Lists(w, c)
    ensures Round(w, c).nodes.Keys == w.nodes.Keys
  {
    hide Begin, Turns, Reconcile, Halted, Listing, Shape;
    ReconcileLeaves(w, c);
    if Advances(w, c) {
      PassShape(w, c, |Begin(w, c).states|);
      ShapeNames(w, c, Advanced(w, c), |Begin(w, c).states|);
    } else {
      LocalMeans(w, c);
    }
  }

  lemma RoundFleet(w: World, c: Ctx)
    requires Listing(w, c) && Lists(w, c) && Ignores(c.spec.selector, OPERATOR_KEYS)
    ensures Fleet(Round(w, c), c) == Fleet(w, c)
  {
    hide Reconcile, Matches, Listing;
    RoundKeys(w, c);
    forall n <- w.nodes
      ensures n in Fleet(Round(w, c), c) <==> n in Fleet(w, c)
    {
      MatchedSetStable(w, c, c, n);
    }
  }

  lemma PhaseAt(w: World, c: Ctx, n: string, j: nat)
    requires Phase(w, c, j) && n in Fleet(w, c)
    ensures n in w.nodes && Clear(w, n, c) && StageBy(Stage(w, n, c), j)
  {
    hide Stage, Clear, Matches, InFlight;
  }

  lemma NodePhase(w: World, c: Ctx, n: string, j: nat)
    requires Smooth(c) && Listing(w, c) && AllRollable(w, c) && Phase(w, c, j) && n in Fleet(w, c)
    ensures n in Round(w, c).nodes && Clear(Round(w, c), n, c) && StageBy(Stage(Round(w, c), n, c), j + 1)
  {
    hide Round, Smooth, Listing, AllRollable, Stage, Clear, InFlight, SlotsAt, Begin, Matches, Phase;
    PhaseAt(w, c, n, j);
    var i := RoundNode(w, c, n);
  }

  lemma RoundPhase(w: World, c: Ctx, j: nat)
    requires Smooth(c) && Listing(w, c) && AllRollable(w, c) && Ignores(c.spec.selector, OPERATOR_KEYS)
    requires Phase(w, c, j)
    ensures Phase(Round(w, c), c, j + 1) && Fleet(Round(w, c), c) == Fleet(w, c)
  {
    hide Round, Smooth, Listing, AllRollable, Stage, StageBy, Fleet, Clear, InFlight, Ignores, Advances;
    NeverHalts(w, c);
    SmoothLists(c);
    ListsSmoothly(w, c);
    RoundJobs(w, c);
    RoundFleet(w, c);
    forall n <- Fleet(w, c)
      ensures n in Round(w, c).nodes && Clear(Round(w, c), n, c) && StageBy(Stage(Round(w, c), n, c), j + 1)
    {
      NodePhase(w, c, n, j);
    }
  }

  lemma ListsSmoothly(w: World, c: Ctx)
    requires Smooth(c)
    ensures Lists(w, c)
  {
  }

  // ---- The queue for slots ----------------------------------------------------------

  /** The waiting nodes among the first `k` states that come after `m` other waiting ones. */
  function Late(states: seq<NodeStatus>, k: nat, m: nat): set<string>
    requires k <= |states|
  {
    set i | 0 <= i < k && states[i].state.Pending? && Waiting(states, i) >= m :: states[i].name
  }

  lemma LateStep(states: seq<NodeStatus>, k: nat, m: nat)
    requires 0 < k <= |states| && forall i | 0 <= i < k - 1 :: states[i].name != states[k - 1].name
    ensures var before, last := Late(states, k - 1, m), states[k - 1];
            |Late(states, k, m)| == |before| + if last.state.Pending? && Waiting(states, k - 1) >= m then 1 else 0
  {
    var before, last := Late(states, k - 1, m), states[k - 1];
    assert Late(states, k, m) == before + if last.state.Pending? && Waiting(states, k - 1) >= m then {last.name}
          else {};
  }

  /** All but `m` of the waiting nodes come after `m` others. */
  lemma {:induction false} LateSize(states: seq<NodeStatus>, k: nat, m: nat)
    requires k <= |states| && forall i, j | 0 <= i < j < |states| :: states[i].name != states[j].name
    ensures |Late(states, k, m)| == Max(0, Waiting(states, k) - m)
  {
    hide Late;
    if k == 0 {
      NoneLate(states, m);
    } else {
      LateSize(states, k - 1, m);
      LateStep(states, k, m);
    }
  }

  lemma NoneLate(states: seq<NodeStatus>, m: nat)
    ensures Late(states, 0, m) == {}
  {
  }

  lemma WaitingArePending(w: World, c: Ctx)
    requires Smooth(c) && Listing(w, c) && AllRollable(w, c)
    ensures Late(Begin(w, c).states, |Begin(w, c).states|, 0) <= PendingSet(w, c)
  {
    hide Begin, Smooth, Listing, AllRollable, Stage, Matches;
    NeverHalts(w, c);
  }

  /** Once nothing cordons or drains and no Job runs, whoever still waits after a round came late. */
  lemma StillWaiting(w: World, c: Ctx)
    requires Smooth(c) && Listing(w, c) && AllRollable(w, c) && Phase(w, c, 2)
    requires 0 < MaxParallel(c.spec) && Fleet(Round(w, c), c) == Fleet(w, c)
    ensures PendingSet(Round(w, c), c) <= Late(Begin(w, c).states, |Begin(w, c).states|, MaxParallel(c.spec))
  {
    hide Begin, Round, Smooth, Listing, AllRollable, Stage, Matches, MaxParallel, SlotsAt, InFlight;
    NeverHalts(w, c);
    forall n <- PendingSet(Round(w, c), c)
      ensures n in Late(Begin(w, c).states, |Begin(w, c).states|, MaxParallel(c.spec))
    {
      assert n in Fleet(Round(w, c), c);
      var i := RoundNode(w, c, n);
      SlotsLeft(w, c, i);
    }
  }

  /** Each such round serves maxParallel waiting nodes. */
  lemma RoundServes(w: World, c: Ctx)
    requires Smooth(c) && Listing(w, c) && AllRollable(w, c) && Phase(w, c, 2)
    requires 0 < MaxParallel(c.spec) && Fleet(Round(w, c), c) == Fleet(w, c)
    ensures |PendingSet(Round(w, c), c)| <= Max(0, |PendingSet(w, c)| - MaxParallel(c.spec))
  {
    hide Begin, Round, Smooth, Listing, AllRollable, Stage, Matches, MaxParallel, Phase, Late, Fleet, PendingSet;
    var states, m := Begin(w, c).states, MaxParallel(c.spec);
    forall i, j | 0 <= i < j < |states|
      ensures states[i].name != states[j].name
    {
      LocalMeans(w, c);
      ObservedDistinct(w, c, i, j);
    }
    LateSize(states, |states|, 0);
    LateSize(states, |states|, m);
    WaitingArePending(w, c);
    StillWaiting(w, c);
    SubsetSize(Late(states, |states|, 0), PendingSet(w, c));
    SubsetSize(PendingSet(Round(w, c), c), Late(states, |states|, m));
  }

  // ---- The whole rollout ------------------------------------------------------------

  /** Cordons placed in the first round are not overdue in the second. */
  predicate Prompt(w: World, c: Ctx, next: Ctx) {
    forall n <- Fleet(w, c) :: Stage(w, n, c).Cordoning? ==>
      CordonElapsed(MarkOf(w.nodes[n], c), next.now) <= DrainTimeout(c.spec)
  }

  /** Undisturbed rounds of one policy at one spec, each listing every node. */
  ghost predicate Undisturbed(w: World, cs: seq<Ctx>, c: Ctx) {
    && c.cr != "" && 0 < MaxParallel(c.spec) && Ignores(c.spec.selector, OPERATOR_KEYS)
    && (forall i | 0 <= i < |cs| :: Smooth(cs[i]) && SameRollout(c, cs[i]) && Walks(cs[i].api.order, w.nodes.Keys))
    && (|cs| >= 1 ==> AllRollable(w, cs[0]))
    && (|cs| >= 2 ==> Prompt(w, cs[0], cs[1]))
  }

  /** An untouched cluster whose matched nodes are schedulable and unclaimed is ready for a rollout, and its
      cordons are in time whenever the second round follows within the drain timeout. */
  lemma UntouchedIsRollable(w: World, c: Ctx, next: Ctx)
    requires Untouched(w) && next.now - c.now <= DrainTimeout(c.spec)
    requires forall n <- Fleet(w, c) :: !w.nodes[n].unschedulable && Owner(w.nodes[n]) == ""
    ensures AllRollable(w, c) && Prompt(w, c, next)
  {
    hide Matches, Owner, DrainTimeout, PodsToDrain;
  }

  lemma UndisturbedPrefix(w: World, cs: seq<Ctx>, c: Ctx)
    requires Undisturbed(w, cs, c) && cs != []
    ensures Undisturbed(w, cs[..|cs| - 1], c)
    ensures Smooth(cs[|cs| - 1]) && SameRollout(c, cs[|cs| - 1]) && Walks(cs[|cs| - 1].api.order, w.nodes.Keys)
  {
    hide Smooth, SameRollout, Walks, AllRollable, Prompt, MaxParallel, Ignores;
  }

  /** Reconciles of one rollout see the same nodes at the same stages. */
  lemma SameView(w: World, c: Ctx, d: Ctx)
    requires SameRollout(c, d)
    ensures Fleet(w, c) == Fleet(w, d) && PendingSet(w, c) == PendingSet(w, d)
    ensures forall n <- w.nodes :: Stage(w, n, c) == Stage(w, n, d) && Clear(w, n, c) == Clear(w, n, d)
    ensures forall j: nat :: Phase(w, c, j) <==> Phase(w, d, j)
  {
    forall n <- w.nodes
      ensures Stage(w, n, c) == Stage(w, n, d) && Matches(w.nodes[n], c) == Matches(w.nodes[n], d)
    {
      StageIsOfPolicy(w, n, c, d);
    }
  }

  lemma LateRollable(w: World, c: Ctx)
    requires Phase(w, c, 2)
    ensures AllRollable(w, c)
  {
    hide Stage, Matches, InFlight;
  }

  /** A node draining in the second round was cordoned in the first, in time. */
  lemma SecondInTime(w: World, c: Ctx, d: Ctx, n: string)
    requires Smooth(c) && Listing(w, c) && AllRollable(w, c) && SameRollout(c, d) && Prompt(w, c, d)
    requires n in Fleet(w, c) && n in Round(w, c).nodes
    ensures Stage(Round(w, c), n, d).Draining? ==> InTime(Round(w, c).nodes[n], d)
  {
    hide Round, Smooth, Listing, AllRollable, Stage, Fleet, MarkOf;
    StageIsOfPolicy(Round(w, c), n, c, d);
    if Stage(Round(w, c), n, d).Draining? {
      var i := RoundNode(w, c, n);
      RoundMarks(w, c, n);
    }
  }

  lemma SecondRollable(w: World, c: Ctx, d: Ctx)
    requires Smooth(c) && Listing(w, c) && AllRollable(w, c) && SameRollout(c, d) && Prompt(w, c, d)
    requires Phase(Round(w, c), d, 1) && Fleet(Round(w, c), d) == Fleet(w, c)
    ensures AllRollable(Round(w, c), d)
  {
    hide Round, Smooth, Listing, AllRollable, Stage, Fleet, InFlight, Clear, Prompt, SameRollout, InTime;
    forall n <- Fleet(w, c)
      ensures n in Round(w, c).nodes && Rollable(Round(w, c), n, d)
    {
      assert n in Fleet(Round(w, c), d);
      InRound(w, c, d, n);
      SecondInTime(w, c, d, n);
    }
    AllAreRollable(Round(w, c), d);
  }

  lemma InRound(w: World, c: Ctx, d: Ctx, n: string)
    requires n in Fleet(Round(w, c), d)
    ensures n in Round(w, c).nodes
  {
    hide Round, Matches;
  }

  lemma AllAreRollable(w: World, c: Ctx)
    requires forall n <- Fleet(w, c) :: Rollable(w, n, c)
    ensures AllRollable(w, c)
  {
  }

  /** Of `n` nodes, those still waiting after `k` rounds of `m` slots. */
  function Unserved(n: nat, m: int, k: nat): int { Max(0, n - m * k) }

  /** Where a rollout stands after `|cs|` undisturbed rounds. */
  ghost predicate Underway(w: World, cs: seq<Ctx>, c: Ctx) {
    var v, k := Rounds(w, cs), |cs|;
    && v.nodes.Keys == w.nodes.Keys && Fleet(v, c) == Fleet(w, c)
    && Phase(v, c, k)
    && (k >= 2 ==> |PendingSet(v, c)| <= Unserved(|Fleet(w, c)|, MaxParallel(c.spec), k - 2))
  }

  /** What one more undisturbed round may rely on. */
  lemma NextRollable(w: World, cs: seq<Ctx>, c: Ctx)
    requires cs != [] && Undisturbed(w, cs, c) && Underway(w, cs[..|cs| - 1], c)
    ensures var v, d := Rounds(w, cs[..|cs| - 1]), cs[|cs| - 1];
            Listing(v, d) && AllRollable(v, d) && Phase(v, d, |cs| - 1)
  {
    hide Round, Stage, Fleet, PendingSet, InFlight, AllRollable, Smooth, Prompt, MaxParallel, Clear;
    var v, d := Rounds(w, cs[..|cs| - 1]), cs[|cs| - 1];
    SameView(v, c, d);
    if |cs| == 2 {
      assert cs[..1][..0] == [] && Rounds(w, cs[..1]) == Round(w, cs[0]);
      SameView(w, c, cs[0]);
      SecondRollable(w, cs[0], d);
    } else if |cs| >= 3 {
      LateRollable(v, d);
    }
  }

  lemma PhaseWeaker(w: World, c: Ctx, j: nat, k: nat)
    requires Phase(w, c, j) && k <= j
    ensures Phase(w, c, k)
  {
    hide Stage, Clear, Fleet, InFlight;
  }

  lemma PendingInFleet(w: World, c: Ctx)
    ensures |PendingSet(w, c)| <= |Fleet(w, c)|
  {
    hide Stage, Matches;
    SubsetSize(PendingSet(w, c), Fleet(w, c));
  }

  lemma UnservedStep(p: int, n: nat, m: nat, k: nat)
    requires p <= Unserved(n, m, k)
    ensures Max(0, p - m) <= Unserved(n, m, k + 1)
  {
    assert m * k + m == m * (k + 1);
  }

  lemma AllUnserved(n: nat, m: nat)
    ensures Unserved(n, m, 0) == n
  {
  }

  lemma QueueServed(v: World, d: Ctx, c: Ctx, n: nat, k: nat)
    requires Smooth(d) && Listing(v, d) && AllRollable(v, d) && Phase(v, d, k + 2) && SameRollout(c, d)
    requires 0 < MaxParallel(d.spec) && Fleet(Round(v, d), c) == Fleet(v, c)
    requires |PendingSet(v, c)| <= Unserved(n, MaxParallel(d.spec), k)
    ensures |PendingSet(Round(v, d), c)| <= Unserved(n, MaxParallel(d.spec), k + 1)
  {
    hide Round, Smooth, Listing, AllRollable, Stage, Fleet, PendingSet, Phase, Unserved, MaxParallel, SameRollout,
         Clear;
    SameView(v, c, d);
    SameView(Round(v, d), c, d);
    PhaseWeaker(v, d, k + 2, 2);
    RoundServes(v, d);
    UnservedStep(|PendingSet(v, c)|, n, MaxParallel(d.spec), k);
  }

  lemma UnderwayStep(w: World, cs: seq<Ctx>, c: Ctx)
    requires cs != [] && Undisturbed(w, cs, c) && Underway(w, cs[..|cs| - 1], c)
    ensures Underway(w, cs, c)
  {
    hide Round, Stage, Fleet, PendingSet, InFlight, AllRollable, Phase, Prompt, MaxParallel;
    var v, d := Rounds(w, cs[..|cs| - 1]), cs[|cs| - 1];
    NextRollable(w, cs, c);
    SameView(v, c, d);
    SameView(Rounds(w, cs), c, d);
    RoundPhase(v, d, |cs| - 1);
    SmoothLists(d);
    RoundKeys(v, d);
    if |cs| == 2 {
      PendingInFleet(Rounds(w, cs), c);
      AllUnserved(|Fleet(w, c)|, MaxParallel(c.spec));
    } else if |cs| >= 3 {
      QueueServed(v, d, c, |Fleet(w, c)|, |cs| - 3);
    }
  }

  lemma {:induction false} UnderwayAlways(w: World, cs: seq<Ctx>, c: Ctx)
    requires Undisturbed(w, cs, c) && cs != []
    ensures Underway(w, cs, c)
  {
    hide Undisturbed, Underway, Rounds;
    UndisturbedPrefix(w, cs, c);
    if |cs| == 1 {
      UnderwayStart(w, cs, c);
    } else {
      UnderwayAlways(w, cs[..|cs| - 1], c);
    }
    UnderwayStep(w, cs, c);
  }

  lemma UnderwayStart(w: World, cs: seq<Ctx>, c: Ctx)
    requires Undisturbed(w, cs, c) && |cs| == 1
    ensures Underway(w, cs[..0], c)
  {
    hide Stage, PendingSet, Fleet, InFlight, MaxParallel, Smooth;
    SameView(w, c, cs[0]);
    StartPhase(w, cs[0]);
  }

  lemma StartPhase(w: World, c: Ctx)
    requires AllRollable(w, c)
    ensures Phase(w, c, 0)
  {
    hide Stage, Clear;
  }

  lemma QueueEmpty(n: nat, m: nat, k: nat)
    requires 0 < m && k >= (n + m - 1) / m
    ensures m * k >= n
  {
    var q := (n + m - 1) / m;
    assert m * q >= n;
    assert m * k >= m * q by {
      if k > q { assert m * (k - q) >= 0; assert m * k == m * q + m * (k - q); }
    }
  }

  /** Nothing waits and nothing drains: the next round finishes every node. */
  lemma LastRound(w: World, c: Ctx)
    requires Smooth(c) && Listing(w, c) && AllRollable(w, c) && Phase(w, c, 2) && PendingSet(w, c) == {}
    ensures forall n <- Fleet(w, c) :: n in Round(w, c).nodes && Finished(Round(w, c), n, c)
  {
    hide Round, Smooth, Listing, AllRollable, Stage, Matches, InFlight, Finished, Clear;
    forall n <- Fleet(w, c)
      ensures n in Round(w, c).nodes && Finished(Round(w, c), n, c)
    {
      var i := RoundNode(w, c, n);
      assert n !in PendingSet(w, c);
      DoneIsFree(Round(w, c), n, c);
    }
  }

  /** Flashed, and given back to the scheduler. */
  predicate Finished(w: World, n: string, c: Ctx)
    requires n in w.nodes
  {
    Stage(w, n, c).Done? && (DrainEnabled(c.spec) ==> !w.nodes[n].unschedulable)
  }

  lemma DoneIsFree(w: World, n: string, c: Ctx)
    requires n in w.nodes && Stage(w, n, c).Done? && Clear(w, n, c)
    ensures Finished(w, n, c)
  {
  }

  /** After two rounds and one for every maxParallel nodes nobody waits. */
  lemma QueueServedOut(w: World, cs: seq<Ctx>, c: Ctx)
    requires cs != [] && Undisturbed(w, cs, c)
    requires |cs| >= (|Fleet(w, c)| + MaxParallel(c.spec) - 1) / MaxParallel(c.spec) + 2
    ensures Underway(w, cs, c) && |PendingSet(Rounds(w, cs), c)| == 0
  {
    hide Round, Stage, Fleet, AllRollable, Phase, PendingSet, Prompt, MaxParallel, Smooth, Walks, Ignores;
    UnderwayAlways(w, cs, c);
    QueueEmpty(|Fleet(w, c)|, MaxParallel(c.spec), |cs| - 2);
  }

  /** With every call answered, no interference, no failure and each drain in time, N matched nodes are
      all flashed and schedulable again after ceil(N / maxParallel) + 3 rounds, and stay so. */
  lemma Converges(w: World, cs: seq<Ctx>, c: Ctx)
    requires Undisturbed(w, cs, c)
    requires |cs| >= (|Fleet(w, c)| + MaxParallel(c.spec) - 1) / MaxParallel(c.spec) + 3
    ensures forall n <- Fleet(w, c) :: n in Rounds(w, cs).nodes && Finished(Rounds(w, cs), n, c)
  {
    hide Round, Stage, Fleet, AllRollable, Phase, PendingSet, Prompt, MaxParallel, Finished, Smooth, Walks, Ignores,
         Unserved;
    var v, d, k := Rounds(w, cs[..|cs| - 1]), cs[|cs| - 1], |cs| - 1;
    SomeRounds(w, cs, c);
    UndisturbedPrefix(w, cs, c);
    QueueServedOut(w, cs[..k], c);
    NextRollable(w, cs, c);
    SameView(v, c, d);
    PhaseWeaker(v, d, k, 2);
    LastRound(v, d);
    forall n <- Fleet(w, c)
      ensures n in Rounds(w, cs).nodes && Finished(Rounds(w, cs), n, c)
    {
      FinishedAlike(Rounds(w, cs), n, c, d);
    }
  }

  lemma SomeRounds(w: World, cs: seq<Ctx>, c: Ctx)
    requires Undisturbed(w, cs, c) && |cs| >= (|Fleet(w, c)| + MaxParallel(c.spec) - 1) / MaxParallel(c.spec) + 3
    ensures |cs| >= 3
  {
    hide Fleet, MaxParallel;
  }

  lemma FinishedAlike(w: World, n: string, c: Ctx, d: Ctx)
    requires SameRollout(c, d) && n in w.nodes
    ensures Finished(w, n, c) == Finished(w, n, d)
  {
    StageIsOfPolicy(w, n, c, d);
  }

  // ---- Every round counts -----------------------------------------------------------

  /** Stages left to Done, summed over the named nodes. */
  function Distance(w: World, names: seq<string>, c: Ctx): nat {
    if names == [] then 0
    else
      var last := names[|names| - 1];
      Distance(w, names[..|names| - 1], c) + if last in w.nodes then Rank(Stage(w, last, c)) else 0
  }

  lemma {:induction false} FirstWaiting(states: seq<NodeStatus>, k: nat) returns (i: nat)
    requires k < |states| && states[k].state.Pending?
    ensures i <= k && states[i].state.Pending? && Waiting(states, i) == 0
  {
    if Waiting(states, k) == 0 {
      i := k;
    } else {
      var j := SomeWaiting(states, k);
      i := FirstWaiting(states, j);
    }
  }

  lemma {:induction false} SomeWaiting(states: seq<NodeStatus>, k: nat) returns (j: nat)
    requires k <= |states| && Waiting(states, k) > 0
    ensures j < k && states[j].state.Pending?
  {
    if states[k - 1].state.Pending? {
      j := k - 1;
    } else {
      j := SomeWaiting(states, k - 1);
    }
  }

  /** While something is left to do, the round takes some node a step further. */
  lemma SomeNodeFalls(w: World, c: Ctx, unfinished: string) returns (n: string)
    requires Smooth(c) && Listing(w, c) && AllRollable(w, c)
    requires InFlight(w.jobs, c.cr) < MaxParallel(c.spec)
    requires unfinished in Fleet(w, c) && !Stage(w, unfinished, c).Done?
    ensures n in Fleet(w, c) && n in Round(w, c).nodes && Rank(Stage(Round(w, c), n, c)) < Rank(Stage(w, n, c))
  {
    hide Begin, Round, Smooth, Listing, AllRollable, Stage, Matches, MaxParallel, SlotsAt, InFlight;
    NeverHalts(w, c);
    var i := RoundNode(w, c, unfinished);
    if Begin(w, c).states[i].state.Pending? {
      var j := FirstWaiting(Begin(w, c).states, i);
      n := Begin(w, c).states[j].name;
      SlotsLeft(w, c, j);
      var j' := RoundNode(w, c, n);
      SameIndex(w, c, j, j');
    } else {
      n := unfinished;
    }
  }

  lemma SameIndex(w: World, c: Ctx, i: nat, j: nat)
    requires Listing(w, c) && i < |Begin(w, c).states| && j < |Begin(w, c).states|
    requires Begin(w, c).states[i].name == Begin(w, c).states[j].name
    ensures i == j
  {
    hide Begin, ObserveAll, Listing;
    LocalMeans(w, c);
    if i < j { ObservedDistinct(w, c, i, j); } else if j < i { ObservedDistinct(w, c, j, i); }
  }

  lemma {:induction false} DistanceFalls(w: World, v: World, names: seq<string>, c: Ctx, n: string)
    requires forall m <- names :: m in w.nodes && m in v.nodes && Rank(Stage(v, m, c)) <= Rank(Stage(w, m, c))
    ensures Distance(v, names, c) <= Distance(w, names, c)
    ensures n in names && Rank(Stage(v, n, c)) < Rank(Stage(w, n, c)) ==> Distance(v, names, c) < Distance(w, names, c)
  {
    hide Stage, Rank;
    if names != [] {
      DistanceFalls(w, v, names[..|names| - 1], c, n);
    }
  }

  /** Until every node is done, each round strictly lowers the distance summed over the fleet. */
  lemma RoundLowers(w: World, c: Ctx, names: seq<string>, unfinished: string)
    requires Smooth(c) && Listing(w, c) && AllRollable(w, c)
    requires InFlight(w.jobs, c.cr) < MaxParallel(c.spec)
    requires forall n :: n in names <==> n in Fleet(w, c)
    requires unfinished in Fleet(w, c) && !Stage(w, unfinished, c).Done?
    ensures Distance(Round(w, c), names, c) < Distance(w, names, c)
  {
    hide Round, Smooth, Listing, AllRollable, Stage, Matches, MaxParallel, SlotsAt, InFlight;
    forall n <- names
      ensures n in w.nodes && n in Round(w, c).nodes && Rank(Stage(Round(w, c), n, c)) <= Rank(Stage(w, n, c))
    {
      var i := RoundNode(w, c, n);
    }
    var n := SomeNodeFalls(w, c, unfinished);
    DistanceFalls(w, Round(w, c), names, c, n);
  }
}
