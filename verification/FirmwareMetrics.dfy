/** Exactly-once counting: flash outcomes and drain stalls are counted per occurrence, although
    every reconcile sees the same finished Jobs and the same stalled nodes again. */
module FirmwareMetrics {
  import opened Kube
  import opened Firmware
  import opened Metrics
  import Controller

  function FlashJobKey(name: string): string { "job/" + name }

  function DrainTimeoutKey(node: string): string { "drain-timeout/" + node }

  /** The two key families are injective and never meet. */
  lemma KeysApart(a: string, b: string)
    ensures FlashJobKey(a) != DrainTimeoutKey(b)
    ensures FlashJobKey(a) == FlashJobKey(b) ==> a == b
    ensures DrainTimeoutKey(a) == DrainTimeoutKey(b) ==> a == b
  {
    assert FlashJobKey(a)[0] == 'j' && DrainTimeoutKey(b)[0] == 'd';
    assert FlashJobKey(a)[4..] == a && FlashJobKey(b)[4..] == b;
    assert DrainTimeoutKey(a)[14..] == a && DrainTimeoutKey(b)[14..] == b;
  }

  datatype ListedJob = ListedJob(name: string, job: Job)

  predicate Finished(j: ListedJob) { !Outcome(j.job).Running? }

  predicate IsDrainTimeout(ns: NodeStatus) { ns.state.Failed? && ns.message.DrainTimeoutMessage? }

  /** One counter increment, with the object it is about. */
  datatype Increment = FlashOutcome(job: string, success: bool) | DrainStall(node: string)

  // ---- One reconcile ----------------------------------------------------------------

  function JobKeys(jobs: seq<ListedJob>): set<string> {
    set j <- jobs :: FlashJobKey(j.name)
  }

  function FinishedKeys(jobs: seq<ListedJob>): set<string> {
    set j <- jobs | Finished(j) :: FlashJobKey(j.name)
  }

  function StallKeys(states: seq<NodeStatus>): set<string> {
    set ns <- states | IsDrainTimeout(ns) :: DrainTimeoutKey(ns.name)
  }

  /** Finished Jobs not remembered, in listing order. */
  function JobIncrements(jobs: seq<ListedJob>, keys: set<string>): seq<Increment> {
    if jobs == [] then []
    else
      var rest, j := jobs[..|jobs| - 1], jobs[|jobs| - 1];
      JobIncrements(rest, keys) +
      if Finished(j) && FlashJobKey(j.name) !in keys + FinishedKeys(rest)
      then [FlashOutcome(j.name, Outcome(j.job).Succeeded?)] else []
  }

  function StallIncrements(states: seq<NodeStatus>, keys: set<string>): seq<Increment> {
    if states == [] then []
    else
      var rest, ns := states[..|states| - 1], states[|states| - 1];
      StallIncrements(rest, keys) +
      if IsDrainTimeout(ns) && DrainTimeoutKey(ns.name) !in keys + StallKeys(rest) then [DrainStall(ns.name)] else []
  }

  /** What the controller sees of a policy: its Jobs and node states, or that it is gone. */
  datatype Sighting = Listed(jobs: seq<ListedJob>, states: seq<NodeStatus>) | Deleted

  function NextKeys(keys: set<string>, s: Sighting): set<string> {
    match s
    case Listed(jobs, states) =>
      (keys + FinishedKeys(jobs) + StallKeys(states)) * (JobKeys(jobs) + StallKeys(states))
    case Deleted => {}
  }

  function NewIncrements(keys: set<string>, s: Sighting): seq<Increment> {
    match s
    case Listed(jobs, states) => JobIncrements(jobs, keys) + StallIncrements(states, keys + FinishedKeys(jobs))
    case Deleted => []
  }

  // ---- A history of reconciles ------------------------------------------------------

  function Keys(h: seq<Sighting>): set<string> {
    if h == [] then {} else NextKeys(Keys(h[..|h| - 1]), h[|h| - 1])
  }

  function Increments(h: seq<Sighting>): seq<Increment> {
    if h == [] then []
    else Increments(h[..|h| - 1]) + NewIncrements(Keys(h[..|h| - 1]), h[|h| - 1])
  }

  predicate Present(s: Sighting, job: string) {
    s.Listed? && exists j <- s.jobs :: j.name == job
  }

  predicate EndedIn(s: Sighting, job: string) {
    s.Listed? && exists j <- s.jobs :: j.name == job && Finished(j)
  }

  predicate Stalled(s: Sighting, node: string) {
    s.Listed? && exists ns <- s.states :: ns.name == node && IsDrainTimeout(ns)
  }

  /** Remembered keys are those of Jobs in the last listing and of nodes timed out in it. */
  lemma MemoryIsBounded(h: seq<Sighting>, key: string)
    requires key in Keys(h)
    ensures h != [] && h[|h| - 1].Listed?
    ensures key in JobKeys(h[|h| - 1].jobs) + StallKeys(h[|h| - 1].states)
  {
  }

  lemma JobKeyMeans(s: Sighting, keys: set<string>, job: string)
    ensures s.Listed? ==> (FlashJobKey(job) in FinishedKeys(s.jobs) <==> EndedIn(s, job))
    ensures s.Listed? ==> FlashJobKey(job) !in StallKeys(s.states)
    ensures FlashJobKey(job) in NextKeys(keys, s) <==> Present(s, job) && (FlashJobKey(job) in keys || EndedIn(s, job))
  {
    forall other
      ensures FlashJobKey(job) != DrainTimeoutKey(other) && (FlashJobKey(job) == FlashJobKey(other) ==> job == other)
    {
      KeysApart(job, other);
    }
  }

  /** Seen finished in listing `i`, and listed ever since. */
  predicate SeenFinished(h: seq<Sighting>, i: int, job: string) {
    0 <= i < |h| && EndedIn(h[i], job) && forall k | i <= k < |h| :: Present(h[k], job)
  }

  lemma SeenFinishedStep(h: seq<Sighting>, i: int, job: string)
    requires h != []
    ensures SeenFinished(h, i, job) <==>
            Present(h[|h| - 1], job) && if i == |h| - 1 then EndedIn(h[i], job) else SeenFinished(h[..|h| - 1], i, job)
  {
    hide Present, EndedIn;
    var shorter := h[..|h| - 1];
    if SeenFinished(h, i, job) && i < |h| - 1 {
      assert forall k | i <= k < |shorter| :: shorter[k] == h[k];
    }
  }

  /** A Job is remembered exactly while it has stayed listed since it was seen finished. */
  lemma {:induction false} JobRemembered(h: seq<Sighting>, job: string)
    ensures FlashJobKey(job) in Keys(h) <==> exists i :: SeenFinished(h, i, job)
  {
    hide Present, EndedIn, NextKeys, SeenFinished, FlashJobKey;
    if h == [] {
      NeverSeen(job);
    } else {
      var shorter, last := h[..|h| - 1], h[|h| - 1];
      JobRemembered(shorter, job);
      JobKeyMeans(last, Keys(shorter), job);
      SeenFinishedStep(h, |h| - 1, job);
      if i :| SeenFinished(shorter, i, job) {
        SeenFinishedRange(shorter, i, job);
        SeenFinishedStep(h, i, job);
      }
      if i :| SeenFinished(h, i, job) {
        SeenFinishedStep(h, i, job);
      }
    }
  }

  lemma SeenFinishedRange(h: seq<Sighting>, i: int, job: string)
    requires SeenFinished(h, i, job)
    ensures 0 <= i < |h|
  {
  }

  lemma NeverSeen(job: string)
    ensures !exists i :: SeenFinished([], i, job)
  {
  }

  // ---- Counting ---------------------------------------------------------------------

  function Count(incs: seq<Increment>, p: Increment -> bool): nat {
    if incs == [] then 0 else Count(incs[..|incs| - 1], p) + if p(incs[|incs| - 1]) then 1 else 0
  }

  lemma {:induction false} CountAppend(a: seq<Increment>, b: seq<Increment>, p: Increment -> bool)
    ensures Count(a + b, p) == Count(a, p) + Count(b, p)
  {
    if b == [] {
      assert a + b == a;
    } else {
      CountAppend(a, b[..|b| - 1], p);
      assert (a + b)[..|a + b| - 1] == a + b[..|b| - 1];
    }
  }

  /** Is the increment about this Job, whatever its outcome? */
  function OfJob(job: string): Increment -> bool {
    (i: Increment) => i.FlashOutcome? && i.job == job
  }

  function OfNode(node: string): Increment -> bool {
    (i: Increment) => i.DrainStall? && i.node == node
  }

  lemma {:induction false} StallsAreNoJobs(states: seq<NodeStatus>, keys: set<string>, job: string)
    ensures Count(StallIncrements(states, keys), OfJob(job)) == 0
  {
    if states != [] {
      StallsAreNoJobs(states[..|states| - 1], keys, job);
      CountAppend(StallIncrements(states[..|states| - 1], keys),
                  StallIncrements(states, keys)[|StallIncrements(states[..|states| - 1], keys)|..], OfJob(job));
    }
  }

  lemma {:induction false} JobsAreNoStalls(jobs: seq<ListedJob>, keys: set<string>, node: string)
    ensures Count(JobIncrements(jobs, keys), OfNode(node)) == 0
  {
    if jobs != [] {
      JobsAreNoStalls(jobs[..|jobs| - 1], keys, node);
      CountAppend(JobIncrements(jobs[..|jobs| - 1], keys),
                  JobIncrements(jobs, keys)[|JobIncrements(jobs[..|jobs| - 1], keys)|..], OfNode(node));
    }
  }

  lemma FinishedKeyMeans(jobs: seq<ListedJob>, job: string)
    ensures FlashJobKey(job) in FinishedKeys(jobs) <==> exists j <- jobs :: j.name == job && Finished(j)
  {
    forall other
      ensures FlashJobKey(job) == FlashJobKey(other) ==> job == other
    {
      KeysApart(job, other);
    }
  }

  lemma StalledKeyMeans(states: seq<NodeStatus>, node: string)
    ensures DrainTimeoutKey(node) in StallKeys(states) <==> exists ns <- states :: ns.name == node && IsDrainTimeout(ns)
  {
    forall other
      ensures DrainTimeoutKey(node) == DrainTimeoutKey(other) ==> node == other
    {
      KeysApart(node, other);
    }
  }

  lemma FinishedKeysStep(jobs: seq<ListedJob>)
    requires jobs != []
    ensures var rest, j := jobs[..|jobs| - 1], jobs[|jobs| - 1];
            FinishedKeys(jobs) == if Finished(j) then FinishedKeys(rest) + {FlashJobKey(j.name)} else FinishedKeys(rest)
  {
    hide FlashJobKey, Finished;
    assert forall j <- jobs :: j in jobs[..|jobs| - 1] || j == jobs[|jobs| - 1];
  }

  lemma StallKeysStep(states: seq<NodeStatus>)
    requires states != []
    ensures var rest, ns := states[..|states| - 1], states[|states| - 1];
            StallKeys(states) == if IsDrainTimeout(ns) then StallKeys(rest) + {DrainTimeoutKey(ns.name)}
                  else StallKeys(rest)
  {
    hide DrainTimeoutKey, IsDrainTimeout;
    assert forall ns <- states :: ns in states[..|states| - 1] || ns == states[|states| - 1];
  }

  /** One listing counts a Job at most once, when it is finished and not remembered. */
  lemma {:induction false} JobCountedOnce(jobs: seq<ListedJob>, keys: set<string>, job: string)
    ensures Count(JobIncrements(jobs, keys), OfJob(job)) ==
            if FlashJobKey(job) in FinishedKeys(jobs) && FlashJobKey(job) !in keys then 1 else 0
  {
    hide FinishedKeys, FlashJobKey, Finished;
    if jobs == [] {
      FinishedKeyMeans([], job);
    } else {
      var rest, j := jobs[..|jobs| - 1], jobs[|jobs| - 1];
      JobCountedOnce(rest, keys, job);
      FinishedKeysStep(jobs);
      KeysApart(job, j.name);
      var last := JobIncrements(jobs, keys)[|JobIncrements(rest, keys)|..];
      assert JobIncrements(jobs, keys) == JobIncrements(rest, keys) + last;
      CountAppend(JobIncrements(rest, keys), last, OfJob(job));
    }
  }

  lemma {:induction false} StallCountedOnce(states: seq<NodeStatus>, keys: set<string>, node: string)
    ensures Count(StallIncrements(states, keys), OfNode(node)) ==
            if DrainTimeoutKey(node) in StallKeys(states) && DrainTimeoutKey(node) !in keys then 1 else 0
  {
    hide StallKeys, DrainTimeoutKey, IsDrainTimeout;
    if states == [] {
      StalledKeyMeans([], node);
    } else {
      var rest, ns := states[..|states| - 1], states[|states| - 1];
      StallCountedOnce(rest, keys, node);
      StallKeysStep(states);
      KeysApart(node, ns.name);
      var last := StallIncrements(states, keys)[|StallIncrements(rest, keys)|..];
      assert StallIncrements(states, keys) == StallIncrements(rest, keys) + last;
      CountAppend(StallIncrements(rest, keys), last, OfNode(node));
    }
  }

  lemma StepCountsJob(keys: set<string>, s: Sighting, job: string)
    ensures Count(NewIncrements(keys, s), OfJob(job)) == if EndedIn(s, job) && FlashJobKey(job) !in keys then 1 else 0
  {
    hide JobIncrements, StallIncrements, FinishedKeys, FlashJobKey, OfJob;
    if s.Listed? {
      JobCountedOnce(s.jobs, keys, job);
      FinishedKeyMeans(s.jobs, job);
      StallsAreNoJobs(s.states, keys + FinishedKeys(s.jobs), job);
      CountAppend(JobIncrements(s.jobs, keys), StallIncrements(s.states, keys + FinishedKeys(s.jobs)), OfJob(job));
    }
  }

  lemma StepCountsStall(keys: set<string>, s: Sighting, node: string)
    ensures Count(NewIncrements(keys, s), OfNode(node)) ==
            if Stalled(s, node) && DrainTimeoutKey(node) !in keys then 1 else 0
  {
    hide JobIncrements, StallIncrements, StallKeys, DrainTimeoutKey, OfNode;
    if s.Listed? {
      StallCountedOnce(s.states, keys + FinishedKeys(s.jobs), node);
      StalledKeyMeans(s.states, node);
      JobsAreNoStalls(s.jobs, keys, node);
      NotAFinishedKey(s.jobs, node);
      CountAppend(JobIncrements(s.jobs, keys), StallIncrements(s.states, keys + FinishedKeys(s.jobs)), OfNode(node));
    }
  }

  lemma NotAFinishedKey(jobs: seq<ListedJob>, node: string)
    ensures DrainTimeoutKey(node) !in FinishedKeys(jobs) && DrainTimeoutKey(node) !in JobKeys(jobs)
  {
    forall other
      ensures FlashJobKey(other) != DrainTimeoutKey(node)
    {
      KeysApart(other, node);
    }
  }

  // ---- Blocks of listings -----------------------------------------------------------

  /** A maximal block of consecutive listings of the Job begins at `a`, and the Job is seen finished in it. */
  predicate FinishedBlock(h: seq<Sighting>, a: int, job: string) {
    && 0 <= a < |h| && (a > 0 ==> !Present(h[a - 1], job))
    && exists i :: a <= i < |h| && EndedIn(h[i], job) && PresentOver(h, a, i + 1, job)
  }

  predicate PresentOver(h: seq<Sighting>, a: int, b: int, job: string) {
    0 <= a && b <= |h| && forall k | a <= k < b :: Present(h[k], job)
  }

  function FinishedBlocks(h: seq<Sighting>, job: string): set<int> {
    set a | 0 <= a < |h| && FinishedBlock(h, a, job)
  }

  predicate ShownAs(s: Sighting, job: string, success: bool) {
    s.Listed? && exists j <- s.jobs :: j.name == job && Finished(j) && Outcome(j.job).Succeeded? == success
  }

  lemma {:induction false} ListingShowsIt(jobs: seq<ListedJob>, states: seq<NodeStatus>, keys: set<string>,
          inc: Increment)
    requires inc in JobIncrements(jobs, keys)
    ensures inc.FlashOutcome? && ShownAs(Listed(jobs, states), inc.job, inc.success)
  {
    var rest := jobs[..|jobs| - 1];
    if inc in JobIncrements(rest, keys) {
      ListingShowsIt(rest, states, keys, inc);
    }
  }

  lemma {:induction false} StallsOnly(states: seq<NodeStatus>, keys: set<string>, inc: Increment)
    requires inc in StallIncrements(states, keys)
    ensures inc.DrainStall?
  {
    if inc in StallIncrements(states[..|states| - 1], keys) {
      StallsOnly(states[..|states| - 1], keys, inc);
    }
  }

  /** A counted outcome is one some listing showed: success is never counted for a failed Job. */
  lemma {:induction false} OutcomeIsAsSeen(h: seq<Sighting>, inc: Increment) returns (i: nat)
    requires inc in Increments(h) && inc.FlashOutcome?
    ensures i < |h| && ShownAs(h[i], inc.job, inc.success)
  {
    hide ShownAs;
    var shorter, last := h[..|h| - 1], h[|h| - 1];
    if inc in Increments(shorter) {
      i := OutcomeIsAsSeen(shorter, inc);
    } else {
      i := |h| - 1;
      if inc in StallIncrements(last.states, Keys(shorter) + FinishedKeys(last.jobs)) {
        StallsOnly(last.states, Keys(shorter) + FinishedKeys(last.jobs), inc);
      }
      ListingShowsIt(last.jobs, last.states, Keys(shorter), inc);
    }
  }

  /** Where the block the last listing belongs to begins. */
  lemma {:induction false} BlockStart(h: seq<Sighting>, job: string) returns (a: int)
    requires h != [] && Present(h[|h| - 1], job)
    ensures 0 <= a < |h| && PresentOver(h, a, |h|, job) && (a > 0 ==> !Present(h[a - 1], job))
  {
    hide Present;
    var shorter := h[..|h| - 1];
    if shorter != [] && Present(shorter[|shorter| - 1], job) {
      a := BlockStart(shorter, job);
      assert forall k | a <= k < |h| - 1 :: h[k] == shorter[k];
    } else {
      a := |h| - 1;
    }
  }

  /** One more listing that does not show the Job finished completes no block. */
  lemma BlocksKept(h: seq<Sighting>, a: int, job: string)
    requires h != [] && a < |h| - 1
    ensures FinishedBlock(h[..|h| - 1], a, job) ==> FinishedBlock(h, a, job)
    ensures FinishedBlock(h, a, job) && (!EndedIn(h[|h| - 1], job) || !PresentOver(h, a, |h|, job)) ==>
              FinishedBlock(h[..|h| - 1], a, job)
  {
    hide Present, EndedIn;
    var shorter := h[..|h| - 1];
    if FinishedBlock(shorter, a, job) {
      var i :| a <= i < |shorter| && EndedIn(shorter[i], job) && PresentOver(shorter, a, i + 1, job);
      assert EndedIn(h[i], job) && PresentOver(h, a, i + 1, job);
    }
    if FinishedBlock(h, a, job) {
      var i :| a <= i < |h| && EndedIn(h[i], job) && PresentOver(h, a, i + 1, job);
      if i < |h| - 1 {
        assert EndedIn(shorter[i], job) && PresentOver(shorter, a, i + 1, job);
      }
    }
  }

  lemma TerminalIsPresent(s: Sighting, job: string)
    requires EndedIn(s, job)
    ensures Present(s, job)
  {
  }

  lemma BlocksSame(h: seq<Sighting>, job: string)
    requires h != [] && !EndedIn(h[|h| - 1], job)
    ensures FinishedBlocks(h, job) == FinishedBlocks(h[..|h| - 1], job)
  {
    hide Present, EndedIn, FinishedBlock;
    forall a
      ensures 0 <= a < |h| && FinishedBlock(h, a, job) <==> 0 <= a < |h| - 1 && FinishedBlock(h[..|h| - 1], a, job)
    {
      if a < |h| - 1 { BlocksKept(h, a, job); } else if a == |h| - 1 { LastAlone(h, job); }
    }
  }

  lemma LastAlone(h: seq<Sighting>, job: string)
    requires h != [] && !EndedIn(h[|h| - 1], job)
    ensures !FinishedBlock(h, |h| - 1, job)
  {
  }

  /** A listing that shows the Job finished completes the block it belongs to. */
  lemma BlocksGrow(h: seq<Sighting>, job: string, a0: int)
    requires h != [] && EndedIn(h[|h| - 1], job)
    requires 0 <= a0 < |h| && PresentOver(h, a0, |h|, job) && (a0 > 0 ==> !Present(h[a0 - 1], job))
    ensures FinishedBlocks(h, job) == FinishedBlocks(h[..|h| - 1], job) + {a0}
  {
    hide Present, EndedIn;
    forall a
      ensures 0 <= a < |h| && FinishedBlock(h, a, job) <==>
              (0 <= a < |h| - 1 && FinishedBlock(h[..|h| - 1], a, job)) || a == a0
    {
      if a < |h| - 1 { BlocksKept(h, a, job); }
    }
  }

  lemma RememberedBlock(h: seq<Sighting>, job: string, a0: int)
    requires h != [] && 0 <= a0 < |h| && PresentOver(h, a0, |h|, job) && (a0 > 0 ==> !Present(h[a0 - 1], job))
    ensures var shorter := h[..|h| - 1];
            (exists i :: SeenFinished(shorter, i, job)) <==> a0 in FinishedBlocks(shorter, job)
  {
    hide Present, EndedIn;
    var shorter := h[..|h| - 1];
    if i :| SeenFinished(shorter, i, job) {
      assert EndedIn(shorter[i], job) && PresentOver(shorter, a0, i + 1, job);
    }
    if a0 in FinishedBlocks(shorter, job) {
      var i :| a0 <= i < |shorter| && EndedIn(shorter[i], job) && PresentOver(shorter, a0, i + 1, job);
      assert forall k | i <= k < |shorter| :: shorter[k] == h[k];
      assert SeenFinished(shorter, i, job);
    }
  }

  /** Over any history the flash outcome of a Job is counted once for every maximal block of
      consecutive listings in which the Job was seen finished. */
  lemma {:induction false} OutcomesCountedOnce(h: seq<Sighting>, job: string)
    ensures Count(Increments(h), OfJob(job)) == |FinishedBlocks(h, job)|
  {
    hide Keys, NewIncrements, FinishedBlocks, EndedIn, Present, OfJob, FlashJobKey, SeenFinished;
    if h == [] {
      NoBlocks(job);
    } else {
      var shorter, last := h[..|h| - 1], h[|h| - 1];
      OutcomesCountedOnce(shorter, job);
      CountAppend(Increments(shorter), NewIncrements(Keys(shorter), last), OfJob(job));
      StepCountsJob(Keys(shorter), last, job);
      if EndedIn(last, job) {
        TerminalIsPresent(last, job);
        var a0 := BlockStart(h, job);
        BlocksGrow(h, job, a0);
        RememberedBlock(h, job, a0);
        JobRemembered(shorter, job);
        OneMore(FinishedBlocks(shorter, job), a0);
      } else {
        BlocksSame(h, job);
      }
    }
  }

  lemma OneMore(s: set<int>, a: int)
    ensures |s + {a}| == |s| + if a in s then 0 else 1
  {
    if a in s {
      assert s + {a} == s;
    }
  }

  lemma NoBlocks(job: string)
    ensures FinishedBlocks([], job) == {}
  {
  }

  predicate Rises(h: seq<Sighting>, i: int, node: string) {
    0 <= i < |h| && Stalled(h[i], node) && (i == 0 || !Stalled(h[i - 1], node))
  }

  /** The listings at which the node becomes stalled. */
  function RisingEdges(h: seq<Sighting>, node: string): set<int> {
    set i | 0 <= i < |h| && Rises(h, i, node)
  }

  lemma StallKeyMeans(s: Sighting, keys: set<string>, node: string)
    ensures DrainTimeoutKey(node) in NextKeys(keys, s) <==> Stalled(s, node)
  {
    if s.Listed? {
      NotAFinishedKey(s.jobs, node);
      StalledKeyMeans(s.states, node);
    }
  }

  lemma EdgesStep(h: seq<Sighting>, node: string)
    requires h != []
    ensures var shorter, edge := h[..|h| - 1], Stalled(h[|h| - 1], node) && (|h| == 1 || !Stalled(h[|h| - 2], node));
            |RisingEdges(h, node)| == |RisingEdges(shorter, node)| + if edge then 1 else 0
  {
    hide Stalled;
    var shorter, edge := h[..|h| - 1], Stalled(h[|h| - 1], node) && (|h| == 1 || !Stalled(h[|h| - 2], node));
    forall i | 0 <= i < |h| - 1
      ensures Rises(h, i, node) == Rises(shorter, i, node)
    {
    }
    assert RisingEdges(h, node) == RisingEdges(shorter, node) + if edge then {|h| - 1} else {};
  }

  /** Over any history a node's drain timeout is counted once for every time it becomes stalled. */
  lemma {:induction false} StallsCountedOnce(h: seq<Sighting>, node: string)
    ensures Count(Increments(h), OfNode(node)) == |RisingEdges(h, node)|
  {
    hide NewIncrements, RisingEdges, Stalled, OfNode, DrainTimeoutKey, NextKeys;
    if h == [] {
      NoEdges(node);
    } else {
      var shorter, last := h[..|h| - 1], h[|h| - 1];
      StallsCountedOnce(shorter, node);
      CountAppend(Increments(shorter), NewIncrements(Keys(shorter), last), OfNode(node));
      StepCountsStall(Keys(shorter), last, node);
      EdgesStep(h, node);
      if |h| > 1 {
        StallKeyMeans(shorter[|shorter| - 1], Keys(shorter[..|shorter| - 1]), node);
      }
    }
  }

  lemma NoEdges(node: string)
    ensures RisingEdges([], node) == {}
  {
  }

  // ---- Many policies ----------------------------------------------------------------

  /** One policy's part of what the controller sees. */
  function Own(h: seq<(string, Sighting)>, cr: string): seq<Sighting> {
    if h == [] then []
    else Own(h[..|h| - 1], cr) + if h[|h| - 1].0 == cr then [h[|h| - 1].1] else []
  }

  /** What a step does to the shared memory. */
  function NextMemory(seen: Memory, cr: string, s: Sighting): Memory {
    match s
    case Listed(jobs, states) =>
      var all := KeysOf(seen, cr) + FinishedKeys(jobs) + StallKeys(states);
      Prune(seen[cr := all], cr, JobKeys(jobs) + StallKeys(states))
    case Deleted => seen - {cr}
  }

  function MemoryAfter(h: seq<(string, Sighting)>): Memory {
    if h == [] then map[] else NextMemory(MemoryAfter(h[..|h| - 1]), h[|h| - 1].0, h[|h| - 1].1)
  }

  /** However policies interleave, each one's memory is what its own listings alone would leave. */
  lemma {:induction false} MemoriesAreSeparate(h: seq<(string, Sighting)>, cr: string)
    ensures KeysOf(MemoryAfter(h), cr) == Keys(Own(h, cr))
  {
    hide FinishedKeys, StallKeys, JobKeys;
    if h != [] {
      MemoriesAreSeparate(h[..|h| - 1], cr);
      var before := Own(h[..|h| - 1], cr);
      if h[|h| - 1].0 == cr {
        assert Own(h, cr)[..|Own(h, cr)| - 1] == before;
      } else {
        assert Own(h, cr) == before;
      }
    }
  }

  /** The increments of one policy, out of the shared memory. */
  function IncrementsOf(h: seq<(string, Sighting)>, cr: string): seq<Increment> {
    if h == [] then []
    else
      var last := h[|h| - 1];
      IncrementsOf(h[..|h| - 1], cr) +
      if last.0 == cr then NewIncrements(KeysOf(MemoryAfter(h[..|h| - 1]), cr), last.1) else []
  }

  lemma {:induction false} IncrementsAreSeparate(h: seq<(string, Sighting)>, cr: string)
    ensures IncrementsOf(h, cr) == Increments(Own(h, cr))
  {
    hide NewIncrements, MemoryAfter, Keys;
    if h != [] {
      var before, last := Own(h[..|h| - 1], cr), h[|h| - 1];
      IncrementsAreSeparate(h[..|h| - 1], cr);
      MemoriesAreSeparate(h[..|h| - 1], cr);
      if last.0 == cr {
        assert Own(h, cr)[..|Own(h, cr)| - 1] == before;
      } else {
        assert Own(h, cr) == before;
      }
    }
  }

  /** Exactly-once counting with any number of policies sharing one memory. */
  lemma ExactlyOnce(h: seq<(string, Sighting)>, cr: string, job: string, node: string)
    ensures Count(IncrementsOf(h, cr), OfJob(job)) == |FinishedBlocks(Own(h, cr), job)|
    ensures Count(IncrementsOf(h, cr), OfNode(node)) == |RisingEdges(Own(h, cr), node)|
  {
    IncrementsAreSeparate(h, cr);
    OutcomesCountedOnce(Own(h, cr), job);
    StallsCountedOnce(Own(h, cr), node);
  }

  // ---- The recorder -----------------------------------------------------------------

  function Value<K>(counters: map<K, nat>, key: K): nat {
    if key in counters then counters[key] else 0
  }

  function OfOutcome(ok: bool): Increment -> bool {
    (i: Increment) => i.FlashOutcome? && i.success == ok
  }

  function OfStall(): Increment -> bool {
    (i: Increment) => i.DrainStall?
  }

  function CountedBy(counted: map<string, seq<Increment>>, cr: string): seq<Increment> {
    if cr in counted then counted[cr] else []
  }

  /** Every counter shows the number of its increments; a missing series shows none. */
  ghost predicate CountersTrue(flashJobs: map<(string, bool), nat>, drainTimeouts: map<string, nat>,
          counted: map<string, seq<Increment>>) {
    && (forall cr, ok :: Value(flashJobs, (cr, ok)) == Count(CountedBy(counted, cr), OfOutcome(ok)))
    && (forall cr :: Value(drainTimeouts, cr) == Count(CountedBy(counted, cr), OfStall()))
  }

  function RememberAll(seen: Memory, scope: string, keys: set<string>): Memory {
    if keys == {} then seen else seen[scope := KeysOf(seen, scope) + keys]
  }

  /** More increments of one policy. */
  function Added(counted: map<string, seq<Increment>>, cr: string, incs: seq<Increment>): map<string, seq<Increment>> {
    if incs == [] then counted else counted[cr := CountedBy(counted, cr) + incs]
  }

  lemma AddedMore(counted: map<string, seq<Increment>>, cr: string, incs: seq<Increment>)
    ensures Added(counted, cr, []) == counted
    ensures forall inc :: var more := Added(counted, cr, incs);
              more[cr := CountedBy(more, cr) + [inc]] == Added(counted, cr, incs + [inc])
  {
    forall inc
      ensures var more := Added(counted, cr, incs);
              more[cr := CountedBy(more, cr) + [inc]] == Added(counted, cr, incs + [inc])
    {
      assert CountedBy(counted, cr) + incs + [inc] == CountedBy(counted, cr) + (incs + [inc]);
      if incs == [] { assert [] + [inc] == [inc]; }
    }
  }

  lemma NoKeys(seen: Memory, cr: string)
    ensures RememberAll(seen, cr, FinishedKeys([])) == seen && JobKeys([]) == {}
  {
  }

  lemma JobKeysStep(jobs: seq<ListedJob>)
    requires jobs != []
    ensures JobKeys(jobs) == JobKeys(jobs[..|jobs| - 1]) + {FlashJobKey(jobs[|jobs| - 1].name)}
  {
    hide FlashJobKey;
    assert forall j <- jobs :: j in jobs[..|jobs| - 1] || j == jobs[|jobs| - 1];
  }

  lemma RememberedKeys(seen: Memory, cr: string, keys: set<string>)
    ensures KeysOf(RememberAll(seen, cr, keys), cr) == KeysOf(seen, cr) + keys
    ensures Lean(seen) ==> Lean(RememberAll(seen, cr, keys))
  {
  }

  lemma RememberMore(seen: Memory, cr: string, keys: set<string>, key: string)
    ensures Remember(RememberAll(seen, cr, keys), cr, key) == RememberAll(seen, cr, keys + {key})
  {
    assert key in keys + {key};
    assert KeysOf(seen, cr) + keys + {key} == KeysOf(seen, cr) + (keys + {key});
    var all := KeysOf(seen, cr) + keys;
    assert seen[cr := all][cr := all + {key}] == seen[cr := all + {key}];
    if keys == {} {
      assert all == KeysOf(seen, cr);
    }
  }

  lemma CountNone()
    ensures forall p :: Count([], p) == 0
  {
  }

  lemma CountOneMore(incs: seq<Increment>, inc: Increment, p: Increment -> bool)
    ensures Count(incs + [inc], p) == Count(incs, p) + if p(inc) then 1 else 0
  {
    assert (incs + [inc])[..|incs|] == incs;
  }

  lemma CountMore(flashJobs: map<(string, bool), nat>, drainTimeouts: map<string, nat>,
          counted: map<string, seq<Increment>>, cr: string, inc: Increment)
    requires CountersTrue(flashJobs, drainTimeouts, counted)
    ensures var more := counted[cr := CountedBy(counted, cr) + [inc]];
            match inc
            case FlashOutcome(_, ok) => CountersTrue(flashJobs[(cr, ok) := Value(flashJobs, (cr, ok)) + 1],
                  drainTimeouts, more)
            case DrainStall(_) => CountersTrue(flashJobs, drainTimeouts[cr := Value(drainTimeouts, cr) + 1], more)
  {
    hide Count;
    var incs := CountedBy(counted, cr);
    forall ok
      ensures Count(incs + [inc], OfOutcome(ok)) ==
              Count(incs, OfOutcome(ok)) + if inc.FlashOutcome? && inc.success == ok then 1 else 0
    {
      CountOneMore(incs, inc, OfOutcome(ok));
    }
    CountOneMore(incs, inc, OfStall());
  }

  lemma NoStalls(seen: Memory, cr: string)
    ensures RememberAll(seen, cr, StallKeys([])) == seen && StallKeys([]) == {}
  {
  }

  lemma RememberTwice(seen: Memory, cr: string, a: set<string>, b: set<string>)
    ensures RememberAll(RememberAll(seen, cr, a), cr, b) == RememberAll(seen, cr, a + b)
  {
    var all := KeysOf(seen, cr) + a;
    assert seen[cr := all][cr := all + b] == seen[cr := all + b];
    assert all + b == KeysOf(seen, cr) + (a + b);
    if a == {} { assert a + b == b; }
    if b == {} { assert a + b == a; }
  }

  lemma PruneRemembered(seen: Memory, cr: string, keys: set<string>, keep: set<string>)
    requires Lean(seen)
    ensures Prune(RememberAll(seen, cr, keys), cr, keep) == Prune(seen[cr := KeysOf(seen, cr) + keys], cr, keep)
  {
    RememberedKeys(seen, cr, keys);
    var all := KeysOf(seen, cr) + keys;
    assert seen[cr := all] - {cr} == seen - {cr};
    assert seen[cr := all][cr := all * keep] == seen[cr := all * keep];
    if keys == {} {
      assert all == KeysOf(seen, cr);
    }
  }

  lemma AddedTwice(counted: map<string, seq<Increment>>, cr: string, a: seq<Increment>, b: seq<Increment>)
    ensures Added(Added(counted, cr, a), cr, b) == Added(counted, cr, a + b)
  {
    var all := CountedBy(counted, cr) + a;
    assert counted[cr := all][cr := all + b] == counted[cr := all + b];
    assert all + b == CountedBy(counted, cr) + (a + b);
    if a == [] { assert a + b == b; }
    if b == [] { assert a + b == a; }
  }

  /** The controller's counters, and the deduplication they share. */
  class Recorder {
    const events: EventDedup
    var flashJobs: map<(string, bool), nat>
    var drainTimeouts: map<string, nat>
    /** The increments each policy's counters are made of, since its series exist. */
    ghost var counted: map<string, seq<Increment>>

    constructor ()
      ensures fresh(events) && events.seen == map[] && Valid()
      ensures counted == map[]
    {
      events := new EventDedup();
      flashJobs, drainTimeouts, counted := map[], map[], map[];
    }

    ghost predicate Valid()
      reads this, events
    {
      Lean(events.seen) && CountersTrue(flashJobs, drainTimeouts, counted)
    }

    /** Counts one increment; the counter it belongs to moves by one. */
    method Increase(cr: string, inc: Increment)
      requires CountersTrue(flashJobs, drainTimeouts, counted)
      modifies `flashJobs, `drainTimeouts, `counted
      ensures CountersTrue(flashJobs, drainTimeouts, counted)
      ensures counted == old(counted)[cr := CountedBy(old(counted), cr) + [inc]]
    {
      hide CountersTrue;
      CountMore(flashJobs, drainTimeouts, counted, cr, inc);
      counted := counted[cr := CountedBy(counted, cr) + [inc]];
      match inc {
        case FlashOutcome(_, ok) => flashJobs := flashJobs[(cr, ok) := Value(flashJobs, (cr, ok)) + 1];
        case DrainStall(_) => drainTimeouts := drainTimeouts[cr := Value(drainTimeouts, cr) + 1];
      }
    }

    /** Counts each finished Job not seen before; returns the keys of every listed Job. */
    method RecordFlashJobs(cr: string, jobs: seq<ListedJob>) returns (keys: seq<string>)
      requires Valid()
      modifies `flashJobs, `drainTimeouts, `counted, events
      ensures Valid() && (forall k :: k in keys <==> k in JobKeys(jobs))
      ensures events.seen == RememberAll(old(events.seen), cr, FinishedKeys(jobs))
      ensures counted == Added(old(counted), cr, JobIncrements(jobs, KeysOf(old(events.seen), cr)))
    {
      hide CountersTrue, FinishedKeys, JobKeys, FlashJobKey, RememberAll, Remember, Outcome, Lean, KeysOf, CountedBy,
           Added;
      ghost var seen0, counted0 := events.seen, counted;
      keys := [];
      NoKeys(seen0, cr);
      AddedMore(counted0, cr, []);
      for i := 0 to |jobs|
        invariant Valid()
        invariant forall k :: k in keys <==> k in JobKeys(jobs[..i])
        invariant events.seen == RememberAll(seen0, cr, FinishedKeys(jobs[..i]))
        invariant counted == Added(counted0, cr, JobIncrements(jobs[..i], KeysOf(seen0, cr)))
      {
        assert jobs[..i + 1][..i] == jobs[..i];
        var j := jobs[i];
        var key := FlashJobKey(j.name);
        JobKeysStep(jobs[..i + 1]);
        FinishedKeysStep(jobs[..i + 1]);
        RememberedKeys(seen0, cr, FinishedKeys(jobs[..i]));
        RememberedKeys(seen0, cr, FinishedKeys(jobs[..i + 1]));
        RememberMore(seen0, cr, FinishedKeys(jobs[..i]), key);
        AddedMore(counted0, cr, JobIncrements(jobs[..i], KeysOf(seen0, cr)));
        assert JobIncrements(jobs[..i], KeysOf(seen0, cr)) + [] == JobIncrements(jobs[..i], KeysOf(seen0, cr));
        keys := keys + [key];
        var completed, succeeded := Controller.JobFinished(j.job);
        if !completed { continue; }
        var first := events.FirstSeen(cr, key);
        if !first { continue; }
        Increase(cr, FlashOutcome(j.name, succeeded));
      }
      assert jobs[..|jobs|] == jobs;
    }

    /** Counts each node past its drain deadline, once per stall. */
    method RecordDrainTimeouts(cr: string, states: seq<NodeStatus>) returns (keys: seq<string>)
      requires Valid()
      modifies `flashJobs, `drainTimeouts, `counted, events
      ensures Valid() && (forall k :: k in keys <==> k in StallKeys(states))
      ensures events.seen == RememberAll(old(events.seen), cr, StallKeys(states))
      ensures counted == Added(old(counted), cr, StallIncrements(states, KeysOf(old(events.seen), cr)))
    {
      hide CountersTrue, StallKeys, DrainTimeoutKey, RememberAll, Remember, IsDrainTimeout, Lean, KeysOf, CountedBy,
           Added;
      ghost var seen0, counted0 := events.seen, counted;
      keys := [];
      NoStalls(seen0, cr);
      AddedMore(counted0, cr, []);
      for i := 0 to |states|
        invariant Valid()
        invariant forall k :: k in keys <==> k in StallKeys(states[..i])
        invariant events.seen == RememberAll(seen0, cr, StallKeys(states[..i]))
        invariant counted == Added(counted0, cr, StallIncrements(states[..i], KeysOf(seen0, cr)))
      {
        assert states[..i + 1][..i] == states[..i];
        var ns := states[i];
        StallKeysStep(states[..i + 1]);
        RememberedKeys(seen0, cr, StallKeys(states[..i]));
        RememberedKeys(seen0, cr, StallKeys(states[..i + 1]));
        RememberMore(seen0, cr, StallKeys(states[..i]), DrainTimeoutKey(ns.name));
        AddedMore(counted0, cr, StallIncrements(states[..i], KeysOf(seen0, cr)));
        assert StallIncrements(states[..i], KeysOf(seen0, cr)) + [] == StallIncrements(states[..i], KeysOf(seen0, cr));
        if !IsDrainTimeout(ns) { continue; }
        var key := DrainTimeoutKey(ns.name);
        keys := keys + [key];
        var first := events.FirstSeen(cr, key);
        if first {
          Increase(cr, DrainStall(ns.name));
        }
      }
      assert states[..|states|] == states;
    }

    /** The metric steps of one reconcile, in their order. */
    method Record(cr: string, jobs: seq<ListedJob>, states: seq<NodeStatus>)
      requires Valid()
      modifies `flashJobs, `drainTimeouts, `counted, events
      ensures Valid()
      ensures events.seen == NextMemory(old(events.seen), cr, Listed(jobs, states))
      ensures counted == Added(old(counted), cr, NewIncrements(KeysOf(old(events.seen), cr), Listed(jobs, states)))
    {
      hide CountersTrue, JobIncrements, StallIncrements, JobKeys, FinishedKeys, StallKeys, Prune, RememberAll, Added;
      ghost var seen0, counted0 := events.seen, counted;
      RememberedKeys(seen0, cr, FinishedKeys(jobs));
      RememberTwice(seen0, cr, FinishedKeys(jobs), StallKeys(states));
      PruneRemembered(seen0, cr, FinishedKeys(jobs) + StallKeys(states), JobKeys(jobs) + StallKeys(states));
      AddedTwice(counted0, cr, JobIncrements(jobs, KeysOf(seen0, cr)),
            StallIncrements(states, KeysOf(seen0, cr) + FinishedKeys(jobs)));
      var jobKeys := RecordFlashJobs(cr, jobs);
      var stallKeys := RecordDrainTimeouts(cr, states);
      events.Retain(cr, jobKeys + stallKeys);
      assert (set k | k in jobKeys + stallKeys) == JobKeys(jobs) + StallKeys(states);
      assert KeysOf(seen0, cr) + (FinishedKeys(jobs) + StallKeys(states)) ==
            KeysOf(seen0, cr) + FinishedKeys(jobs) + StallKeys(states);
    }

    /** The policy is gone: its series and its history go with it. */
    method ForgetPolicy(cr: string)
      requires Valid()
      modifies `flashJobs, `drainTimeouts, `counted, events
      ensures Valid() && events.seen == NextMemory(old(events.seen), cr, Deleted)
      ensures counted == old(counted) - {cr} && cr !in drainTimeouts
      ensures forall ok :: (cr, ok) !in flashJobs
    {
      hide Count;
      CountNone();
      flashJobs := flashJobs - {(cr, true), (cr, false)};
      drainTimeouts := drainTimeouts - {cr};
      counted := counted - {cr};
      events.Forget(cr);
    }
  }
}
