/** Which nodes a driver policy matches, counts and lists, and which of them its DaemonSet can run on. */
module Scheduling {
  import opened Kube
  import opened Selector

  /** The controller's own filter: selector, presence label unless switched off, and the skip label. */
  predicate DriverMatches(sel: LabelSelector, requirePresent: bool, labels: Labels) {
    && Selects(sel, labels)
    && (requirePresent ==> Get(labels, Present) == "true")
    && Get(labels, DriverSkip) != "true"
  }

  /** Selected, with the device label at "true" unless that is not required, and the skip label not at "true". */
  predicate MayRun(sel: LabelSelector, requirePresent: bool, labels: Labels) {
    && Selects(sel, labels)
    && (requirePresent ==> Present in labels && labels[Present] == "true")
    && (DriverSkip in labels ==> labels[DriverSkip] != "true")
  }

  lemma MatchesMeans(sel: LabelSelector, requirePresent: bool, labels: Labels)
    ensures DriverMatches(sel, requirePresent, labels) <==> MayRun(sel, requirePresent, labels)
  {
    hide Selects;
  }

  /** The matched nodes of a listing, in listing order. */
  function Matched(all: seq<Labels>, sel: LabelSelector, requirePresent: bool): (out: seq<Labels>)
    ensures forall l :: l in out <==> l in all && MayRun(sel, requirePresent, l)
    ensures |out| <= |all|
  {
    if all == [] then []
    else
      var rest, last := Matched(all[..|all| - 1], sel, requirePresent), all[|all| - 1];
      if DriverMatches(sel, requirePresent, last) then rest + [last] else rest
  }

  /** The positions whose elements satisfy `p`. */
  function Positions<T>(all: seq<T>, p: T -> bool): set<int> {
    set i | 0 <= i < |all| && p(all[i])
  }

  lemma PositionsStep<T>(all: seq<T>, p: T -> bool)
    ensures all == [] ==> Positions(all, p) == {}
    ensures all != [] ==> |Positions(all, p)| == |Positions(all[..|all| - 1], p)| + if p(all[|all| - 1]) then 1 else 0
  {
    if all != [] {
      var last := |all| - 1;
      assert Positions(all, p) == Positions(all[..last], p) + if p(all[last]) then {last} else {};
    }
  }

  function Passing(sel: LabelSelector, requirePresent: bool): Labels -> bool {
    (labels: Labels) => MayRun(sel, requirePresent, labels)
  }

  /** The matched list is as long as there are listed nodes that pass. */
  lemma {:induction false} MatchedLength(all: seq<Labels>, sel: LabelSelector, requirePresent: bool)
    ensures |Matched(all, sel, requirePresent)| == |Positions(all, Passing(sel, requirePresent))|
  {
    hide MayRun, DriverMatches, Positions;
    PositionsStep(all, Passing(sel, requirePresent));
    if all != [] {
      MatchedLength(all[..|all| - 1], sel, requirePresent);
      MatchesMeans(sel, requirePresent, all[|all| - 1]);
    }
  }

  /** Lists the matched nodes; a malformed selector is an error. */
  method ListMatchedNodes(all: seq<Labels>, sel: LabelSelector, requirePresent: bool) returns (out: Option<seq<Labels>>)
    ensures out == if WellFormed(sel) then Some(Matched(all, sel, requirePresent)) else None
    ensures out.Some? ==> forall l :: l in out.value <==> l in all && MayRun(sel, requirePresent, l)
  {
    hide Selects;
    if !WellFormed(sel) { return None; }
    var nodes: seq<Labels> := [];
    for i := 0 to |all|
      invariant nodes == Matched(all[..i], sel, requirePresent)
    {
      assert all[..i + 1][..i] == all[..i];
      var l := all[i];
      if !Selects(sel, l) { continue; }
      if requirePresent && Get(l, Present) != "true" { continue; }
      if Get(l, DriverSkip) == "true" { continue; }
      nodes := nodes + [l];
    }
    assert all[..|all|] == all;
    return Some(nodes);
  }

  /** Counts them in a loop of its own; the count is the length of the list. */
  method CountMatchedNodes(all: seq<Labels>, sel: LabelSelector, requirePresent: bool) returns (count: Option<nat>)
    ensures count == if WellFormed(sel) then Some(|Positions(all, Passing(sel, requirePresent))|) else None
  {
    hide Selects;
    MatchedLength(all, sel, requirePresent);
    if !WellFormed(sel) { return None; }
    var n := 0;
    for i := 0 to |all|
      invariant n == |Matched(all[..i], sel, requirePresent)|
    {
      assert all[..i + 1][..i] == all[..i];
      var l := all[i];
      if !Selects(sel, l) { continue; }
      if requirePresent && Get(l, Present) != "true" { continue; }
      if Get(l, DriverSkip) == "true" { continue; }
      n := n + 1;
    }
    assert all[..|all|] == all;
    return Some(n);
  }

  const PRESENT_REQUIRED := Requirement(Present, NodeIn, ["true"])
  const SKIP_ABSENT := Requirement(DriverSkip, NodeDoesNotExist, [])

  /** The DaemonSet's one node-selector term: the translated selector and two fixed requirements. */
  method NodeSelectorTerm(sel: LabelSelector, order: seq<LabelKey>) returns (term: seq<Requirement>)
    requires Walks(order, sel.matchLabels.Keys)
    ensures forall labels: Labels :: MeetsAll(term, labels) <==>
              Selects(sel, labels) && Present in labels && labels[Present] == "true" && DriverSkip !in labels
  {
    var translated := LabelSelectorToExpressions(sel, order);
    term := translated + [PRESENT_REQUIRED, SKIP_ABSENT];
    forall labels: Labels
      ensures MeetsAll(term, labels) <==> Schedulable(sel, labels)
    {
      TermMeans(translated, sel, labels);
    }
  }

  /** What the term asks of a node. */
  predicate Schedulable(sel: LabelSelector, labels: Labels) {
    && Selects(sel, labels)
    && Present in labels && labels[Present] == "true"
    && DriverSkip !in labels
  }

  lemma TermMeans(translated: seq<Requirement>, sel: LabelSelector, labels: Labels)
    requires MeetsAll(translated, labels) <==> Selects(sel, labels)
    ensures MeetsAll(translated + [PRESENT_REQUIRED, SKIP_ABSENT], labels) <==> Schedulable(sel, labels)
  {
    var term, n := translated + [PRESENT_REQUIRED, SKIP_ABSENT], |translated|;
    assert term[n] == PRESENT_REQUIRED && term[n + 1] == SKIP_ABSENT;
    assert Meets(PRESENT_REQUIRED, labels) <==> Present in labels && labels[Present] == "true" by {
      assert "true" in PRESENT_REQUIRED.values && forall v <- PRESENT_REQUIRED.values :: v == "true";
    }
    if MeetsAll(term, labels) {
      forall i | 0 <= i < n
        ensures Meets(translated[i], labels)
      {
        assert term[i] == translated[i];
      }
      assert Meets(term[n], labels) && Meets(term[n + 1], labels);
    }
    if Schedulable(sel, labels) {
      forall i | 0 <= i < |term|
        ensures Meets(term[i], labels)
      {
        assert i < n ==> term[i] == translated[i];
        assert i == n || i == n + 1 || i < n;
      }
    }
  }

  /** Over any set of nodes: the DaemonSet reaches only matched nodes, and all of them exactly when no matched
      node lacks present=true or carries the skip label at all (with a value other than "true"). */
  lemma ScheduledWhenMatched(sel: LabelSelector, requirePresent: bool, nodes: set<Labels>)
    ensures (set l <- nodes | Schedulable(sel, l)) <= (set l <- nodes | MayRun(sel, requirePresent, l))
    ensures (set l <- nodes | Schedulable(sel, l)) == (set l <- nodes | MayRun(sel, requirePresent, l)) <==>
            forall l <- nodes :: MayRun(sel, requirePresent, l) ==> Get(l, Present) == "true" && DriverSkip !in l
  {
    hide Selects;
    var scheduled, matched := set l <- nodes | Schedulable(sel, l),
          set l <- nodes | MayRun(sel, requirePresent, l);
    forall l <- nodes
      ensures l in scheduled <==> l in matched && Get(l, Present) == "true" && DriverSkip !in l
    {
    }
    assert forall l :: l in matched <==> l in nodes && MayRun(sel, requirePresent, l);
  }

  /** A matched node the DaemonSet never reaches: its skip label says "false". */
  lemma SkippedByAnyValue()
    ensures var l: Labels := map[Present := "true", DriverSkip := "false"];
            MayRun(EVERYTHING, true, l) && !Schedulable(EVERYTHING, l)
  {
  }
}
