/** The published status: one entry per matched node, in name order, counted without loss. */
module Status {
  import opened Selector
  import opened Firmware
  import opened Passes
  import opened NodeLife

  datatype Conditions = Conditions(ready: bool, progressing: bool)

  /** Any failure outranks any pending work, which outranks "all up to date". */
  function TopLevelConditions(s: Summary): Conditions {
    if s.failed > 0 then Conditions(false, false)
    else if s.inProgress > 0 || s.pending > 0 then Conditions(false, true)
    else Conditions(true, false)
  }

  // ---- Counting ---------------------------------------------------------------------

  /** The entries whose state satisfies `p`. */
  function Where(states: seq<NodeStatus>, p: NodeState -> bool): set<int> {
    set i | 0 <= i < |states| && p(states[i].state)
  }

  lemma WhereStep(states: seq<NodeStatus>, p: NodeState -> bool)
    requires states != []
    ensures var last := |states| - 1;
            |Where(states, p)| == |Where(states[..last], p)| + if p(states[last].state) then 1 else 0
  {
    var last := |states| - 1;
    assert Where(states, p) == Where(states[..last], p) + if p(states[last].state) then {last} else {};
  }

  const IS_DONE := (st: NodeState) => st.Done?
  const IS_FAILED := (st: NodeState) => st.Failed?
  const IS_PENDING := (st: NodeState) => st.Pending?
  const IS_IN_FLIGHT := (st: NodeState) => st.Cordoning? || st.Draining? || st.Flashing? || st.Uncordoning?

  /** Each column is the number of entries in its states, and the columns add up to the matched nodes. */
  lemma {:induction false} SummaryAddsUp(states: seq<NodeStatus>)
    ensures var s := Summarize(states);
            && s.matched == |states| == s.upToDate + s.inProgress + s.failed + s.pending
            && s.upToDate == |Where(states, IS_DONE)| && s.failed == |Where(states, IS_FAILED)|
            && s.inProgress == |Where(states, IS_IN_FLIGHT)| && s.pending == |Where(states, IS_PENDING)|
  {
    hide Where;
    if states == [] {
      WhereNone(IS_DONE);
      WhereNone(IS_FAILED);
      WhereNone(IS_PENDING);
      WhereNone(IS_IN_FLIGHT);
    } else {
      SummaryAddsUp(states[..|states| - 1]);
      WhereStep(states, IS_DONE);
      WhereStep(states, IS_FAILED);
      WhereStep(states, IS_PENDING);
      WhereStep(states, IS_IN_FLIGHT);
    }
  }

  lemma WhereNone(p: NodeState -> bool)
    ensures Where([], p) == {}
  {
  }

  lemma SomeWhere(states: seq<NodeStatus>, p: NodeState -> bool)
    ensures |Where(states, p)| > 0 <==> exists i | 0 <= i < |states| :: p(states[i].state)
  {
    if i :| 0 <= i < |states| && p(states[i].state) {
      assert i in Where(states, p);
    }
    if |Where(states, p)| > 0 {
      var i :| i in Where(states, p);
    }
  }

  /** Ready says exactly that every matched node is Done; Progressing that none has failed and some is not Done yet. */
  lemma ReadyMeans(states: seq<NodeStatus>)
    ensures TopLevelConditions(Summarize(states)).ready <==> forall i | 0 <= i < |states| :: states[i].state.Done?
    ensures TopLevelConditions(Summarize(states)).progressing <==>
              && (forall i | 0 <= i < |states| :: !states[i].state.Failed?)
              && exists i | 0 <= i < |states| :: !states[i].state.Done?
  {
    hide Where;
    SummaryAddsUp(states);
    SomeWhere(states, IS_FAILED);
    SomeWhere(states, IS_IN_FLIGHT);
    SomeWhere(states, IS_PENDING);
    forall i | 0 <= i < |states|
      ensures states[i].state.Done? <==>
              !IS_FAILED(states[i].state) && !IS_IN_FLIGHT(states[i].state) && !IS_PENDING(states[i].state)
    {
    }
  }

  // ---- Sorting ----------------------------------------------------------------------

  /** No entry comes after a later name. */
  predicate Sorted(states: seq<NodeStatus>) {
    forall i, j | 0 <= i < j < |states| :: !NameBefore(states[j].name, states[i].name)
  }

  lemma {:induction false} BeforeIsTransitive(a: string, b: string, d: string)
    requires NameBefore(a, b) && !NameBefore(d, b)
    ensures NameBefore(a, d)
  {
    if a != [] && d != [] && a[0] == b[0] == d[0] {
      BeforeIsTransitive(a[1..], b[1..], d[1..]);
    }
  }

  lemma {:induction false} NotBothBefore(a: string, b: string)
    requires NameBefore(a, b)
    ensures !NameBefore(b, a)
  {
    if a != [] && a[0] == b[0] {
      NotBothBefore(a[1..], b[1..]);
    }
  }

  lemma {:induction false} InsertSorts(sorted: seq<NodeStatus>, ns: NodeStatus)
    requires Sorted(sorted)
    ensures var r := InsertByName(sorted, ns);
            Sorted(r) && multiset(r) == multiset(sorted) + multiset{ns}
  {
    hide NameBefore;
    if sorted != [] {
      var shorter, last := sorted[..|sorted| - 1], sorted[|sorted| - 1];
      assert sorted == shorter + [last];
      if NameBefore(ns.name, last.name) {
        InsertSorts(shorter, ns);
        var r := InsertByName(shorter, ns);
        NotBothBefore(ns.name, last.name);
        forall i | 0 <= i < |r|
          ensures !NameBefore(last.name, r[i].name)
        {
          assert r[i] in multiset(r);
          assert r[i] == ns || r[i] in shorter;
        }
      } else {
        forall i | 0 <= i < |shorter|
          ensures !NameBefore(ns.name, shorter[i].name)
        {
          if NameBefore(ns.name, shorter[i].name) {
            if !NameBefore(ns.name, last.name) {
              BeforeIsTransitive(ns.name, shorter[i].name, last.name);
            }
          }
        }
      }
    }
  }

  /** The published entries are the computed ones, reordered by name. */
  lemma {:induction false} SortedPermutation(states: seq<NodeStatus>)
    ensures Sorted(SortByName(states)) && multiset(SortByName(states)) == multiset(states)
  {
    hide Sorted, InsertByName;
    if states == [] {
      SortedEmpty();
    } else {
      var shorter, last := states[..|states| - 1], states[|states| - 1];
      assert states == shorter + [last];
      SortedPermutation(shorter);
      InsertSorts(SortByName(shorter), last);
    }
  }

  lemma SortedEmpty()
    ensures Sorted([])
  {
  }

  /** The order is that of the first differing character; a proper prefix comes first. */
  lemma {:induction false} BeforeMeans(a: string, b: string)
    ensures NameBefore(a, b) <==>
              exists k | 0 <= k <= |a| && k < |b| :: a[..k] == b[..k] && (k == |a| || a[k] < b[k])
  {
    forall k | 0 < k <= |a| && k < |b| && a[..k] == b[..k]
      ensures a[0] == b[0]
    {
      assert a[..k][0] == b[..k][0];
    }
    if a != [] && b != [] && a[0] == b[0] {
      var x, y := a[1..], b[1..];
      BeforeMeans(x, y);
      forall k | 0 <= k <= |x| && k < |y|
        ensures (x[..k] == y[..k] && (k == |x| || x[k] < y[k])) <==>
                  (a[..k + 1] == b[..k + 1] && (k + 1 == |a| || a[k + 1] < b[k + 1]))
      {
        assert a[..k + 1] == [a[0]] + x[..k] && b[..k + 1] == [b[0]] + y[..k];
        assert a[..k + 1][1..] == x[..k] && b[..k + 1][1..] == y[..k];
      }
      if NameBefore(a, b) {
        var k :| 0 <= k <= |x| && k < |y| && x[..k] == y[..k] && (k == |x| || x[k] < y[k]);
        assert a[..k + 1] == b[..k + 1];
      }
      if k :| 0 <= k <= |a| && k < |b| && a[..k] == b[..k] && (k == |a| || a[k] < b[k]) {
        assert k > 0;
        var j := k - 1;
        assert a[..j + 1] == b[..j + 1];
        assert x[..j] == y[..j];
      }
    } else {
      if NameBefore(a, b) {
        assert a[..0] == b[..0];
      }
    }
  }

  ghost predicate OnePerName(states: seq<NodeStatus>) {
    forall i, j | 0 <= i < |states| && 0 <= j < |states| && i != j :: states[i].name != states[j].name
  }

  lemma TwiceInMultiset(s: seq<NodeStatus>, i: nat, j: nat)
    requires i < j < |s| && s[i] == s[j]
    ensures multiset(s)[s[i]] >= 2
  {
    assert s == s[..j] + ([s[j]] + s[j + 1..]);
    assert s[i] in s[..j];
  }

  lemma AgainElsewhere(s: seq<NodeStatus>, i: nat) returns (j: nat)
    requires i < |s| && multiset(s)[s[i]] >= 2
    ensures j < |s| && j != i && s[j] == s[i]
  {
    var x, before, after := s[i], s[..i], s[i + 1..];
    assert s == before + [x] + after;
    assert multiset(before)[x] + 1 + multiset(after)[x] == multiset(s)[x];
    if x in before {
      j := Position(before, x);
    } else {
      assert multiset(before)[x] == 0;
      assert x in multiset(after);
      var k := Position(after, x);
      j := i + 1 + k;
    }
  }

  lemma Position(s: seq<NodeStatus>, x: NodeStatus) returns (k: nat)
    requires x in s
    ensures k < |s| && s[k] == x
  {
    k :| 0 <= k < |s| && s[k] == x;
  }

  lemma PermutedOnePerName(a: seq<NodeStatus>, b: seq<NodeStatus>)
    requires multiset(a) == multiset(b) && OnePerName(b)
    ensures OnePerName(a)
  {
    forall i, j | 0 <= i < j < |a|
      ensures a[i].name != a[j].name
    {
      assert a[i] in multiset(b) && a[j] in multiset(b);
      var p :| 0 <= p < |b| && b[p] == a[i];
      if a[i] == a[j] {
        TwiceInMultiset(a, i, j);
        var q := AgainElsewhere(b, p);
      } else {
        var q :| 0 <= q < |b| && b[q] == a[j];
      }
    }
  }

  // ---- What a reconcile publishes ---------------------------------------------------

  /** Settling renames nothing and drops nothing. */
  lemma SettledNames(w: World, c: Ctx)
    requires Listing(w, c)
    ensures |Advanced(w, c).states| == |Settled(w, c)| == |ObserveAll(w, c)|
    ensures forall i | 0 <= i < |Settled(w, c)| ::
              Settled(w, c)[i].name == Advanced(w, c).states[i].name == ObserveAll(w, c)[i].name
  {
    hide Begin, Turns, ObserveAll, Shape, Halted;
    LocalMeans(w, c);
    if Acts(c) && !Halted(w, c) {
      PassShape(w, c, |Begin(w, c).states|);
      ShapeNames(w, c, Advanced(w, c), |Begin(w, c).states|);
    }
  }

  lemma SettledDistinct(w: World, c: Ctx, i: nat, j: nat)
    requires Listing(w, c) && i < |Settled(w, c)| && j < |Settled(w, c)| && i != j
    ensures Settled(w, c)[i].name != Settled(w, c)[j].name
  {
    hide ObserveAll, Settled, Advanced;
    SettledNames(w, c);
    if i < j { ObservedDistinct(w, c, i, j); } else { ObservedDistinct(w, c, j, i); }
  }

  lemma SettledOnePerName(w: World, c: Ctx)
    requires Listing(w, c)
    ensures OnePerName(Settled(w, c))
  {
    hide Settled, Listing;
    forall i, j | 0 <= i < |Settled(w, c)| && 0 <= j < |Settled(w, c)| && i != j
      ensures Settled(w, c)[i].name != Settled(w, c)[j].name
    {
      SettledDistinct(w, c, i, j);
    }
  }

  ghost predicate SameEntries(a: seq<NodeStatus>, b: seq<NodeStatus>) {
    forall ns :: ns in a <==> ns in b
  }

  lemma PublishedEntries(w: World, c: Ctx)
    requires Lists(w, c)
    ensures Reconcile(w, c).states == SortByName(Settled(w, c))
    ensures SameEntries(Reconcile(w, c).states, Settled(w, c))
  {
    hide Settled, Advanced, SortByName, TidyAll, Lists, Announcements, Summarize, Explained;
    SortedPermutation(Settled(w, c));
    forall ns
      ensures ns in SortByName(Settled(w, c)) <==> ns in Settled(w, c)
    {
      assert ns in multiset(SortByName(Settled(w, c))) <==> ns in multiset(Settled(w, c));
    }
  }

  /** The status lists exactly the matched nodes, conflicting ones included, each once, in name order. */
  lemma PublishesMatchedNodes(w: World, c: Ctx)
    requires Listing(w, c) && Lists(w, c)
    ensures var out := Reconcile(w, c).states;
            && Sorted(out) && OnePerName(out)
            && (forall n :: (exists ns <- out :: ns.name == n) <==> n in w.nodes && Matches(w.nodes[n], c))
  {
    hide ObserveAll, Settled, Advanced, Reconcile, Listing, Lists, Matches, Sorted, OnePerName;
    PublishedEntries(w, c);
    SortedPermutation(Settled(w, c));
    SettledNames(w, c);
    SettledOnePerName(w, c);
    PermutedOnePerName(SortByName(Settled(w, c)), Settled(w, c));
    forall n
      ensures (exists ns <- Settled(w, c) :: ns.name == n) <==> n in w.nodes && Matches(w.nodes[n], c)
    {
      if n in w.nodes && Matches(w.nodes[n], c) {
        var i := ObservedCovers(w, c, n);
        assert Settled(w, c)[i] in Settled(w, c);
      }
      if ns :| ns in Settled(w, c) && ns.name == n {
        var i :| 0 <= i < |Settled(w, c)| && Settled(w, c)[i] == ns;
        ObservedAt(w, c, i);
      }
    }
  }

  /** What the columns of any list with the given entries say. */
  lemma ColumnsMean(states: seq<NodeStatus>, entries: seq<NodeStatus>)
    requires SameEntries(entries, states)
    ensures var s := Summarize(states);
            && (s.inProgress > 0 || s.pending > 0 <==> exists ns <- entries :: ns.state != Done && ns.state != Failed)
            && (TopLevelConditions(s).ready <==> forall ns <- entries :: ns.state == Done)
            && (TopLevelConditions(s).progressing <==>
                (forall ns <- entries :: ns.state != Failed) && exists ns <- entries :: ns.state != Done)
  {
    hide Where, TopLevelConditions;
    SummaryAddsUp(states);
    ReadyMeans(states);
    SomeWhere(states, IS_IN_FLIGHT);
    SomeWhere(states, IS_PENDING);
    assert forall st :: IS_IN_FLIGHT(st) || IS_PENDING(st) <==> st != Done && st != Failed;
    forall ns
      ensures ns in entries <==> exists i | 0 <= i < |states| :: states[i] == ns
    {
    }
  }

  /** A reconcile is complete exactly when its listings were answered, its selector is well-formed and its status was
      written. It asks to run again exactly when it is not, or a node it published is neither Done nor Failed. With the
      listings answered, Ready says that every matched node is published as Done, Progressing that none is published as
      Failed and some is not Done. */
  lemma RequeueMeans(w: World, c: Ctx)
    ensures var r := Reconcile(w, c);
            && (r.completed <==>
                c.api.nodesListed && WellFormed(c.spec.selector) && c.api.jobsListed && c.api.statusWritten)
            && (r.requeue <==> !r.completed || exists ns <- r.states :: ns.state != Done && ns.state != Failed)
            && (Lists(w, c) ==>
                  && (TopLevelConditions(r.summary).ready <==> forall ns <- r.states :: ns.state == Done)
                  && (TopLevelConditions(r.summary).progressing <==>
                      (forall ns <- r.states :: ns.state != Failed) && exists ns <- r.states :: ns.state != Done))
  {
    hide Settled, Advanced, SortByName, TidyAll, Summarize, Announcements, Explained, TopLevelConditions, WellFormed,
         SameEntries;
    if Lists(w, c) {
      PublishedEntries(w, c);
      ColumnsMean(Settled(w, c), Reconcile(w, c).states);
    }
  }

  /** Nothing that waits on purpose goes unexplained: while a policy is switched off, paused or halted, every
      node it publishes as Pending carries a reason. */
  lemma ParkedNodesAreExplained(w: World, c: Ctx)
    requires Lists(w, c) && (!Acts(c) || Halted(w, c))
    ensures forall ns <- Reconcile(w, c).states :: ns.state.Pending? ==> ns.reason != NoReason
  {
    hide Advanced, Lists, Reconcile, Find, Halted;
    PublishedEntries(w, c);
    forall ns <- Settled(w, c)
      ensures ns.state.Pending? ==> ns.reason != NoReason
    {
    }
  }
}
