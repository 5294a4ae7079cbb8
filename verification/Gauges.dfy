/** The per-policy gauges mirror the status, for any interleaving of reconciles and deletions. */
module Gauges {
  import opened Kube
  import opened Firmware
  import opened Status

  const ALL_STATES: seq<NodeState> := [Pending, Cordoning, Draining, Flashing, Uncordoning, Done, Failed]

  function InState(st: NodeState): NodeState -> bool {
    (other: NodeState) => other == st
  }

  function CountIn(states: seq<NodeStatus>, st: NodeState): nat {
    |Where(states, InState(st))|
  }

  /** The seven counts add up to the entries, and give the summary's columns. */
  lemma {:induction false} CountsAddUp(states: seq<NodeStatus>)
    ensures Summarize(states).matched ==
            CountIn(states, Pending) + CountIn(states, Cordoning) + CountIn(states, Draining)
            + CountIn(states, Flashing) + CountIn(states, Uncordoning) + CountIn(states, Done) + CountIn(states, Failed)
    ensures CountIn(states, Done) == Summarize(states).upToDate && CountIn(states, Failed) == Summarize(states).failed
    ensures CountIn(states, Pending) == Summarize(states).pending
  {
    hide CountIn;
    forall st
      ensures CountIn(states, st) == if states == [] then 0
              else CountIn(states[..|states| - 1], st) + if states[|states| - 1].state == st then 1 else 0
    {
      CountInStep(states, st);
    }
    if states != [] {
      CountsAddUp(states[..|states| - 1]);
    }
  }

  // ---- Gauge families as values -----------------------------------------------------

  /** Series by (policy, state) and by (policy, version). */
  datatype Families = Families(nodes: map<(string, NodeState), nat>, desired: map<(string, string), nat>)

  const NO_SERIES := Families(map[], map[])

  function Recorded(f: Families, cr: string, states: seq<NodeStatus>, version: string): Families {
    var counts := map st <- ALL_STATES :: (cr, st) := CountIn(states, st);
    Families(f.nodes + counts, DropVersions(f.desired, cr)[(cr, version) := 1])
  }

  function DropVersions(desired: map<(string, string), nat>, cr: string): map<(string, string), nat> {
    map k | k in desired && k.0 != cr :: desired[k]
  }

  function DropNodes(nodes: map<(string, NodeState), nat>, cr: string): map<(string, NodeState), nat> {
    map k | k in nodes && k.0 != cr :: nodes[k]
  }

  function Dropped(f: Families, cr: string): Families {
    Families(DropNodes(f.nodes, cr), DropVersions(f.desired, cr))
  }

  datatype Event = Reconciled(cr: string, states: seq<NodeStatus>, version: string) | Removed(cr: string)

  function After(es: seq<Event>): Families {
    if es == [] then NO_SERIES
    else match es[|es| - 1]
      case Reconciled(cr, states, version) => Recorded(After(es[..|es| - 1]), cr, states, version)
      case Removed(cr) => Dropped(After(es[..|es| - 1]), cr)
  }

  /** The last thing that happened to a policy, unless it was removed since. */
  function Latest(es: seq<Event>, cr: string): Option<Event> {
    if es == [] then None
    else if es[|es| - 1].cr != cr then Latest(es[..|es| - 1], cr)
    else if es[|es| - 1].Removed? then None
    else Some(es[|es| - 1])
  }

  /** What the gauges show of one policy. */
  predicate Shows(f: Families, cr: string, latest: Option<Event>) {
    match latest
    case None => (forall k <- f.nodes :: k.0 != cr) && (forall k <- f.desired :: k.0 != cr)
    case Some(e) =>
      && e.Reconciled?
      && (forall st: NodeState :: (cr, st) in f.nodes && f.nodes[(cr, st)] == CountIn(e.states, st))
      && (forall k <- f.desired :: k.0 == cr ==> k.1 == e.version)
      && (cr, e.version) in f.desired && f.desired[(cr, e.version)] == 1
  }

  lemma EveryState(st: NodeState)
    ensures st in ALL_STATES
  {
    assert ALL_STATES[0] == Pending && ALL_STATES[1] == Cordoning && ALL_STATES[2] == Draining
          && ALL_STATES[3] == Flashing;
    assert ALL_STATES[4] == Uncordoning && ALL_STATES[5] == Done && ALL_STATES[6] == Failed;
  }

  lemma RecordingShows(f: Families, cr: string, states: seq<NodeStatus>, version: string)
    ensures Shows(Recorded(f, cr, states, version), cr, Some(Reconciled(cr, states, version)))
  {
    hide CountIn;
    forall st: NodeState
      ensures var g := Recorded(f, cr, states, version); (cr, st) in g.nodes && g.nodes[(cr, st)] == CountIn(states, st)
    {
      EveryState(st);
    }
  }

  lemma RecordingAnother(f: Families, cr: string, states: seq<NodeStatus>, version: string, other: string,
          latest: Option<Event>)
    requires other != cr && Shows(f, other, latest)
    ensures Shows(Recorded(f, cr, states, version), other, latest)
  {
    hide CountIn;
  }

  lemma Dropping(f: Families, cr: string, other: string, latest: Option<Event>)
    requires other != cr ==> Shows(f, other, latest)
    ensures Shows(Dropped(f, cr), other, if other == cr then None else latest)
  {
    hide CountIn;
  }

  /** After any interleaving: a live policy's seven state gauges show the counts of its latest status and
      exactly one desired version, the one it was last reconciled at; a removed policy has no series. */
  lemma {:induction false} GaugesMirrorStatus(es: seq<Event>, cr: string)
    ensures Shows(After(es), cr, Latest(es, cr))
  {
    hide Shows, Recorded, Dropped;
    if es == [] {
      NothingShown(cr);
    } else {
      var f, latest := After(es[..|es| - 1]), Latest(es[..|es| - 1], cr);
      GaugesMirrorStatus(es[..|es| - 1], cr);
      match es[|es| - 1]
      case Reconciled(other, states, version) =>
        if other == cr {
          RecordingShows(f, cr, states, version);
        } else {
          RecordingAnother(f, other, states, version, cr, latest);
        }
      case Removed(other) => Dropping(f, other, cr, latest);
    }
  }

  lemma NothingShown(cr: string)
    ensures Shows(NO_SERIES, cr, None)
  {
  }

  // ---- The registry -----------------------------------------------------------------

  lemma CountsRecorded(cr: string, states: seq<NodeStatus>, counts: map<NodeState, nat>)
    requires forall st: NodeState :: st in counts && counts[st] == CountIn(states, st)
    ensures (map st <- counts :: (cr, st) := counts[st]) == (map st <- ALL_STATES :: (cr, st) := CountIn(states, st))
  {
    hide CountIn;
    forall st: NodeState
      ensures st in ALL_STATES && st in counts
    {
      EveryState(st);
    }
  }

  lemma CountInStep(states: seq<NodeStatus>, st: NodeState)
    ensures states == [] ==> CountIn(states, st) == 0
    ensures states != [] ==>
              CountIn(states, st) == CountIn(states[..|states| - 1], st) + if states[|states| - 1].state == st
                    then 1 else 0
  {
    if states == [] { WhereNone(InState(st)); } else { WhereStep(states, InState(st)); }
  }

  /** Zeroes for every state, then one count per node. */
  method CountStates(states: seq<NodeStatus>) returns (counts: map<NodeState, nat>)
    ensures forall st: NodeState :: st in counts && counts[st] == CountIn(states, st)
  {
    hide CountIn;
    counts := map[];
    for i := 0 to |ALL_STATES|
      invariant counts == map st <- ALL_STATES[..i] :: 0
    {
      counts := counts[ALL_STATES[i] := 0];
    }
    assert ALL_STATES[..|ALL_STATES|] == ALL_STATES;
    forall st: NodeState
      ensures st in counts && CountIn(states[..0], st) == 0
    {
      EveryState(st);
      CountInStep(states[..0], st);
    }
    for i := 0 to |states|
      invariant forall st: NodeState :: st in counts && counts[st] == CountIn(states[..i], st)
    {
      assert states[..i + 1][..i] == states[..i];
      var st := states[i].state;
      forall other: NodeState
        ensures CountIn(states[..i + 1], other) == CountIn(states[..i], other) + if st == other then 1 else 0
      {
        CountInStep(states[..i + 1], other);
      }
      counts := counts[st := counts[st] + 1];
    }
    assert states[..|states|] == states;
  }

  /** All series of other policies are there as before. */
  ghost predicate SameElsewhere<K(!new)>(a: map<(string, K), nat>, b: map<(string, K), nat>, cr: string) {
    forall k: (string, K) | k.0 != cr :: (k in a <==> k in b) && (k in a ==> b[k] == a[k])
  }

  lemma DesiredIs(a: map<(string, string), nat>, b: map<(string, string), nat>, cr: string, version: string)
    requires SameElsewhere(a, b, cr) && (forall v :: (cr, v) in b <==> v == version) && b[(cr, version)] == 1
    ensures b == DropVersions(a, cr)[(cr, version) := 1]
  {
    forall k: (string, string)
      ensures k in b <==> k in DropVersions(a, cr)[(cr, version) := 1]
    {
      assert k == (k.0, k.1);
    }
  }

  class Registry {
    var nodes: map<(string, NodeState), nat>
    var desired: map<(string, string), nat>

    constructor ()
      ensures F() == NO_SERIES
    {
      nodes, desired := map[], map[];
    }

    function F(): Families
      reads this
    {
      Families(nodes, desired)
    }

    method RecordPolicy(cr: string, states: seq<NodeStatus>, version: string)
      modifies this
      ensures F() == Recorded(old(F()), cr, states, version)
    {
      hide CountIn, DropVersions;
      var counts := CountStates(states);
      CountsRecorded(cr, states, counts);
      hide ALL_STATES;
      ghost var before := desired;
      SetPolicyNodes(cr, counts);
      SetDesiredVersion(cr, version);
      DesiredIs(before, desired, cr, version);
    }

    /** One series per given state, in any order. */
    method SetPolicyNodes(cr: string, counts: map<NodeState, nat>)
      modifies `nodes
      ensures nodes == old(nodes) + map st <- counts :: (cr, st) := counts[st]
    {
      ghost var before := nodes;
      var rest := counts.Keys;
      while rest != {}
        invariant rest <= counts.Keys
        invariant nodes == before + map st | st in counts && st !in rest :: (cr, st) := counts[st]
        decreases rest
      {
        var st :| st in rest;
        rest := rest - {st};
        nodes := nodes[(cr, st) := counts[st]];
      }
    }

    /** Drops the version shown before, then shows this one. */
    method SetDesiredVersion(cr: string, version: string)
      modifies `desired
      ensures forall v :: (cr, v) in desired <==> v == version
      ensures desired[(cr, version)] == 1
      ensures SameElsewhere(old(desired), desired, cr)
    {
      desired := DropVersions(desired, cr);
      desired := desired[(cr, version) := 1];
    }

    method DeletePolicySeries(cr: string)
      modifies this
      ensures (forall k <- nodes :: k.0 != cr) && (forall k <- desired :: k.0 != cr)
      ensures SameElsewhere(old(nodes), nodes, cr) && SameElsewhere(old(desired), desired, cr)
      ensures F() == Dropped(old(F()), cr)
    {
      nodes := DropNodes(nodes, cr);
      desired := DropVersions(desired, cr);
    }
  }
}
