/** Transition times and events: what the status says a node has been doing, and for how long,
    is the truth about every reconcile since the policy was created. */
module History {
  import opened Kube
  import opened Firmware
  import opened Protocol
  import opened Passes
  import opened SlotBound
  import opened Status

  /** What one reconcile published about a node, if anything, and when. */
  datatype Shown = Shown(state: NodeState, reason: Reason)

  datatype View = View(time: int, seen: Option<Shown>)

  function ShownOf(entry: Option<NodeStatus>): Option<Shown> {
    if entry.None? then None else Some(Shown(entry.value.state, entry.value.reason))
  }

  // ---- Looking entries up -----------------------------------------------------------

  lemma {:induction false} FindMeans(states: seq<NodeStatus>, n: string)
    ensures Find(states, n).None? <==> forall ns <- states :: ns.name != n
    ensures Find(states, n).Some? ==> Find(states, n).value in states && Find(states, n).value.name == n
  {
    if states != [] {
      FindMeans(states[..|states| - 1], n);
      assert forall ns <- states :: ns in states[..|states| - 1] || ns == states[|states| - 1];
    }
  }

  /** With one entry per name the order of entries does not matter. */
  lemma FindAnyOrder(a: seq<NodeStatus>, b: seq<NodeStatus>, n: string)
    requires OnePerName(b) && SameEntries(a, b)
    ensures Find(a, n) == Find(b, n)
  {
    FindMeans(a, n);
    FindMeans(b, n);
    if Find(a, n).Some? && Find(b, n).Some? {
      var x, y := Find(a, n).value, Find(b, n).value;
      assert x in b && y in b;
      var i :| 0 <= i < |b| && b[i] == x;
      var j :| 0 <= j < |b| && b[j] == y;
    }
  }

  lemma {:induction false} FindStamped(states: seq<NodeStatus>, prev: seq<NodeStatus>, now: int, n: string)
    ensures var found := Find(states, n);
            Find(StampedAll(states, prev, now), n) ==
              if found.None? then None else Some(Stamped(found.value, Find(prev, n), now))
  {
    if states != [] {
      var shorter := states[..|states| - 1];
      FindStamped(shorter, prev, now, n);
      FindMeans(states, n);
      FindMeans(shorter, n);
      assert StampedAll(states, prev, now)[..|states| - 1] == StampedAll(shorter, prev, now);
    }
  }

  /** The events about one node. */
  function About(events: seq<Announcement>, n: string): seq<Announcement> {
    if events == [] then []
    else About(events[..|events| - 1], n) + if events[|events| - 1].node == n then [events[|events| - 1]] else []
  }

  lemma {:induction false} AboutAppend(a: seq<Announcement>, b: seq<Announcement>, n: string)
    ensures About(a + b, n) == About(a, n) + About(b, n)
  {
    if b == [] {
      assert a + b == a;
    } else {
      AboutAppend(a, b[..|b| - 1], n);
      assert (a + b)[..|a + b| - 1] == a + b[..|b| - 1];
    }
  }

  /** A reconcile announces a node at most once, exactly when its entry moved to a pair with a reason. */
  lemma {:induction false} AboutAnnouncements(states: seq<NodeStatus>, prev: seq<NodeStatus>, n: string)
    requires OnePerName(states)
    ensures About(Announcements(states, prev), n) ==
            if Find(states, n).None? then [] else Announce(Find(states, n).value, Find(prev, n))
  {
    hide Unmoved, IsWarning;
    if states != [] {
      var shorter, last := states[..|states| - 1], states[|states| - 1];
      AboutAnnouncements(shorter, prev, n);
      AboutAppend(Announcements(shorter, prev), Announce(last, Find(prev, last.name)), n);
      FindMeans(shorter, n);
    }
  }

  // ---- One reconcile ----------------------------------------------------------------

  predicate SameShown(entry: Option<NodeStatus>, prev: Option<NodeStatus>) {
    entry.Some? && prev.Some? && ShownOf(entry) == ShownOf(prev)
  }

  function ShownIn(events: seq<Announcement>): seq<Shown> {
    seq(|events|, i requires 0 <= i < |events| => Shown(events[i].state, events[i].reason))
  }

  /** The raw entry of a node, before it is stamped. */
  function RawEntry(w: World, c: Ctx, n: string): Option<NodeStatus> {
    Find(Explained(Advanced(w, c).states, c, Halted(w, c)), n)
  }

  lemma PublishedEntry(w: World, c: Ctx, n: string)
    requires Listing(w, c) && Lists(w, c)
    ensures Find(Reconcile(w, c).states, n) ==
            if RawEntry(w, c, n).None? then None
            else Some(Stamped(RawEntry(w, c, n).value, Find(Published(w, c.cr), n), c.now))
  {
    hide Advanced, Halted, Explained, Summarize, TidyAll, Lists, SortByName, Listing, OnePerName, SameEntries, Find,
         Stamped, StampedAll, Reconcile, Published;
    PublishedEntries(w, c);
    SettledOnePerName(w, c);
    FindAnyOrder(Reconcile(w, c).states, Settled(w, c), n);
    FindStamped(Explained(Advanced(w, c).states, c, Halted(w, c)), Published(w, c.cr), c.now, n);
  }

  lemma PublishedEvents(w: World, c: Ctx, n: string)
    requires Listing(w, c) && Lists(w, c)
    ensures About(Reconcile(w, c).events, n) ==
            if RawEntry(w, c, n).None? then [] else Announce(RawEntry(w, c, n).value, Find(Published(w, c.cr), n))
  {
    hide Advanced, Halted, Explained, Summarize, TidyAll, Lists, SortByName, Listing, OnePerName, Find, Settled,
         Announce, About, Published;
    ExplainedOnePerName(w, c);
    AboutAnnouncements(Explained(Advanced(w, c).states, c, Halted(w, c)), Published(w, c.cr), n);
  }

  /** A listed reconcile keeps the time of an entry that did not move, stamps and announces the others. */
  lemma ReconcilePublishes(w: World, c: Ctx, n: string)
    requires Listing(w, c) && Lists(w, c)
    ensures var r, prev := Reconcile(w, c), Find(Published(w, c.cr), n);
            var entry := Find(r.states, n);
            && (entry.Some? ==> entry.value.since == if SameShown(entry, prev) then prev.value.since else c.now)
            && ShownIn(About(r.events, n)) ==
                 if entry.None? || SameShown(entry, prev) || entry.value.reason == NoReason then []
                 else [Shown(entry.value.state, entry.value.reason)]
  {
    hide Reconcile, Lists, Listing, IsWarning, RawEntry, Find, About, Published;
    PublishedEntry(w, c, n);
    PublishedEvents(w, c, n);
  }

  lemma ExplainedOnePerName(w: World, c: Ctx)
    requires Listing(w, c)
    ensures OnePerName(Explained(Advanced(w, c).states, c, Halted(w, c)))
  {
    hide Advanced, Halted, ObserveAll;
    var raw := Explained(Advanced(w, c).states, c, Halted(w, c));
    SettledNames(w, c);
    forall i, j | 0 <= i < |raw| && 0 <= j < |raw| && i != j
      ensures raw[i].name != raw[j].name
    {
      if i < j { ObservedDistinct(w, c, i, j); } else { ObservedDistinct(w, c, j, i); }
    }
  }

  /** Only a completed reconcile touches the published statuses, and only its own policy's. */
  lemma ReconcileStatuses(w: World, c: Ctx)
    requires Listing(w, c)
    ensures var r := Reconcile(w, c);
            r.w.status == if r.completed then w.status[c.cr := r.states] else w.status
  {
    hide Begin, Turns, ObserveAll, Halted, Settled, TidyAll, SortByName, Announcements, Summarize, Explained;
    if Lists(w, c) {
      LocalMeans(w, c);
      PassShape(w, c, |Begin(w, c).states|);
      TidyAllMirrors(Advanced(w, c), Settled(w, c), c);
    } else {
      InterfereKeeps(w, c.api.beforeCount);
    }
  }

  lemma ReconcileStatus(w: World, c: Ctx, cr: string)
    requires Listing(w, c)
    ensures Published(Reconcile(w, c).w, cr) ==
            if c.cr == cr && Reconcile(w, c).completed then Reconcile(w, c).states else Published(w, cr)
  {
    hide Reconcile;
    ReconcileStatuses(w, c);
  }

  // ---- Over whole runs --------------------------------------------------------------

  /** What each completed reconcile of `cr` showed about node `n`, oldest first; a deleted policy shows nothing. */
  function Views(w: World, es: seq<Event>, cr: string, n: string): seq<View> {
    if es == [] then []
    else Views(w, es[..|es| - 1], cr, n) + NewView(Run(w, es[..|es| - 1]), es[|es| - 1], cr, n)
  }

  function NewView(v: World, e: Event, cr: string, n: string): seq<View> {
    if e.Reconciled? && e.c.cr == cr && Reconcile(v, e.c).completed
    then [View(e.c.now, ShownOf(Find(Reconcile(v, e.c).states, n)))]
    else if e == PolicyRemoved(cr) then [View(0, None)]
    else []
  }

  /** The events `cr` emitted about node `n` over the run. */
  function Emitted(w: World, es: seq<Event>, cr: string, n: string): seq<Shown> {
    if es == [] then []
    else Emitted(w, es[..|es| - 1], cr, n) + NewlyEmitted(Run(w, es[..|es| - 1]), es[|es| - 1], cr, n)
  }

  function NewlyEmitted(v: World, e: Event, cr: string, n: string): seq<Shown> {
    if e.Reconciled? && e.c.cr == cr then ShownIn(About(Reconcile(v, e.c).events, n)) else []
  }

  /** View number `j` is the one that changed what is shown last. */
  predicate ChangedLast(vs: seq<View>, j: int) {
    && 0 <= j < |vs|
    && (forall k | j <= k < |vs| :: vs[k].seen == vs[|vs| - 1].seen)
    && (j > 0 ==> vs[j - 1].seen != vs[j].seen)
  }

  /** The shown pairs that differ from the view before them and carry a reason. */
  function Changes(vs: seq<View>): seq<Shown> {
    if vs == [] then []
    else
      var last := vs[|vs| - 1].seen;
      var moved := last.Some? && last.value.reason != NoReason && (|vs| == 1 || vs[|vs| - 2].seen != last);
      Changes(vs[..|vs| - 1]) + if moved then [last.value] else []
  }

  /** Status writes of this policy succeed. */
  predicate Writes(e: Event, cr: string) { e.Reconciled? && e.c.cr == cr ==> e.c.api.statusWritten }

  /** The published entry is what the last view showed, stamped with the time of the last change. */
  ghost predicate Truthful(entry: Option<NodeStatus>, vs: seq<View>) {
    && ShownOf(entry) == (if vs == [] then None else vs[|vs| - 1].seen)
    && (entry.Some? ==> exists j :: ChangedLast(vs, j) && entry.value.since == vs[j].time)
  }

  lemma StillTruthful(entry: Option<NodeStatus>, vs: seq<View>, next: Option<NodeStatus>, now: int)
    requires Truthful(entry, vs)
    requires next.Some? ==> next.value.since == if SameShown(next, entry) then entry.value.since else now
    ensures Truthful(next, vs + [View(now, ShownOf(next))])
    ensures Changes(vs + [View(now, ShownOf(next))]) ==
            Changes(vs) + if next.None? || SameShown(next, entry) || next.value.reason == NoReason then []
                          else [Shown(next.value.state, next.value.reason)]
  {
    var more := vs + [View(now, ShownOf(next))];
    assert more[..|more| - 1] == vs;
    if next.Some? {
      if SameShown(next, entry) {
        var j :| ChangedLast(vs, j) && entry.value.since == vs[j].time;
        assert ChangedLast(more, j);
      } else {
        assert ChangedLast(more, |vs|);
      }
    }
  }

  /** One more event keeps the published entry truthful and emits what the new view calls for. */
  lemma OccurTruthful(v: World, e: Event, cr: string, n: string, vs: seq<View>)
    requires (e.Reconciled? ==> Listing(v, e.c)) && Writes(e, cr) && Truthful(Find(Published(v, cr), n), vs)
    ensures Truthful(Find(Published(Occur(v, e), cr), n), vs + NewView(v, e, cr, n))
    ensures Changes(vs + NewView(v, e, cr, n)) == Changes(vs) + NewlyEmitted(v, e, cr, n)
  {
    hide Reconcile, Listing, Find, About, Truthful, Changes;
    assert vs + [] == vs;
    if e == PolicyRemoved(cr) {
      RemovedShowsNothing(v, cr, n);
      StillTruthful(Find(Published(v, cr), n), vs, None, 0);
    } else if e.Reconciled? {
      ReconcileStatus(v, e.c, cr);
      if e.c.cr == cr {
        CompletedWhen(v, e.c);
        if Lists(v, e.c) {
          ReconcilePublishes(v, e.c, n);
          StillTruthful(Find(Published(v, cr), n), vs, Find(Reconcile(v, e.c).states, n), e.c.now);
        } else {
          assert About([], n) == [] by { NothingAbout(n); }
          assert ShownIn([]) == [];
        }
      }
    }
  }

  lemma RemovedShowsNothing(v: World, cr: string, n: string)
    ensures Find(Published(v.(status := v.status - {cr}), cr), n) == None
  {
  }

  lemma NothingAbout(n: string)
    ensures About([], n) == []
  {
  }

  lemma CompletedWhen(w: World, c: Ctx)
    ensures Reconcile(w, c).completed == (Lists(w, c) && c.api.statusWritten)
    ensures !Lists(w, c) ==> Reconcile(w, c).events == []
  {
  }

  /** Over any run whose status writes succeed, interleaved with anything: a node's published entry
      carries the time of the latest reconcile that changed its (state, reason), and the events emitted
      about it are exactly those changes that have a reason, in order. */
  lemma {:induction false} PublishedHistory(w: World, es: seq<Event>, cr: string, n: string)
    requires Faithful(w, es) && cr !in w.status
    requires forall i | 0 <= i < |es| :: Writes(es[i], cr)
    ensures Truthful(Find(Published(Run(w, es), cr), n), Views(w, es, cr, n))
    ensures Emitted(w, es, cr, n) == Changes(Views(w, es, cr, n))
  {
    hide Occur, Listing, Writes, Truthful, Changes, NewView, NewlyEmitted;
    if es == [] {
      NothingPublished(w, cr, n);
    } else {
      var shorter := es[..|es| - 1];
      FaithfulPrefix(w, es);
      PublishedHistory(w, shorter, cr, n);
      OccurTruthful(Run(w, shorter), es[|es| - 1], cr, n, Views(w, shorter, cr, n));
    }
  }

  lemma NothingPublished(w: World, cr: string, n: string)
    requires cr !in w.status
    ensures Truthful(Find(Published(w, cr), n), []) && Changes([]) == []
  {
  }
}
