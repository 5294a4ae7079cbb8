/** The gauges against the statuses of whole runs: they mirror what is published as long as status writes land,
    and part from it exactly when one does not. */
module GaugeHistory {
  import opened Kube
  import opened Firmware
  import opened Protocol
  import opened Passes
  import opened SlotBound
  import opened History
  import G = Gauges

  /** What an event does to the gauges: a reconcile that got as far as publishing sets them before it writes
      its status; a deleted policy's series are dropped. */
  function NewGaugeEvents(v: World, e: Event): seq<G.Event> {
    match e
    case Reconciled(c) => if Lists(v, c) then [G.Reconciled(c.cr, Reconcile(v, c).states, c.spec.version)] else []
    case PolicyRemoved(cr) => [G.Removed(cr)]
    case _ => []
  }

  function GaugeEvents(w: World, es: seq<Event>): seq<G.Event> {
    if es == [] then [] else GaugeEvents(w, es[..|es| - 1]) + NewGaugeEvents(Run(w, es[..|es| - 1]), es[|es| - 1])
  }

  /** The version of the policy's latest listed reconcile. */
  function LatestVersion(w: World, es: seq<Event>, cr: string): string {
    if es == [] then ""
    else NextVersion(Run(w, es[..|es| - 1]), es[|es| - 1], cr, LatestVersion(w, es[..|es| - 1], cr))
  }

  /** The gauges of a policy show its published status: a count for each state, one version; and without a
      status there is no series. */
  ghost predicate Mirrors(f: G.Families, v: World, cr: string, version: string) {
    if cr in v.status then
      && (forall st: NodeState :: (cr, st) in f.nodes && f.nodes[(cr, st)] == G.CountIn(v.status[cr], st))
      && (forall x :: (cr, x) in f.desired <==> x == version)
    else
      && (forall k <- f.nodes :: k.0 != cr)
      && (forall k <- f.desired :: k.0 != cr)
  }

  /** The latest gauge event and the published status tell the same. */
  predicate SameStory(latest: Option<G.Event>, v: World, cr: string, version: string) {
    match latest
    case None => cr !in v.status
    case Some(e) => e.Reconciled? && e.version == version && cr in v.status && v.status[cr] == e.states
  }

  lemma LatestAfter(gs: seq<G.Event>, more: seq<G.Event>, cr: string)
    requires |more| <= 1
    ensures G.Latest(gs + more, cr) ==
            if more == [] || more[0].cr != cr then G.Latest(gs, cr)
            else if more[0].Removed? then None else Some(more[0])
  {
    if more == [] {
      assert gs + more == gs;
    } else {
      assert (gs + more)[..|gs + more| - 1] == gs;
    }
  }

  /** The version after one more event. */
  function NextVersion(v: World, e: Event, cr: string, version: string): string {
    if e.Reconciled? && e.c.cr == cr && Lists(v, e.c) then e.c.spec.version else version
  }

  lemma OccurTellsTheSame(v: World, e: Event, cr: string, gs: seq<G.Event>, version: string)
    requires (e.Reconciled? ==> Listing(v, e.c)) && Writes(e, cr) && SameStory(G.Latest(gs, cr), v, cr, version)
    ensures SameStory(G.Latest(gs + NewGaugeEvents(v, e), cr), Occur(v, e), cr, NextVersion(v, e, cr, version))
  {
    hide Reconcile, Listing, Lists, G.Latest;
    LatestAfter(gs, NewGaugeEvents(v, e), cr);
    if e.Reconciled? {
      ReconcileStatuses(v, e.c);
      CompletedWhen(v, e.c);
    }
  }

  lemma {:induction false} TellsTheSame(w: World, es: seq<Event>, cr: string)
    requires Faithful(w, es) && cr !in w.status
    requires forall i | 0 <= i < |es| :: Writes(es[i], cr)
    ensures SameStory(G.Latest(GaugeEvents(w, es), cr), Run(w, es), cr, LatestVersion(w, es, cr))
  {
    hide Occur, Listing, Lists, Writes, NewGaugeEvents, SameStory;
    if es == [] {
      NothingTold(w, cr);
    } else {
      var shorter := es[..|es| - 1];
      FaithfulPrefix(w, es);
      TellsTheSame(w, shorter, cr);
      OccurTellsTheSame(Run(w, shorter), es[|es| - 1], cr, GaugeEvents(w, shorter), LatestVersion(w, shorter, cr));
    }
  }

  lemma NothingTold(w: World, cr: string)
    requires cr !in w.status
    ensures SameStory(G.Latest([], cr), w, cr, "")
  {
  }

  lemma ShownIsMirrored(f: G.Families, latest: Option<G.Event>, v: World, cr: string, version: string)
    requires G.Shows(f, cr, latest) && SameStory(latest, v, cr, version)
    ensures Mirrors(f, v, cr, version)
  {
    hide G.CountIn;
    if latest.Some? {
      forall x
        ensures (cr, x) in f.desired <==> x == version
      {
        assert (cr, x).0 == cr && (cr, x).1 == x;
      }
    }
  }

  /** Over any interleaving of reconciles, deletions and everything else: as long as a policy's own status writes
      land, its seven gauges show its published status and its one version; once it is deleted it has no series. */
  lemma GaugesMirrorPublished(w: World, es: seq<Event>, cr: string)
    requires Faithful(w, es) && cr !in w.status
    requires forall i | 0 <= i < |es| :: Writes(es[i], cr)
    ensures Mirrors(G.After(GaugeEvents(w, es)), Run(w, es), cr, LatestVersion(w, es, cr))
  {
    hide Run, GaugeEvents, G.After, G.Shows, SameStory, Mirrors, Faithful, LatestVersion;
    TellsTheSame(w, es, cr);
    G.GaugesMirrorStatus(GaugeEvents(w, es), cr);
    ShownIsMirrored(G.After(GaugeEvents(w, es)), G.Latest(GaugeEvents(w, es), cr), Run(w, es), cr,
          LatestVersion(w, es, cr));
  }

  /** After one listed reconcile, from whatever the gauges showed: they agree with the published status exactly when
      the status write landed or the reconcile moved no count. */
  lemma AgreesExactlyWhen(w: World, c: Ctx, f: G.Families)
    requires Listing(w, c) && Lists(w, c)
    ensures var r := Reconcile(w, c);
            var g := G.Recorded(f, c.cr, r.states, c.spec.version);
            (forall st: NodeState ::
                  (c.cr, st) in g.nodes && g.nodes[(c.cr, st)] == G.CountIn(Published(r.w, c.cr), st)) <==>
            (c.api.statusWritten || forall st: NodeState ::
                  G.CountIn(Published(w, c.cr), st) == G.CountIn(r.states, st))
  {
    hide Reconcile, Listing, Lists, G.CountIn;
    var r := Reconcile(w, c);
    ReconcileStatus(w, c, c.cr);
    CompletedWhen(w, c);
    G.RecordingShows(f, c.cr, r.states, c.spec.version);
  }
}
