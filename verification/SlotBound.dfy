/** The parallelism cap: however patches fail, caps and versions change, and Jobs finish meanwhile,
    a policy never has more unfinished flash Jobs than its cap allows. */
module SlotBound {
  import opened Kube
  import opened Firmware
  import opened Protocol
  import opened Steps
  import opened Passes

  function Max(a: int, b: int): int { if a < b then b else a }

  lemma {:induction false} SubsetSize<T>(a: set<T>, b: set<T>)
    requires a <= b
    ensures |a| <= |b|
  {
    if a != {} {
      var x :| x in a;
      SubsetSize(a - {x}, b - {x});
    }
  }

  /** One policy's Jobs whose outcome is in `keep`. */
  function Kept(jobs: map<JobId, Job>, cr: string, keep: set<JobOutcome>): set<JobId> {
    set id | id in jobs && id.cr == cr && Outcome(jobs[id]) in keep
  }

  function Tally(jobs: map<JobId, Job>, cr: string, keep: set<JobOutcome>): nat {
    |Kept(jobs, cr, keep)|
  }

  const UNFINISHED: set<JobOutcome> := {Running}

  lemma InFlightIsTally(jobs: map<JobId, Job>, cr: string)
    ensures InFlight(jobs, cr) == Tally(jobs, cr, UNFINISHED)
  {
    assert Active(jobs, cr) == Kept(jobs, cr, UNFINISHED);
  }

  lemma TallyShrinks(a: map<JobId, Job>, b: map<JobId, Job>, cr: string, keep: set<JobOutcome>)
    requires Progressed(a, b) && Running in keep
    ensures Tally(b, cr, keep) <= Tally(a, cr, keep)
  {
    SubsetSize(Kept(b, cr, keep), Kept(a, cr, keep));
  }

  lemma InFlightShrinks(a: map<JobId, Job>, b: map<JobId, Job>, cr: string)
    requires Progressed(a, b)
    ensures InFlight(b, cr) <= InFlight(a, cr)
  {
    SubsetSize(Active(b, cr), Active(a, cr));
  }

  lemma TallyGrows(a: map<JobId, Job>, b: map<JobId, Job>, id: JobId, cr: string, keep: set<JobOutcome>)
    requires Created(a, b, id) && Running in keep
    ensures Tally(b, cr, keep) == Tally(a, cr, keep) + if id.cr == cr then 1 else 0
  {
    if id.cr == cr {
      assert Kept(b, cr, keep) == Kept(a, cr, keep) + {id};
    } else {
      assert Kept(b, cr, keep) == Kept(a, cr, keep);
    }
  }

  /** Counted Jobs plus slots left never grow, so no failed patch can leak a slot. */
  lemma TurnSpends(s0: Pass, i: nat, c: Ctx, keep: set<JobOutcome>)
    requires Sane(s0) && i < |s0.states| && FreshAt(s0, i) && Running in keep
    ensures var t := Turn(s0, i, c);
            Tally(t.w.jobs, c.cr, keep) + Max(0, t.capacity) <= Tally(s0.w.jobs, c.cr, keep) + Max(0, s0.capacity)
    ensures forall cr | cr != c.cr :: Tally(Turn(s0, i, c).w.jobs, cr, keep) <= Tally(s0.w.jobs, cr, keep)
  {
    hide Turn, Kept, FreshAt, Tally;
    var d, t, id := Disturbed(s0, i, c), Turn(s0, i, c), JobFor(s0.states[i].name, c);
    TurnJobs(s0, i, c);
    InterferenceProgresses(s0.w, c.api.before(i));
    forall cr
      ensures Tally(d.w.jobs, cr, keep) <= Tally(s0.w.jobs, cr, keep)
      ensures Created(d.w.jobs, t.w.jobs, id) ==>
                Tally(t.w.jobs, cr, keep) == Tally(d.w.jobs, cr, keep) + if id.cr == cr then 1 else 0
    {
      TallyShrinks(s0.w.jobs, d.w.jobs, cr, keep);
      if Created(d.w.jobs, t.w.jobs, id) {
        TallyGrows(d.w.jobs, t.w.jobs, id, cr, keep);
      }
    }
  }

  lemma {:induction false} TurnsSpend(w: World, c: Ctx, k: nat, keep: set<JobOutcome>)
    requires Listing(w, c) && k <= |Begin(w, c).states| && Running in keep
    ensures var s0, s := Begin(w, c), Turns(Begin(w, c), k, c);
            && Tally(s.w.jobs, c.cr, keep) + Max(0, s.capacity) <= Tally(s0.w.jobs, c.cr, keep) + Max(0, s0.capacity)
            && (forall cr | cr != c.cr :: Tally(s.w.jobs, cr, keep) <= Tally(s0.w.jobs, cr, keep))
  {
    hide Turn, Tally, Begin, FreshAt;
    if k > 0 {
      TurnsSpend(w, c, k - 1, keep);
      PassShape(w, c, k - 1);
      TurnSpends(Turns(Begin(w, c), k - 1, c), k - 1, c, keep);
    }
  }

  /** At every point inside the advance loop, unfinished Jobs stay within the cap (or within what
      was already running, when the cap has been lowered). Other policies gain none. */
  lemma PassWithinCap(w: World, c: Ctx, k: nat)
    requires Listing(w, c) && k <= |Begin(w, c).states|
    ensures var jobs := Turns(Begin(w, c), k, c).w.jobs;
            && InFlight(jobs, c.cr) <= Max(MaxParallel(c.spec), InFlight(w.jobs, c.cr))
            && (forall cr | cr != c.cr :: InFlight(jobs, cr) <= InFlight(w.jobs, cr))
  {
    hide Kept, Tally, InFlight, Turns, ObserveAll;
    TurnsSpend(w, c, k, UNFINISHED);
    InterferenceProgresses(w, c.api.beforeCount);
    forall cr
      ensures InFlight(Begin(w, c).w.jobs, cr) == Tally(Begin(w, c).w.jobs, cr, UNFINISHED) <= InFlight(w.jobs, cr)
      ensures InFlight(Turns(Begin(w, c), k, c).w.jobs, cr) == Tally(Turns(Begin(w, c), k, c).w.jobs, cr, UNFINISHED)
    {
      TallyShrinks(w.jobs, Begin(w, c).w.jobs, cr, UNFINISHED);
      InFlightIsTally(w.jobs, cr);
      InFlightIsTally(Begin(w, c).w.jobs, cr);
      InFlightIsTally(Turns(Begin(w, c), k, c).w.jobs, cr);
    }
  }

  lemma ReconcileWithinCap(w: World, c: Ctx)
    requires Listing(w, c)
    ensures var jobs := Reconcile(w, c).w.jobs;
            && InFlight(jobs, c.cr) <= Max(MaxParallel(c.spec), InFlight(w.jobs, c.cr))
            && (forall cr | cr != c.cr :: InFlight(jobs, cr) <= InFlight(w.jobs, cr))
  {
    hide Active, Begin, Turn, Reconcile;
    ReconcileLeaves(w, c);
    if Lists(w, c) {
      PassWithinCap(w, c, 0);
      PassWithinCap(w, c, |Begin(w, c).states|);
    } else {
      InterferenceProgresses(w, c.api.beforeCount);
      forall cr
        ensures InFlight(Interfere(w, c.api.beforeCount).jobs, cr) <= InFlight(w.jobs, cr)
      {
        InFlightShrinks(w.jobs, Interfere(w, c.api.beforeCount).jobs, cr);
      }
    }
  }

  /** Every reconcile of a run lists the nodes that exist when it runs. */
  ghost predicate Faithful(w: World, es: seq<Event>) {
    forall i | 0 <= i < |es| && es[i].Reconciled? :: Listing(Run(w, es[..i]), es[i].c)
  }

  lemma FaithfulPrefix(w: World, es: seq<Event>)
    requires Faithful(w, es) && es != []
    ensures Faithful(w, es[..|es| - 1])
    ensures es[|es| - 1].Reconciled? ==> Listing(Run(w, es[..|es| - 1]), es[|es| - 1].c)
  {
    var shorter := es[..|es| - 1];
    forall i | 0 <= i < |shorter| && shorter[i].Reconciled?
      ensures Listing(Run(w, shorter[..i]), shorter[i].c)
    {
      assert shorter[..i] == es[..i];
    }
  }

  /** Nothing but a reconcile of this policy can give it another unfinished Job. */
  lemma OccurWithinCap(w: World, e: Event, cr: string)
    requires e.Reconciled? ==> Listing(w, e.c)
    ensures InFlight(Occur(w, e).jobs, cr) <=
            Max(InFlight(w.jobs, cr), if e.Reconciled? && e.c.cr == cr then MaxParallel(e.c.spec) else 0)
  {
    hide Reconcile;
    match e
    case Reconciled(c) => ReconcileWithinCap(w, c);
    case JobProgress(id, job) => InFlightShrinks(w.jobs, MoveJob(w.jobs, id, job), cr);
    case JobDeleted(id) => SubsetSize(Active(w.jobs - {id}, cr), Active(w.jobs, cr));
    case _ =>
  }

  /** Over any run, across version bumps and cap changes up to `m`: at most `m` unfinished Jobs. */
  lemma {:induction false} SlotBound(w: World, es: seq<Event>, cr: string, m: int)
    requires Faithful(w, es) && 0 <= m && InFlight(w.jobs, cr) <= m
    requires forall i | 0 <= i < |es| && es[i].Reconciled? && es[i].c.cr == cr :: MaxParallel(es[i].c.spec) <= m
    ensures InFlight(Run(w, es).jobs, cr) <= m
  {
    hide Occur, InFlight, Listing;
    if es != [] {
      FaithfulPrefix(w, es);
      SlotBound(w, es[..|es| - 1], cr, m);
      OccurWithinCap(Run(w, es[..|es| - 1]), es[|es| - 1], cr);
    }
  }
}
