/** Halt on failure: however many nodes a policy matches, a bad bundle costs at most maxParallel of them. */
module BlastRadius {
  import opened Kube
  import opened Selector
  import opened Firmware
  import opened Protocol
  import opened Steps
  import opened Passes
  import opened NodeLife
  import opened SlotBound
  import opened Ownership
  import opened Progress
  import opened DrainGate
  import opened Matching

  /** Unfinished and failed Jobs: the nodes a policy has put at risk. */
  const AT_RISK: set<JobOutcome> := {Running, JobFailed}

  function Exposure(jobs: map<JobId, Job>, cr: string): nat { Tally(jobs, cr, AT_RISK) }

  /** The policy's Jobs are all of its current version, on nodes it owns and still matches. */
  predicate Tracked(w: World, c: Ctx) {
    forall id <- w.jobs :: id.cr == c.cr ==>
      id.version == c.spec.version && id.node in w.nodes && Owner(w.nodes[id.node]) == c.cr
            && Matches(w.nodes[id.node], c)
  }

  /** The reconcile reads one snapshot: no lookup fails, and nothing moves before Jobs are counted. */
  ghost predicate Snapshot(c: Ctx) {
    c.api.beforeCount == [] && (forall n :: c.api.lookupAnswers(n))
  }

  /** A failed Job of the policy is seen, and stops the rollout. */
  lemma FailureHalts(w: World, c: Ctx, id: JobId)
    requires Listing(w, c) && Snapshot(c) && Tracked(w, c) && HaltsOnFailure(c.spec)
    requires id in w.jobs && id.cr == c.cr && Outcome(w.jobs[id]).JobFailed?
    ensures Halted(w, c)
  {
    hide Matches, ObserveAll;
    var i := ObservedCovers(w, c, id.node);
    ObservedAt(w, c, i);
    assert JobFor(id.node, c) == id;
    assert ObserveAll(w, c)[i].state.Failed?;
  }

  /** Does this reconcile see node `n` as failed? An unanswered lookup hides a failure. */
  predicate SeenFailed(w: World, n: string, c: Ctx)
    requires n in w.nodes
  {
    && c.api.lookupAnswers(n)
    && (if JobFor(n, c) in w.jobs then Outcome(w.jobs[JobFor(n, c)]).JobFailed?
        else
          && DrainEnabled(c.spec) && w.nodes[n].unschedulable && w.nodes[n].cordon.owner == c.cr
          && c.api.podsListed(n) && PodsToDrain(w, n, c) != [] && !InTime(w.nodes[n], c))
  }

  /** A rollout halts exactly when haltOnFailure is on and some matched node the policy may own has
      a failed Job or an overdue drain, and the calls that would show it were answered. */
  lemma HaltedExactlyWhen(w: World, c: Ctx)
    requires Listing(w, c)
    ensures Halted(w, c) <==>
            HaltsOnFailure(c.spec) &&
            exists n <- w.nodes :: Matches(w.nodes[n], c) && Claimable(w.nodes[n], c.cr) && SeenFailed(w, n, c)
  {
    hide Matches, ObserveAll, Claimable, SeenFailed, Observe, Listing;
    var states := ObserveAll(w, c);
    if AnyFailed(states) {
      var i :| 0 <= i < |states| && states[i].state.Failed?;
      ObservedAt(w, c, i);
      FailedMeansSeen(w, states[i].name, c);
    }
    forall n | n in w.nodes && Matches(w.nodes[n], c) && Claimable(w.nodes[n], c.cr) && SeenFailed(w, n, c)
      ensures AnyFailed(states)
    {
      var i := ObservedCovers(w, c, n);
      ObservedAt(w, c, i);
      FailedMeansSeen(w, n, c);
    }
  }

  lemma FailedMeansSeen(w: World, n: string, c: Ctx)
    requires n in w.nodes
    ensures Observe(w, n, w.nodes[n], c).state.Failed? <==> SeenFailed(w, n, c)
    ensures !Conflicted(n).state.Failed?
  {
  }

  /** Once a Job of the policy has failed, no reconcile of it creates another. */
  lemma NoJobAfterFailure(w: World, c: Ctx, failed: JobId, id: JobId)
    requires Listing(w, c) && Snapshot(c) && Tracked(w, c) && HaltsOnFailure(c.spec)
    requires failed in w.jobs && failed.cr == c.cr && Outcome(w.jobs[failed]).JobFailed?
    requires id in Reconcile(w, c).w.jobs
    ensures id in w.jobs
  {
    hide Reconcile, Listing, Tracked, Halted, Begin;
    FailureHalts(w, c, failed);
    if id !in w.jobs {
      var i := NewJobs(w, c, id);
    }
  }

  lemma ExposureIsInFlight(jobs: map<JobId, Job>, cr: string)
    requires forall id <- jobs :: id.cr == cr ==> !Outcome(jobs[id]).JobFailed?
    ensures Exposure(jobs, cr) == InFlight(jobs, cr)
  {
    assert Kept(jobs, cr, AT_RISK) == Active(jobs, cr);
  }

  /** Inside the loop too, Jobs at risk stay within the cap, even when Jobs fail between turns. */
  lemma PassKeepsExposure(w: World, c: Ctx, k: nat)
    requires Listing(w, c) && Snapshot(c) && !Halted(w, c) && Tracked(w, c) && HaltsOnFailure(c.spec)
    requires Exposure(w.jobs, c.cr) <= MaxParallel(c.spec) && k <= |Begin(w, c).states|
    ensures Exposure(Turns(Begin(w, c), k, c).w.jobs, c.cr) <= MaxParallel(c.spec)
  {
    hide Turns, ObserveAll, Halted, Tracked, Listing, Kept, Active, HaltsOnFailure;
    forall id | id in w.jobs && id.cr == c.cr
      ensures !Outcome(w.jobs[id]).JobFailed?
    {
      if Outcome(w.jobs[id]).JobFailed? {
        FailureHalts(w, c, id);
      }
    }
    ExposureIsInFlight(w.jobs, c.cr);
    TurnsSpend(w, c, k, AT_RISK);
  }

  lemma ReconcileKeepsExposure(w: World, c: Ctx, d: Ctx)
    requires Listing(w, d) && (d.cr == c.cr ==> SamePolicy(c, d) && d.requirePresent == c.requirePresent && Snapshot(d))
    requires Tracked(w, c) && HaltsOnFailure(c.spec) && Exposure(w.jobs, c.cr) <= MaxParallel(c.spec)
    ensures Exposure(Reconcile(w, d).w.jobs, c.cr) <= MaxParallel(c.spec)
  {
    hide Begin, Turns, Reconcile, Halted, Tally, Tracked, Listing;
    ReconcileLeaves(w, d);
    InterferenceProgresses(w, d.api.beforeCount);
    TallyShrinks(w.jobs, Interfere(w, d.api.beforeCount).jobs, c.cr, AT_RISK);
    BeginJobs(w, d);
    if Advances(w, d) {
      if d.cr == c.cr {
        TrackedAlike(w, c, d);
        PassKeepsExposure(w, d, |Begin(w, d).states|);
      } else {
        TurnsSpend(w, d, |Begin(w, d).states|, AT_RISK);
      }
    }
  }

  lemma TrackedAlike(w: World, c: Ctx, d: Ctx)
    requires Tracked(w, c) && SamePolicy(c, d) && d.requirePresent == c.requirePresent
    ensures Tracked(w, d)
  {
  }

  lemma ReconcileTracks(w: World, c: Ctx, d: Ctx)
    requires Listing(w, d) && OwnedWell(w) && Tracked(w, c) && c.cr != "" && Ignores(c.spec.selector, OPERATOR_KEYS)
    requires d.cr == c.cr ==> SamePolicy(c, d) && d.requirePresent == c.requirePresent
    ensures Tracked(Reconcile(w, d).w, c)
  {
    hide Reconcile, Listing, Matches, Begin, Advances, Owner;
    var r := Reconcile(w, d).w;
    ReconcileOwns(w, d);
    forall id | id in r.jobs && id.cr == c.cr
      ensures id.version == c.spec.version && id.node in r.nodes && Owner(r.nodes[id.node]) == c.cr
                && Matches(r.nodes[id.node], c)
    {
      if id !in w.jobs {
        var i := NewJobs(w, d, id);
        LocalMeans(w, d);
        ObservedAt(w, d, i);
        MatchesSame(w.nodes[id.node], c, d);
      }
      MatchedSetStable(w, d, c, id.node);
    }
  }

  lemma MatchesSame(n: Node, c: Ctx, d: Ctx)
    requires SamePolicy(c, d) && d.requirePresent == c.requirePresent
    ensures Matches(n, c) == Matches(n, d)
  {
  }

  /** Reconciles of this policy keep its spec and read snapshots; everything else leaves owners
      and the matched set alone. Jobs may be deleted and may finish at any time. */
  ghost predicate Steady(w: World, e: Event, c: Ctx) {
    && RespectsOwners(e)
    && (if e.Reconciled? then
          Listing(w, e.c) && (e.c.cr == c.cr ==>
                SamePolicy(c, e.c) && e.c.requirePresent == c.requirePresent && Snapshot(e.c))
        else
          forall n <- w.nodes :: Matches(w.nodes[n], c) ==> n in Occur(w, e).nodes && Matches(Occur(w, e).nodes[n], c))
  }

  /** What holds of a policy's rollout at every moment: the cap bounds failed and unfinished Jobs together. */
  predicate Contained(w: World, c: Ctx) {
    OwnedWell(w) && Tracked(w, c) && Exposure(w.jobs, c.cr) <= MaxParallel(c.spec)
  }

  lemma UntouchedIsContained(w: World, c: Ctx)
    requires Untouched(w) && 0 <= MaxParallel(c.spec)
    ensures Contained(w, c)
  {
    assert Kept(w.jobs, c.cr, AT_RISK) == {};
  }

  lemma OccurContained(w: World, e: Event, c: Ctx)
    requires Contained(w, c) && Steady(w, e, c) && c.cr != ""
    requires HaltsOnFailure(c.spec) && Ignores(c.spec.selector, OPERATOR_KEYS)
    ensures Contained(Occur(w, e), c)
  {
    hide Reconcile, Listing, Tally, OwnedWell, Matches, Outcome;
    OccurOwns(w, e);
    match e
    case Reconciled(d) =>
      ReconcileKeepsExposure(w, c, d);
      ReconcileTracks(w, c, d);
    case JobProgress(id, job) =>
      MoveProgresses(w.jobs, id, job);
      TallyShrinks(w.jobs, MoveJob(w.jobs, id, job), c.cr, AT_RISK);
    case JobDeleted(id) => TallyDeleted(w.jobs, id, c.cr);
    case _ =>
      OwnersStayTracked(w, Occur(w, e), c);
  }

  lemma MoveProgresses(jobs: map<JobId, Job>, id: JobId, job: Job)
    ensures Progressed(jobs, MoveJob(jobs, id, job))
  {
  }

  lemma TallyDeleted(jobs: map<JobId, Job>, id: JobId, cr: string)
    ensures Tally(jobs - {id}, cr, AT_RISK) <= Tally(jobs, cr, AT_RISK)
  {
    SubsetSize(Kept(jobs - {id}, cr, AT_RISK), Kept(jobs, cr, AT_RISK));
  }

  lemma OwnersStayTracked(a: World, b: World, c: Ctx)
    requires Tracked(a, c) && b.jobs == a.jobs && OwnersKept(a, b) && c.cr != ""
    requires forall n <- a.nodes :: Matches(a.nodes[n], c) ==> n in b.nodes && Matches(b.nodes[n], c)
    ensures Tracked(b, c)
  {
    hide Matches, Owner;
  }

  ghost predicate SteadyRun(w: World, es: seq<Event>, c: Ctx) {
    forall i | 0 <= i < |es| :: Steady(Run(w, es[..i]), es[i], c)
  }

  lemma SteadyPrefix(w: World, es: seq<Event>, c: Ctx)
    requires SteadyRun(w, es, c) && es != []
    ensures SteadyRun(w, es[..|es| - 1], c) && Steady(Run(w, es[..|es| - 1]), es[|es| - 1], c)
  {
    hide Steady;
    var shorter := es[..|es| - 1];
    forall i | 0 <= i < |shorter|
      ensures Steady(Run(w, shorter[..i]), shorter[i], c)
    {
      assert shorter[..i] == es[..i];
    }
  }

  /** Over any steady run with haltOnFailure on, failed and unfinished Jobs of the policy together
      never exceed maxParallel; so at most maxParallel Jobs ever stand failed. */
  lemma {:induction false} BlastRadius(w: World, es: seq<Event>, c: Ctx)
    requires SteadyRun(w, es, c) && Contained(w, c) && c.cr != ""
    requires HaltsOnFailure(c.spec) && Ignores(c.spec.selector, OPERATOR_KEYS)
    ensures Contained(Run(w, es), c)
    ensures Tally(Run(w, es).jobs, c.cr, {JobFailed}) <= MaxParallel(c.spec)
  {
    hide Occur, Steady, OwnedWell, Tracked;
    if es != [] {
      SteadyPrefix(w, es, c);
      BlastRadius(w, es[..|es| - 1], c);
      OccurContained(Run(w, es[..|es| - 1]), es[|es| - 1], c);
    }
    SubsetSize(Kept(Run(w, es).jobs, c.cr, {JobFailed}), Kept(Run(w, es).jobs, c.cr, AT_RISK));
  }

  /** In particular, from a cluster no policy has touched, at most maxParallel Jobs ever stand failed. */
  lemma FailuresFromTheStart(w: World, es: seq<Event>, c: Ctx)
    requires SteadyRun(w, es, c) && Untouched(w) && c.cr != "" && 0 <= MaxParallel(c.spec)
    requires HaltsOnFailure(c.spec) && Ignores(c.spec.selector, OPERATOR_KEYS)
    ensures Tally(Run(w, es).jobs, c.cr, {JobFailed}) <= MaxParallel(c.spec)
  {
    hide Run, SteadyRun, Contained, MaxParallel, Tally;
    UntouchedIsContained(w, c);
    BlastRadius(w, es, c);
  }
}
