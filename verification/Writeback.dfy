/** How one node's changes are written back into a pass: the value-level facts the reconciler's
    methods rest on. */
module Writeback {
  import opened Kube
  import opened Firmware

  /** Writes a site back where it came from, together with everything it carries. */
  function Put(s: Pass, i: nat, site: Site, c: Ctx): (t: Pass)
    requires Sane(s) && i < |s.states| && site.ns.name in s.local
    ensures Sane(t) && |t.states| == |s.states|
  {
    var name, id := site.ns.name, JobFor(site.ns.name, c);
    var w := s.w.(
      nodes := s.w.nodes[name := site.server],
      jobs := if site.hasJob && id !in s.w.jobs then s.w.jobs[id := Job([])] else s.w.jobs,
      evicted := site.evicted,
      log := site.log);
    s.(w := w, local := s.local[name := site.mine], states := s.states[i := site.ns])
  }

  /** Node `i` of a pass with all that has been evicted and written so far. */
  function Here(s: Pass, i: nat, c: Ctx): Site
    requires Sane(s) && i < |s.states| && s.states[i].name in s.local
  {
    SiteOf(s, s.states[i], c).(evicted := s.w.evicted, log := s.w.log)
  }

  lemma PutIsHere(s: Pass, i: nat, site: Site, c: Ctx)
    requires Sane(s) && i < |s.states| && s.states[i].name in s.local
    requires site.ns.name == s.states[i].name && (JobFor(site.ns.name, c) in s.w.jobs ==> site.hasJob)
    ensures Here(Put(s, i, site, c), i, c) == site
    ensures Put(s, i, site, c).states[i].name == s.states[i].name && s.states[i].name in Put(s, i, site, c).local
  {
  }

  lemma PutTwice(s: Pass, i: nat, a: Site, b: Site, c: Ctx)
    requires Sane(s) && i < |s.states| && s.states[i].name in s.local
    requires a.ns.name == b.ns.name == s.states[i].name && (a.hasJob ==> b.hasJob)
    ensures Put(Put(s, i, a, c), i, b, c) == Put(s, i, b, c)
  {
  }

  lemma PutState(s: Pass, i: nat, site: Site, c: Ctx)
    requires Sane(s) && i < |s.states| && site.ns.name in s.local
    ensures Put(s, i, site, c).states[i] == site.ns && Put(s, i, site, c).capacity == s.capacity
  {
  }

  /** Writing back a node whose Job and status did not change touches two map entries. */
  lemma PutNode(s: Pass, i: nat, server: Node, mine: Node, log: seq<Action>, c: Ctx)
    requires Sane(s) && i < |s.states| && s.states[i].name in s.local
    ensures var name := s.states[i].name;
            Put(s, i, Here(s, i, c).(server := server, mine := mine, log := log), c) ==
            s.(w := s.w.(nodes := s.w.nodes[name := server], log := log), local := s.local[name := mine])
  {
    assert s.states[i := s.states[i]] == s.states;
  }

  lemma PutSame(s: Pass, i: nat, c: Ctx)
    requires Sane(s) && i < |s.states| && s.states[i].name in s.local
    ensures Put(s, i, Here(s, i, c), c) == s
  {
    var name := s.states[i].name;
    PutNode(s, i, s.w.nodes[name], s.local[name], s.w.log, c);
    assert s.w.nodes[name := s.w.nodes[name]] == s.w.nodes;
    assert s.local[name := s.local[name]] == s.local;
  }

  /** What a patch does to the pass, by answer. */
  lemma PutPatch(s: Pass, i: nat, e: Edit, answer: PatchAnswer, c: Ctx)
    requires Sane(s) && i < |s.states| && s.states[i].name in s.local
    ensures var name := s.states[i].name;
            var mine, server := Apply(s.local[name], e), Apply(s.w.nodes[name], e);
            Put(s, i, Patch(Here(s, i, c), e, answer, c.cr), c) ==
            if answer.Rejected? then s.(local := s.local[name := mine])
            else s.(w := s.w.(nodes := s.w.nodes[name := server], log := s.w.log + Logged(Here(s, i, c), e, c.cr)),
                    local := s.local[name := if answer.Applied? then server else mine])
  {
    hide Put, Apply, Logged;
    var name := s.states[i].name;
    var site := Patch(Here(s, i, c), e, answer, c.cr);
    assert site == Here(s, i, c).(server := site.server, mine := site.mine, log := site.log);
    PutNode(s, i, site.server, site.mine, site.log, c);
    assert s.w.nodes[name := s.w.nodes[name]] == s.w.nodes;
  }

  /** A site after the evictions counted in `e`. */
  function Drained(site: Site, e: Evictions): Site {
    site.(evicted := site.evicted + e.done,
          ns := if e.blocked.None? then site.ns
                else site.ns.(reason := EvictionBlocked, message := EvictionBlockedMessage(e.blocked.value)))
  }

  lemma PutDrained(s: Pass, i: nat, e: Evictions, c: Ctx)
    requires Sane(s) && i < |s.states| && s.states[i].name in s.local
    ensures var site := Drained(Here(s, i, c), e);
            Put(s, i, site, c) == s.(w := s.w.(evicted := site.evicted), states := s.states[i := site.ns])
  {
    var name := s.states[i].name;
    assert s.w.nodes[name := s.w.nodes[name]] == s.w.nodes;
    assert s.local[name := s.local[name]] == s.local;
  }

  /** Creating a Job touches the Job table, the log and the status entry. */
  lemma PutSpawned(s: Pass, i: nat, c: Ctx)
    requires Sane(s) && i < |s.states| && s.states[i].name in s.local
    ensures var site, id := Here(s, i, c), JobFor(s.states[i].name, c);
            var ns := Flagged(site.ns, id);
            && (site.hasJob ==> Put(s, i, site.(ns := ns), c) == s.(states := s.states[i := ns]))
            && (!site.hasJob ==>
                  Put(s, i, site.(ns := ns, hasJob := true, log := site.log + [JobCreate(id)]), c) ==
                  s.(w := s.w.(jobs := s.w.jobs[id := Job([])], log := s.w.log + [JobCreate(id)]),
                        states := s.states[i := ns]))
  {
    var name := s.states[i].name;
    assert s.w.nodes[name := s.w.nodes[name]] == s.w.nodes;
    assert s.local[name := s.local[name]] == s.local;
  }

  lemma PatchKeeps(site: Site, e: Edit, kind: Write, c: Ctx)
    ensures var m := PatchMove(site, e, kind, c);
            m.site.ns == site.ns && m.site.hasJob == site.hasJob
  {
  }

  lemma ClaimKeeps(site: Site, c: Ctx)
    ensures var m := ClaimOwnership(site, c);
            m.site.ns == site.ns && m.site.hasJob == site.hasJob
  {
  }

  lemma StepKeeps(site: Site, list: seq<Pod>, c: Ctx)
    ensures CordonStep(site, c).site.ns.name == site.ns.name && CordonStep(site, c).site.hasJob == site.hasJob
    ensures UncordonStep(site, c).site.ns.name == site.ns.name && UncordonStep(site, c).site.hasJob == site.hasJob
    ensures DrainStep(site, list, c).site.ns.name == site.ns.name && DrainStep(site, list, c).site.hasJob == site.hasJob
    ensures SpawnFlashJob(site, c).site.ns.name == site.ns.name && (site.hasJob ==> SpawnFlashJob(site, c).site.hasJob)
  {
  }

  lemma PodsUnmoved(s: Pass, i: nat, site: Site, c: Ctx)
    requires Sane(s) && i < |s.states| && site.ns.name in s.local
    ensures PodsToDrain(Put(s, i, site, c).w, site.ns.name, c) == PodsToDrain(s.w, site.ns.name, c)
  {
  }

  /** The action due at node `i`, on top of all that has been done so far. */
  function MoveHere(s: Pass, i: nat, c: Ctx): (m: Move)
    requires Sane(s) && i < |s.states| && s.states[i].name in s.local
    ensures m.site.ns.name == s.states[i].name
  {
    hide ClaimOwnership, CordonStep, UncordonStep, DrainStep, SpawnFlashJob;
    var site, list := Here(s, i, c), PodsToDrain(s.w, s.states[i].name, c);
    ClaimKeeps(site, c);
    StepKeeps(ClaimOwnership(site, c).site, list, c);
    AdvanceNode(site, list, c)
  }

  /** The same site with earlier evictions and writes put in front of its own. */
  function Later(site: Site, evicted: set<PodId>, log: seq<Action>): Site {
    site.(evicted := evicted + site.evicted, log := log + site.log)
  }

  function LaterMove(m: Move, evicted: set<PodId>, log: seq<Action>): Move {
    m.(site := Later(m.site, evicted, log))
  }

  lemma PatchLater(site: Site, e: Edit, kind: Write, c: Ctx, evicted: set<PodId>, log: seq<Action>)
    ensures PatchMove(Later(site, evicted, log), e, kind, c) == LaterMove(PatchMove(site, e, kind, c), evicted, log)
  {
    assert log + (site.log + Logged(site, e, c.cr)) == log + site.log + Logged(site, e, c.cr);
  }

  lemma DrainLater(site: Site, list: seq<Pod>, c: Ctx, evicted: set<PodId>, log: seq<Action>)
    ensures DrainStep(Later(site, evicted, log), list, c) == LaterMove(DrainStep(site, list, c), evicted, log)
  {
    hide EvictAll;
    var done := EvictAll(list, c).done;
    assert evicted + (site.evicted + done) == evicted + site.evicted + done;
  }

  lemma SpawnLater(site: Site, c: Ctx, evicted: set<PodId>, log: seq<Action>)
    ensures SpawnFlashJob(Later(site, evicted, log), c) == LaterMove(SpawnFlashJob(site, c), evicted, log)
  {
    hide PatchMove, Later;
    var id := JobFor(site.ns.name, c);
    var created := site.(ns := Flagged(site.ns, id), hasJob := true, log := site.log + [JobCreate(id)]);
    var noted := PatchMove(created, NoteFlash(c.spec.version, id), FlashNote, c).site;
    LaterFields(site, evicted, log);
    LaterCreated(site, id, evicted, log);
    PatchLater(created, NoteFlash(c.spec.version, id), FlashNote, c, evicted, log);
    PatchLater(noted, SetLabel(UpgradeState, "Flashing"), FlashLabel, c, evicted, log);
  }

  lemma LaterFields(site: Site, evicted: set<PodId>, log: seq<Action>)
    ensures var t := Later(site, evicted, log);
            t.ns == site.ns && t.hasJob == site.hasJob && t.server == site.server && t.mine == site.mine
    ensures forall ns :: Later(site, evicted, log).(ns := ns) == Later(site.(ns := ns), evicted, log)
  {
  }

  lemma LaterCreated(site: Site, id: JobId, evicted: set<PodId>, log: seq<Action>)
    ensures var t, ns := Later(site, evicted, log), Flagged(site.ns, id);
            t.(ns := ns, hasJob := true, log := t.log + [JobCreate(id)]) ==
            Later(site.(ns := ns, hasJob := true, log := site.log + [JobCreate(id)]), evicted, log)
  {
    assert log + (site.log + [JobCreate(id)]) == log + site.log + [JobCreate(id)];
  }

  /** What a node's turn does does not depend on what was done to other nodes before. */
  lemma AdvanceLater(site: Site, list: seq<Pod>, c: Ctx, evicted: set<PodId>, log: seq<Action>)
    ensures AdvanceNode(Later(site, evicted, log), list, c) == LaterMove(AdvanceNode(site, list, c), evicted, log)
  {
    hide PatchMove, DrainStep, SpawnFlashJob, Later;
    LaterFields(site, evicted, log);
    PatchLater(site, SetLabel(OwnerCR, c.cr), Claim, c, evicted, log);
    var claimed := ClaimOwnership(site, c).site;
    ClaimKeeps(site, c);
    LaterFields(claimed, evicted, log);
    PatchLater(claimed, SetCordon(c.cr, c.now), CordonPatch, c, evicted, log);
    PatchLater(claimed, ClearCordon, UncordonPatch, c, evicted, log);
    DrainLater(claimed, list, c, evicted, log);
    SpawnLater(claimed, c, evicted, log);
  }

  /** A turn is the node's move, written back in place. */
  lemma TurnIsPut(s0: Pass, i: nat, c: Ctx)
    requires Sane(s0) && i < |s0.states|
    ensures var s, ns := Disturbed(s0, i, c), s0.states[i];
            && (!Takes(ns, s.capacity) || ns.name !in s.local ==> Turn(s0, i, c) == s)
            && (Takes(ns, s.capacity) && ns.name in s.local ==>
                  var m := MoveHere(s, i, c);
                  var t := Put(s, i, m.site, c);
                  Turn(s0, i, c) == t.(capacity := t.capacity - SlotsSpent(ns, m)))
  {
    hide AdvanceNode, Interfere;
    var s, ns := Disturbed(s0, i, c), s0.states[i];
    if Takes(ns, s.capacity) && ns.name in s.local {
      assert Later(SiteOf(s, ns, c), s.w.evicted, s.w.log) == Here(s, i, c);
      AdvanceLater(SiteOf(s, ns, c), PodsToDrain(s.w, ns.name, c), c, s.w.evicted, s.w.log);
    }
  }

  /** The reconcile's own copies of the listed nodes. */
  function Copies(w: World, owned: seq<string>): map<string, Node> {
    map n | n in owned && n in w.nodes :: w.nodes[n]
  }

  lemma StatesInOrder(w: World, c: Ctx, states: seq<NodeStatus>)
    requires var mine, theirs := Partition(w, c, c.api.order, true), Partition(w, c, c.api.order, false);
             && |states| == |mine| + |theirs|
             && (forall j | 0 <= j < |mine| :: states[j] == Observe(w, mine[j], w.nodes[mine[j]], c))
             && (forall j | 0 <= j < |theirs| :: states[|mine| + j] == Conflicted(theirs[j]))
    ensures states == ObserveAll(w, c)
  {
    hide Observe, Partition;
    var mine, theirs := Partition(w, c, c.api.order, true), Partition(w, c, c.api.order, false);
    forall j | |mine| <= j < |states|
      ensures states[j] == ObserveAll(w, c)[j]
    {
      assert states[|mine| + (j - |mine|)] == Conflicted(theirs[j - |mine|]);
    }
  }

  /** The unfinished ones among some Jobs. */
  function Unfinished(jobs: map<JobId, Job>, ids: set<JobId>): set<JobId> {
    set id | id in ids && id in jobs && Outcome(jobs[id]).Running?
  }

  lemma AllUnfinished(jobs: map<JobId, Job>, cr: string, ids: set<JobId>)
    requires forall id :: id in ids <==> id in jobs && id.cr == cr
    ensures |Unfinished(jobs, ids)| == InFlight(jobs, cr)
  {
    assert Unfinished(jobs, ids) == Active(jobs, cr);
  }

  lemma UnfinishedStep(jobs: map<JobId, Job>, ids: set<JobId>, id: JobId)
    requires id in ids && id in jobs
    ensures |Unfinished(jobs, ids)| == |Unfinished(jobs, ids - {id})| + if Outcome(jobs[id]).Running? then 1 else 0
  {
    assert Unfinished(jobs, ids) == Unfinished(jobs, ids - {id}) + if Outcome(jobs[id]).Running? then {id} else {};
  }

  lemma NoneUnfinished(jobs: map<JobId, Job>)
    ensures Unfinished(jobs, {}) == {}
  {
  }

  lemma PatchIfKeeps(site: Site, needed: bool, e: Edit, kind: Write, c: Ctx)
    ensures var t := PatchIf(site, needed, e, kind, c);
            t.ns == site.ns && t.hasJob == site.hasJob
  {
  }

  lemma PatchIfLater(site: Site, needed: bool, e: Edit, kind: Write, c: Ctx, evicted: set<PodId>, log: seq<Action>)
    ensures PatchIf(Later(site, evicted, log), needed, e, kind, c) ==
              Later(PatchIf(site, needed, e, kind, c), evicted, log)
  {
    hide PatchMove, Later;
    PatchLater(site, e, kind, c, evicted, log);
  }

  lemma TidyLater(site: Site, c: Ctx, evicted: set<PodId>, log: seq<Action>)
    ensures TidySite(Later(site, evicted, log), c) == Later(TidySite(site, c), evicted, log)
    ensures TidySite(site, c).ns == site.ns && TidySite(site, c).hasJob == site.hasJob
  {
    hide PatchIf, Later;
    var want, back := StateName(site.ns.state), Readback(c.spec);
    LaterFields(site, evicted, log);
    var stale := Get(site.mine.labels, UpgradeState) != want;
    var s1 := PatchIf(site, stale, SetLabel(UpgradeState, want), StateLabel, c);
    PatchIfLater(site, stale, SetLabel(UpgradeState, want), StateLabel, c, evicted, log);
    PatchIfKeeps(site, stale, SetLabel(UpgradeState, want), StateLabel, c);
    LaterFields(s1, evicted, log);
    var s2 := PatchIf(s1, s1.mine.currentVersion != back, NoteVersion(back), VersionNote, c);
    PatchIfLater(s1, s1.mine.currentVersion != back, NoteVersion(back), VersionNote, c, evicted, log);
    PatchIfKeeps(s1, s1.mine.currentVersion != back, NoteVersion(back), VersionNote, c);
    LaterFields(s2, evicted, log);
    PatchIfLater(s2, Get(s2.mine.labels, FWVersion) != back, SetLabel(FWVersion, back), VersionLabel, c, evicted, log);
    PatchIfKeeps(s2, Get(s2.mine.labels, FWVersion) != back, SetLabel(FWVersion, back), VersionLabel, c);
  }

  lemma TidyIsPut(s: Pass, i: nat, c: Ctx)
    requires Sane(s) && i < |s.states|
    ensures Tidy(s, s.states[i], c) ==
            if s.states[i].name in s.local
            then (TidyLater(Here(s, i, c), c, {}, []); Put(s, i, TidySite(Here(s, i, c), c), c)) else s
  {
    hide TidySite;
    var ns := s.states[i];
    if ns.name in s.local {
      var site := SiteOf(s, ns, c);
      assert Later(site, s.w.evicted, s.w.log) == Here(s, i, c);
      TidyLater(site, c, s.w.evicted, s.w.log);
      assert s.states[i := ns] == s.states;
    }
  }

  lemma NothingListed(w: World, c: Ctx)
    ensures Partition(w, c, [], true) == [] && Partition(w, c, [], false) == []
  {
  }

  lemma PartitionStep(w: World, c: Ctx, order: seq<string>, mine: bool)
    requires order != []
    ensures var rest, n := Partition(w, c, order[..|order| - 1], mine), order[|order| - 1];
            Partition(w, c, order, mine) ==
            if n in w.nodes && Matches(w.nodes[n], c) && Claimable(w.nodes[n], c.cr) == mine then rest + [n] else rest
  {
    hide Matches, Claimable;
  }

  lemma CopiesAreSane(w: World, owned: seq<string>)
    ensures Copies(w, owned).Keys <= w.nodes.Keys
  {
  }

  /** The loop starts where `Begin` says. */
  lemma BeginIs(w: World, c: Ctx, s: Pass)
    requires s.w == Interfere(w, c.api.beforeCount) && s.states == ObserveAll(w, c)
    requires s.local == Copies(w, Partition(w, c, c.api.order, true))
    requires s.capacity == MaxParallel(c.spec) - InFlight(s.w.jobs, c.cr)
    ensures s == Begin(w, c)
  {
    hide Interfere, ObserveAll, Partition, InFlight, MaxParallel;
  }

  /** The status pass does not look at the states the loop left, only at those it is given. */
  lemma {:induction false} TidyAnyStates(s: Pass, states: seq<NodeStatus>, c: Ctx)
    requires Sane(s)
    ensures TidyAll(s.(states := states), states, c) == TidyAll(s, states, c).(states := states)
  {
    TidyTheseStates(s, states, states, c);
  }

  lemma {:induction false} TidyTheseStates(s: Pass, others: seq<NodeStatus>, states: seq<NodeStatus>, c: Ctx)
    requires Sane(s)
    ensures TidyAll(s.(states := others), states, c) == TidyAll(s, states, c).(states := others)
  {
    hide TidySite;
    if states != [] {
      TidyTheseStates(s, others, states[..|states| - 1], c);
    }
  }
}
