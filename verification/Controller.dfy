/** The reconciler as it runs: fields updated in place, loops with early exits. Every method is
    proved against the functions of `Firmware`, which the theorems are about. */
module Controller {
  import opened Kube
  import opened Drain
  import opened Selector
  import opened Firmware
  import opened DrainTurn
  import opened Observed
  import opened OptOut
  import opened Writeback

  /** Scans for the first true terminal condition: completed when there is one, succeeded when it is Complete or
      SuccessCriteriaMet. */
  method JobFinished(job: Job) returns (completed: bool, succeeded: bool)
    ensures completed <==> exists i | 0 <= i < |job.conditions| :: Terminal(job.conditions[i])
    ensures succeeded <==>
              exists i :: FirstTerminal(job.conditions, i) && job.conditions[i].kind in {Complete, SuccessCriteriaMet}
    ensures completed == !Outcome(job).Running? && succeeded == Outcome(job).Succeeded?
  {
    OutcomeMeans(job.conditions);
    for i := 0 to |job.conditions|
      invariant OutcomeFrom(job.conditions[i..]) == Outcome(job)
    {
      var cond := job.conditions[i];
      if !cond.isTrue { continue; }
      match cond.kind {
        case Complete => return true, true;
        case SuccessCriteriaMet => return true, true;
        case FailedCondition => return true, false;
        case OtherCondition =>
      }
    }
    return false, false;
  }

  /** The node counts once in `matched` and once in exactly one column, the one its state belongs to. */
  method CountNode(summary: Summary, st: NodeState) returns (t: Summary)
    ensures t.matched == summary.matched + 1 && t.upToDate + t.failed + t.inProgress + t.pending
            == summary.upToDate + summary.failed + summary.inProgress + summary.pending + 1
    ensures t.upToDate >= summary.upToDate && t.failed >= summary.failed
    ensures t.inProgress >= summary.inProgress && t.pending >= summary.pending
    ensures (t.upToDate > summary.upToDate <==> st.Done?) && (t.failed > summary.failed <==> st.Failed?)
    ensures t.inProgress > summary.inProgress <==> st in {Cordoning, Draining, Flashing, Uncordoning}
    ensures t.pending > summary.pending <==> st.Pending?
    ensures t == Counted(summary, st)
  {
    t := summary.(matched := summary.matched + 1);
    if st.Done? {
      t := t.(upToDate := t.upToDate + 1);
    } else if st.Failed? {
      t := t.(failed := t.failed + 1);
    } else if IsInFlight(st) {
      t := t.(inProgress := t.inProgress + 1);
    } else {
      t := t.(pending := t.pending + 1);
    }
  }

  class Reconciler {
    var nodes: map<string, Node>
    var jobs: map<JobId, Job>
    var pods: seq<Pod>
    var evicted: set<PodId>
    var status: map<string, seq<NodeStatus>>
    ghost var log: seq<Action>
    var local: map<string, Node>
    var states: seq<NodeStatus>
    var capacity: int

    ghost function W(): World
      reads this
    {
      World(nodes, jobs, pods, evicted, status, log)
    }

    ghost function S(): Pass
      reads this
    {
      Pass(W(), local, states, capacity)
    }

    ghost predicate Valid()
      reads this
    {
      Sane(S())
    }

    ghost predicate Ready(i: nat)
      reads this
    {
      Valid() && i < |states| && states[i].name in local
    }

    // ---- One node -------------------------------------------------------------------

    /** Mutates the local copy, then patches; the server's answer decides what becomes of the two. */
    method PatchNode(i: nat, e: Edit, kind: Write, c: Ctx) returns (ok: bool)
      requires Ready(i)
      modifies `nodes, `local, `log
      ensures var m := PatchMove(old(Here(S(), i, c)), e, kind, c);
              Valid() && S() == Put(old(S()), i, m.site, c) && ok == m.ok
    {
      hide Put, Apply, Logged, Patch;
      ghost var was := S();
      var name := states[i].name;
      var answer := c.api.patch(name, kind);
      PutPatch(was, i, e, answer, c);
      var mine := Apply(local[name], e);
      if answer.Rejected? {
        local := local[name := mine];
        return false;
      }
      log := log + Logged(Here(was, i, c), e, c.cr);
      nodes := nodes[name := Apply(nodes[name], e)];
      local := local[name := if answer.Applied? then nodes[name] else mine];
      return answer.Applied?;
    }

    method ClaimNode(i: nat, c: Ctx) returns (ok: bool)
      requires Ready(i)
      modifies `nodes, `local, `log
      ensures var m := ClaimOwnership(old(Here(S(), i, c)), c);
              Valid() && S() == Put(old(S()), i, m.site, c) && ok == m.ok
    {
      hide Put;
      PutSame(S(), i, c);
      if Owner(local[states[i].name]) == c.cr { return true; }
      ok := PatchNode(i, SetLabel(OwnerCR, c.cr), Claim, c);
    }

    method CordonNode(i: nat, c: Ctx) returns (ok: bool)
      requires Ready(i)
      modifies `nodes, `local, `log
      ensures var m := CordonStep(old(Here(S(), i, c)), c);
              Valid() && S() == Put(old(S()), i, m.site, c) && ok == m.ok == m.advanced
    {
      hide Put;
      PutSame(S(), i, c);
      var node := local[states[i].name];
      if CordonHeld(node.unschedulable, node.cordon, c.cr) { return true; }
      ok := PatchNode(i, SetCordon(c.cr, c.now), CordonPatch, c);
    }

    method UncordonNode(i: nat, c: Ctx) returns (ok: bool)
      requires Ready(i)
      modifies `nodes, `local, `log
      ensures var m := UncordonStep(old(Here(S(), i, c)), c);
              Valid() && S() == Put(old(S()), i, m.site, c) && ok == m.ok == m.advanced
    {
      hide Put;
      PutSame(S(), i, c);
      if local[states[i].name].cordon.owner != c.cr { return true; }
      ok := PatchNode(i, ClearCordon, UncordonPatch, c);
    }

    /** Evicts device pods one by one: a blocked eviction is noted and skipped, an error ends the loop. */
    method DrainNode(i: nat, c: Ctx) returns (ok: bool)
      requires Ready(i)
      modifies `evicted, `states
      ensures !c.api.drainListed(old(states)[i].name) ==> !ok && evicted == old(evicted) && states == old(states)
      ensures c.api.drainListed(old(states)[i].name) ==>
                var list := DevicePods(old(pods), old(states)[i].name, c.operatorNs, c.spec.drainForce);
                exists k :: GetsTo(list, c.api.evict, k) && (ok <==> k == |list|)
                  && i < |states| && DrainLeaves(old(evicted), old(states)[i], evicted, states[i], list, c.api.evict, k)
      ensures var m := DrainStep(old(Here(S(), i, c)), PodsToDrain(old(W()), old(states)[i].name, c), c);
              Valid() && S() == Put(old(S()), i, m.site, c) && ok == m.ok == m.advanced
    {
      hide Put, Targets, DrainLeaves, GetsTo;
      ghost var was := S();
      var ns := states[i];
      PutSame(was, i, c);
      ghost var end := StepLeaves(Here(was, i, c), PodsToDrain(was.w, ns.name, c), c);
      if !c.api.drainListed(ns.name) { return false; }
      var list := ListDevicePodsOnNode(pods, ns.name, c.operatorNs, c.spec.drainForce, PodUsesTenstorrentDevice);
      ghost var acc := Evictions({}, None, true);
      PutDrained(was, i, acc, c);
      for k := 0 to |list|
        invariant acc.ok && EvictFrom(list, k, c.api.evict, acc) == EvictAll(list, c)
        invariant i < |states| && S() == Put(was, i, Drained(Here(was, i, c), acc), c)
        invariant states == was.states[i := Drained(Here(was, i, c), acc).ns] && evicted == was.w.evicted + acc.done
      {
        var id := list[k].id;
        match c.api.evict(id) {
          case Evicted =>
            evicted := evicted + {id};
            acc := acc.(done := acc.done + {id});
          case AlreadyGone =>
          case Blocked =>
            states := states[i := states[i].(reason := EvictionBlocked, message := EvictionBlockedMessage(id))];
            acc := acc.(blocked := Some(id));
          case EvictError =>
            return false;
        }
        PutDrained(was, i, acc, c);
      }
      return true;
    }

    method SpawnJob(i: nat, c: Ctx) returns (advanced: bool, ok: bool)
      requires Ready(i)
      modifies `nodes, `jobs, `local, `states, `log
      ensures var m := SpawnFlashJob(old(Here(S(), i, c)), c);
              Valid() && S() == Put(old(S()), i, m.site, c) && ok == m.ok && advanced == m.advanced
    {
      hide Put, Patch;
      ghost var was := S();
      PutSame(was, i, c);
      var id := JobFor(states[i].name, c);
      if c.api.create(states[i].name).Refused? { return false, false; }
      PutSpawned(was, i, c);
      if id in jobs {
        states := states[i := Flagged(states[i], id)];
        return true, true;
      }
      jobs := jobs[id := Job([])];
      log := log + [JobCreate(id)];
      states := states[i := Flagged(states[i], id)];
      ghost var created := Here(was, i, c).(ns := states[i], hasJob := true, log := log);
      PutIsHere(was, i, created, c);
      ok := PatchNode(i, NoteFlash(c.spec.version, id), FlashNote, c);
      ghost var noted := PatchMove(created, NoteFlash(c.spec.version, id), FlashNote, c).site;
      PatchKeeps(created, NoteFlash(c.spec.version, id), FlashNote, c);
      PutTwice(was, i, created, noted, c);
      if !ok { return false, false; }
      PutIsHere(was, i, noted, c);
      ok := PatchNode(i, SetLabel(UpgradeState, "Flashing"), FlashLabel, c);
      PatchKeeps(noted, SetLabel(UpgradeState, "Flashing"), FlashLabel, c);
      PutTwice(was, i, noted, PatchMove(noted, SetLabel(UpgradeState, "Flashing"), FlashLabel, c).site, c);
      return ok, ok;
    }

    /** Claims the node, then takes the one action its observed state calls for. */
    method AdvanceOne(i: nat, c: Ctx) returns (advanced: bool, ok: bool)
      requires Ready(i)
      modifies `nodes, `jobs, `evicted, `local, `states, `log
      ensures var m := MoveHere(old(S()), i, c);
              Valid() && S() == Put(old(S()), i, m.site, c) && ok == m.ok && advanced == m.advanced
    {
      hide Put, ClaimOwnership, CordonStep, UncordonStep, DrainStep, SpawnFlashJob, PodsToDrain;
      ghost var was := S();
      ghost var claimed := ClaimOwnership(Here(was, i, c), c).site;
      ClaimKeeps(Here(was, i, c), c);
      ok := ClaimNode(i, c);
      if !ok { return false, false; }
      PutIsHere(was, i, claimed, c);
      ghost var list := PodsToDrain(was.w, claimed.ns.name, c);
      PodsUnmoved(was, i, claimed, c);
      StepKeeps(claimed, list, c);
      match states[i].state {
        case Cordoning =>
          ok := CordonNode(i, c);
          PutTwice(was, i, claimed, CordonStep(claimed, c).site, c);
          return ok, ok;
        case Draining =>
          ok := DrainNode(i, c);
          PutTwice(was, i, claimed, DrainStep(claimed, list, c).site, c);
          return ok, ok;
        case Pending =>
          advanced, ok := SpawnJob(i, c);
          PutTwice(was, i, claimed, SpawnFlashJob(claimed, c).site, c);
        case Uncordoning =>
          ok := UncordonNode(i, c);
          PutTwice(was, i, claimed, UncordonStep(claimed, c).site, c);
          return ok, ok;
        case _ => return false, true;
      }
    }

    // ---- The advance loop -----------------------------------------------------------

    /** What others do between two steps of the reconcile. */
    method Elsewhere(es: seq<Interference>)
      requires Valid()
      modifies `jobs, `pods
      ensures Valid() && S() == old(S()).(w := Interfere(old(W()), es))
    {
      ghost var was := W();
      for k := 0 to |es|
        invariant W() == Interfere(was, es[..k])
      {
        assert es[..k + 1][..k] == es[..k];
        match es[k] {
          case JobMoves(id, job) => jobs := MoveJob(jobs, id, job);
          case PodsBecome(others) => pods := others;
        }
      }
      assert es[..|es|] == es;
      InterfereKeeps(was, es);
    }

    method TakeTurn(i: nat, c: Ctx)
      requires Valid() && i < |states|
      modifies `nodes, `jobs, `pods, `evicted, `log, `local, `states, `capacity
      ensures Valid() && S() == Turn(old(S()), i, c)
    {
      hide Put, MoveHere, Interfere, Turn, Sane;
      ghost var s0 := S();
      Elsewhere(c.api.before(i));
      ghost var s := S();
      TurnIsPut(s0, i, c);
      var ns := states[i];
      if !IsAdvanceable(ns.state) { return; }
      if HandsOff(ns.message) { return; }
      var startingFresh := ns.state.Pending?;
      if startingFresh && capacity <= 0 { return; }
      if ns.name !in local { return; }
      var advanced, _ := AdvanceOne(i, c);
      PutState(s, i, MoveHere(s, i, c).site, c);
      if startingFresh && (advanced || states[i].state.Flashing?) {
        capacity := capacity - 1;
      }
    }

    // ---- Observing ------------------------------------------------------------------

    /** Sorts the listed nodes this policy matches into its own and another policy's. */
    method PartitionNodes(c: Ctx) returns (owned: seq<string>, conflicts: seq<string>)
      ensures forall n :: n in owned <==>
                n in c.api.order && n in nodes && TakesPart(nodes[n].labels, c) && FreeFor(nodes[n].labels, c.cr)
      ensures forall n :: n in conflicts <==>
                n in c.api.order && n in nodes && TakesPart(nodes[n].labels, c) && !FreeFor(nodes[n].labels, c.cr)
      ensures owned == Partition(W(), c, c.api.order, true) && conflicts == Partition(W(), c, c.api.order, false)
    {
      hide Selects, Partition, Get, Claimable, TakesPart, FreeFor;
      var order := c.api.order;
      owned, conflicts := [], [];
      NothingListed(W(), c);
      for k := 0 to |order|
        invariant owned == Partition(W(), c, order[..k], true) && conflicts == Partition(W(), c, order[..k], false)
      {
        assert order[..k + 1][..k] == order[..k];
        PartitionStep(W(), c, order[..k + 1], true);
        PartitionStep(W(), c, order[..k + 1], false);
        var n := order[k];
        if n !in nodes { continue; }
        var labels := nodes[n].labels;
        if !Selects(c.spec.selector, labels) { continue; }
        if Get(labels, FirmwareSkip) == "true" { continue; }
        if c.requirePresent && Get(labels, Present) != "true" { continue; }
        if Claimable(nodes[n], c.cr) {
          owned := owned + [n];
        } else {
          conflicts := conflicts + [n];
        }
      }
      assert order[..|order|] == order;
      forall n {
        PartitionMeans(W(), c, order, n);
      }
    }

    /** Derives a node's state from its Job, its cordon and its device pods. */
    method ObserveNode(name: string, n: Node, c: Ctx) returns (ns: NodeStatus)
      ensures ns == Observe(W(), name, n, c)
    {
      hide Targets;
      ns := NodeStatus(name, Pending, NoReason, NoMessage, n.currentVersion, n.lastFlashJob, 0);
      var id := JobFor(name, c);
      if !c.api.lookupAnswers(name) {
        return ns.(reason := TransientAPIError, message := LookupFailedMessage);
      }
      if id in jobs {
        ns := ns.(lastFlashJob := Some(id));
        var completed, succeeded := JobFinished(jobs[id]);
        if completed && succeeded {
          if DrainEnabled(c.spec) && n.cordon.owner == c.cr {
            return ns.(state := Uncordoning, reason := UncordonDue);
          }
          return ns.(state := Done, reason := FlashSucceeded);
        }
        if completed {
          return ns.(state := Failed, reason := FlashJobFailed, message := JobFailedMessage);
        }
        ns := ns.(state := Flashing, reason := FlashRunning);
        var waiting := c.api.waiting(name);
        if ImagePullStuck(waiting) {
          ns := ns.(reason := FlasherImagePullFailed, message := ImagePullMessage(waiting));
        }
        return;
      }
      if !DrainEnabled(c.spec) { return; }
      if !n.unschedulable {
        return ns.(state := Cordoning, reason := CordonDue);
      }
      if n.cordon.owner != c.cr {
        return ns.(reason := ExternalCordon, message := ExternalCordonMessage);
      }
      if !c.api.podsListed(name) {
        return ns.(state := Draining, reason := TransientAPIError, message := PodListFailedMessage);
      }
      var list := ListDevicePodsOnNode(pods, name, c.operatorNs, c.spec.drainForce, PodUsesTenstorrentDevice);
      if |list| > 0 {
        if CordonElapsed(n.cordon, c.now) > DrainTimeout(c.spec) {
          return ns.(state := Failed, reason := DrainTimedOut, message := DrainTimeoutMessage(Ids(list)));
        }
        return ns.(state := Draining, reason := DrainRunning, message := WaitingMessage(|list|));
      }
    }

    /** First pass: local copies and observed states, before anything is changed. */
    method ObserveNodes(c: Ctx)
      modifies `local, `states
      ensures states == ObserveAll(W(), c) && local == Copies(W(), Partition(W(), c, c.api.order, true))
    {
      hide Partition, Observe, Copies;
      ghost var w := W();
      var owned, conflicts := PartitionNodes(c);
      CopyOwned(owned);
      states := [];
      for k := 0 to |owned|
        invariant W() == w && |states| == k && local == Copies(w, owned)
        invariant forall j | 0 <= j < k ::
                  owned[j] in w.nodes && states[j] == Observe(w, owned[j], w.nodes[owned[j]], c)
      {
        assert owned[k] in owned;
        var ns := ObserveNode(owned[k], nodes[owned[k]], c);
        states := states + [ns];
      }
      ghost var observed := states;
      for k := 0 to |conflicts|
        invariant W() == w && |states| == |owned| + k && states[..|owned|] == observed && local == Copies(w, owned)
        invariant forall j | 0 <= j < k :: states[|owned| + j] == Conflicted(conflicts[j])
      {
        states := states + [Conflicted(conflicts[k])];
      }
      StatesInOrder(w, c, states);
    }

    method CopyOwned(owned: seq<string>)
      modifies `local
      ensures local == Copies(W(), owned)
    {
      local := map n | n in owned && n in nodes :: nodes[n];
    }

    /** Is any node already failed? */
    method FindFailure() returns (found: bool)
      ensures found == AnyFailed(states)
    {
      for k := 0 to |states|
        invariant forall j | 0 <= j < k :: !states[j].state.Failed?
      {
        if states[k].state.Failed? { return true; }
      }
      return false;
    }

    /** Counts this policy's unfinished Jobs, in whatever order the API server lists them. */
    method CountInFlightJobs(cr: string) returns (count: nat)
      ensures count == |set id | id in jobs && id.cr == cr && Runs(jobs[id])|
      ensures count == InFlight(jobs, cr)
    {
      hide Unfinished, Outcome, Runs;
      count := 0;
      var rest := set id | id in jobs && id.cr == cr;
      AllUnfinished(jobs, cr, rest);
      while rest != {}
        invariant rest <= jobs.Keys && count + |Unfinished(jobs, rest)| == InFlight(jobs, cr)
        decreases rest
      {
        var id :| id in rest;
        UnfinishedStep(jobs, rest, id);
        rest := rest - {id};
        var completed, _ := JobFinished(jobs[id]);
        if !completed {
          count := count + 1;
        }
      }
      NoneUnfinished(jobs);
      ActiveMeans(jobs, cr);
    }

    /** Second pass: one action per node while slots last. */
    method AdvanceNodes(halted: bool, c: Ctx)
      requires Valid()
      modifies `nodes, `jobs, `pods, `evicted, `log, `local, `states, `capacity
      ensures Valid() && S() == if !Acts(c) || halted then old(S()) else Turns(old(S()), |old(states)|, c)
    {
      hide Turn, Sane;
      ghost var s0 := S();
      for i := 0 to |states|
        invariant Valid() && |states| == |s0.states| && S() == Turns(s0, i, c)
        invariant !Acts(c) || halted ==> i == 0
      {
        if !AutoUpgrades(c.spec) || c.spec.paused || halted { break; }
        TakeTurn(i, c);
      }
    }

    // ---- Publishing -----------------------------------------------------------------

    /** Explains the nodes deliberately left alone. */
    method ExplainNodes(halted: bool, c: Ctx)
      modifies `states
      ensures states == Explained(old(states), c, halted)
    {
      ghost var raw := states;
      for i := 0 to |states|
        invariant |states| == |raw|
        invariant forall j | 0 <= j < |raw| :: states[j] == if j < i then Explain(raw[j], c, halted) else raw[j]
      {
        var ns := states[i];
        if !ns.state.Pending? || ns.reason != NoReason { continue; }
        if !AutoUpgrades(c.spec) {
          ns := ns.(reason := AutoUpgradeDisabled, message := AutoUpgradeOffMessage);
        } else if c.spec.paused {
          ns := ns.(reason := Paused, message := PausedMessage);
        } else if halted {
          ns := ns.(reason := RolloutHalted, message := HaltedMessage);
        }
        states := states[i := ns];
      }
    }

    /** Keeps the time of nodes that did not move; stamps and announces the others. */
    method StampNodes(prev: seq<NodeStatus>, now: int) returns (events: seq<Announcement>)
      modifies `states
      ensures states == StampedAll(old(states), prev, now)
      ensures events == Announcements(old(states), prev)
    {
      hide Find, IsWarning;
      ghost var raw := states;
      events := [];
      for i := 0 to |states|
        invariant |states| == |raw|
        invariant forall j | 0 <= j < |raw| ::
                  states[j] == if j < i then Stamped(raw[j], Find(prev, raw[j].name), now) else raw[j]
        invariant events == Announcements(raw[..i], prev)
      {
        assert raw[..i + 1][..i] == raw[..i];
        var ns := states[i];
        var before := Find(prev, ns.name);
        if before.Some? && before.value.state == ns.state && before.value.reason == ns.reason {
          states := states[i := ns.(since := before.value.since)];
          continue;
        }
        states := states[i := ns.(since := now)];
        if ns.reason != NoReason {
          events := events + [Announcement(ns.name, ns.state, ns.reason, ns.message, IsWarning(ns.state, ns.reason))];
        }
      }
      assert raw[..|raw|] == raw;
    }

    method PatchIfNeeded(i: nat, needed: bool, e: Edit, kind: Write, c: Ctx)
      requires Ready(i)
      modifies `nodes, `local, `log
      ensures Valid() && S() == Put(old(S()), i, PatchIf(old(Here(S(), i, c)), needed, e, kind, c), c)
    {
      hide Put, PatchMove;
      PutSame(S(), i, c);
      if needed {
        var _ := PatchNode(i, e, kind, c);
      }
    }

    /** Mirrors a node's published state onto its labels; failures are ignored. */
    method TidyNode(i: nat, c: Ctx)
      requires Ready(i)
      modifies `nodes, `local, `log
      ensures Valid() && S() == Put(old(S()), i, TidySite(old(Here(S(), i, c)), c), c)
    {
      hide Put, PatchIf;
      ghost var was, site := S(), Here(S(), i, c);
      var name, want, back := states[i].name, StateName(states[i].state), Readback(c.spec);
      PatchIfKeeps(site, Get(local[name].labels, UpgradeState) != want, SetLabel(UpgradeState, want), StateLabel, c);
      ghost var s1 := PatchIf(site, Get(local[name].labels, UpgradeState) != want, SetLabel(UpgradeState, want),
            StateLabel, c);
      PatchIfNeeded(i, Get(local[name].labels, UpgradeState) != want, SetLabel(UpgradeState, want), StateLabel, c);
      PutIsHere(was, i, s1, c);
      if !states[i].state.Done? { return; }
      PatchIfKeeps(s1, local[name].currentVersion != back, NoteVersion(back), VersionNote, c);
      ghost var s2 := PatchIf(s1, local[name].currentVersion != back, NoteVersion(back), VersionNote, c);
      PatchIfNeeded(i, local[name].currentVersion != back, NoteVersion(back), VersionNote, c);
      PutTwice(was, i, s1, s2, c);
      PutIsHere(was, i, s2, c);
      PatchIfKeeps(s2, Get(local[name].labels, FWVersion) != back, SetLabel(FWVersion, back), VersionLabel, c);
      ghost var s3 := PatchIf(s2, Get(local[name].labels, FWVersion) != back, SetLabel(FWVersion, back),
            VersionLabel, c);
      PatchIfNeeded(i, Get(local[name].labels, FWVersion) != back, SetLabel(FWVersion, back), VersionLabel, c);
      PutTwice(was, i, s2, s3, c);
    }

    /** Counts the final states and keeps the mirrored labels fresh. */
    method SummarizeAndTidy(c: Ctx) returns (summary: Summary)
      requires Valid()
      modifies `nodes, `local, `log
      ensures Valid() && summary == Summarize(states) && S() == TidyAll(old(S()), states, c)
    {
      hide Tidy, Sane, Put, TidySite, Counted;
      ghost var s0 := S();
      summary := Summary(0, 0, 0, 0, 0);
      for i := 0 to |states|
        invariant Valid() && S() == TidyAll(s0, states[..i], c) && summary == Summarize(states[..i])
      {
        assert states[..i + 1][..i] == states[..i];
        var ns := states[i];
        summary := CountNode(summary, ns.state);
        TidyIsPut(S(), i, c);
        if ns.name in local {
          TidyNode(i, c);
        }
      }
      assert states[..|states|] == states;
    }

    /** Lists, observes, counts and advances; `ok` when both listings were answered. */
    method ObserveAndAdvance(c: Ctx) returns (ok: bool, halted: bool)
      modifies this
      ensures ok == Lists(old(W()), c)
      ensures ok ==> Valid() && S() == Advanced(old(W()), c) && halted == Halted(old(W()), c)
      ensures !ok ==> W() == Firmware.Reconcile(old(W()), c).w
    {
      hide Turns, Partition, ObserveAll, Interfere, Selects, InFlight, Copies, MaxParallel, Begin, Settled, TidyAll,
           Acts;
      ghost var w := W();
      halted := false;
      if !c.api.nodesListed || !WellFormed(c.spec.selector) { return false, false; }
      ObserveNodes(c);
      CopiesAreSane(w, Partition(w, c, c.api.order, true));
      if HaltsOnFailure(c.spec) {
        halted := FindFailure();
      }
      Elsewhere(c.api.beforeCount);
      if !c.api.jobsListed { return false, halted; }
      var inFlight := CountInFlightJobs(c.cr);
      capacity := MaxParallel(c.spec) - inFlight;
      BeginIs(w, c, S());
      AdvanceNodes(halted, c);
      return true, halted;
    }

    /** Explains, stamps, announces, mirrors, sorts and writes the status. */
    method Publish(prev: seq<NodeStatus>, halted: bool, c: Ctx)
      returns (published: seq<NodeStatus>, summary: Summary, events: seq<Announcement>)
      requires Valid()
      modifies this
      ensures var s, raw := old(S()), Explained(old(states), c, halted);
              var settled := StampedAll(raw, prev, c.now);
              var t := TidyAll(s, settled, c).w;
              && W() == (if c.api.statusWritten then t.(status := t.status[c.cr := SortByName(settled)]) else t)
              && published == SortByName(settled) && summary == Summarize(settled)
              && events == Announcements(raw, prev)
    {
      hide TidyAll, Explained, StampedAll, Announcements, Summarize, SortByName;
      ghost var s := S();
      ExplainNodes(halted, c);
      events := StampNodes(prev, c.now);
      TidyAnyStates(s, states, c);
      summary := SummarizeAndTidy(c);
      published := SortByName(states);
      if c.api.statusWritten {
        status := status[c.cr := published];
      }
    }

    /** One reconcile, from listing nodes to writing the status: exactly the function the theorems are about. */
    method Reconcile(c: Ctx)
      returns (published: seq<NodeStatus>, summary: Summary, events: seq<Announcement>, completed: bool, requeue: bool)
      modifies this
      ensures var r := Firmware.Reconcile(old(W()), c);
              && W() == r.w && published == r.states && summary == r.summary && events == r.events
              && completed == r.completed && requeue == r.requeue
    {
      hide Advanced, Halted, Lists, TidyAll, Explained, StampedAll, Announcements, Summarize, SortByName, Sane;
      ghost var w := W();
      var prev := if c.cr in status then status[c.cr] else [];
      var ok, halted := ObserveAndAdvance(c);
      if !ok { return [], Summary(0, 0, 0, 0, 0), [], false, true; }
      published, summary, events := Publish(prev, halted, c);
      completed := c.api.statusWritten;
      requeue := !completed || summary.inProgress > 0 || summary.pending > 0;
    }
  }
}
