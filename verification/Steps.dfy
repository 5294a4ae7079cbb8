/** What the steps of one reconcile change, stated once for every invariant built on it. */
module Steps {
  import opened Kube
  import opened Firmware

  /** Jobs made progress: none appeared or vanished, no finished one changed its outcome. */
  predicate Progressed(a: map<JobId, Job>, b: map<JobId, Job>) {
    && b.Keys == a.Keys
    && (forall id <- a :: !Outcome(a[id]).Running? ==> Outcome(b[id]) == Outcome(a[id]))
  }

  lemma {:induction false} InterferenceProgresses(w: World, es: seq<Interference>)
    ensures Progressed(w.jobs, Interfere(w, es).jobs)
  {
    if es != [] {
      InterferenceProgresses(w, es[..|es| - 1]);
    }
  }

  /** What decides about a node: who owns it, whether it is cordoned, and by whom. */
  predicate SameCore(a: Node, b: Node) {
    Owner(a) == Owner(b) && a.unschedulable == b.unschedulable && a.cordon == b.cordon
  }

  /** In a reconcile each node is advanced once, from a local copy the server agrees with. */
  predicate Fresh(site: Site) { site.mine == site.server }

  /** Claiming writes the owner label and nothing else; without it nothing happens. */
  lemma ClaimFrame(site: Site, c: Ctx)
    requires Fresh(site)
    ensures var m := ClaimOwnership(site, c);
            && m.site.(server := site.server, mine := site.mine) == site
            && m.site.server in {site.server, Apply(site.server, SetLabel(OwnerCR, c.cr))}
            && (m.ok ==> Fresh(m.site) && Owner(m.site.server) == c.cr)
  {
  }

  /** The same node, its Job not dropped, its owner label untouched. */
  predicate Continues(a: Site, b: Site) {
    b.ns.name == a.ns.name && (a.hasJob ==> b.hasJob) && Owner(b.server) == Owner(a.server)
  }

  /** No step after the claim renames the node, touches the owner label or drops the Job. */
  lemma StepsContinue(site: Site, pods: seq<Pod>, c: Ctx)
    requires Fresh(site)
    ensures Continues(site, CordonStep(site, c).site)
    ensures Continues(site, UncordonStep(site, c).site)
    ensures Continues(site, DrainStep(site, pods, c).site)
    ensures Continues(site, SpawnFlashJob(site, c).site)
  {
  }

  /** A node that is not ours after the step was not touched at all. */
  lemma AdvanceOwner(site: Site, pods: seq<Pod>, c: Ctx)
    requires Fresh(site)
    ensures var m := AdvanceNode(site, pods, c);
            && m.site.ns.name == site.ns.name
            && (site.hasJob ==> m.site.hasJob)
            && (Owner(m.site.server) == Owner(site.server) || Owner(m.site.server) == c.cr)
            && (Owner(m.site.server) != c.cr ==> m.site.(mine := site.mine) == site)
  {
    hide CordonStep, UncordonStep, DrainStep, SpawnFlashJob, ClaimOwnership;
    ClaimFrame(site, c);
    var claim := ClaimOwnership(site, c);
    if claim.ok {
      StepsContinue(claim.site, pods, c);
    }
  }

  /** A Job is created exactly for a ready node whose claim and Create succeed; the node is then Flashing. */
  lemma AdvanceCreates(site: Site, pods: seq<Pod>, c: Ctx)
    requires Fresh(site)
    ensures var m := AdvanceNode(site, pods, c);
            && ((m.site.hasJob && !site.hasJob) <==>
                (!site.hasJob && site.ns.state.Pending? && ClaimOwnership(site, c).ok
                      && c.api.create(site.ns.name).Accepted?))
            && (m.site.hasJob && !site.hasJob ==> m.site.ns.state.Flashing? && Owner(m.site.server) == c.cr)
            && (m.site.ns.state.Flashing? && !site.ns.state.Flashing? ==> site.ns.state.Pending? && m.site.hasJob)
  {
    hide ClaimOwnership;
    ClaimFrame(site, c);
    AdvanceOwner(site, pods, c);
    if ClaimOwnership(site, c).ok {
      StepsContinue(ClaimOwnership(site, c).site, pods, c);
    }
  }

  // ---- One turn of the loop ---------------------------------------------------------

  /** Nothing but node `name` differs between two passes. */
  predicate OnlyNode(s: Pass, t: Pass, name: string) {
    && t.w.nodes.Keys == s.w.nodes.Keys && t.local.Keys == s.local.Keys && t.w.status == s.w.status
    && (forall n | n in s.w.nodes && n != name :: t.w.nodes[n] == s.w.nodes[n])
    && (forall n | n in s.local && n != name :: t.local[n] == s.local[n])
    && (name !in s.local ==> t.w.nodes == s.w.nodes)
  }

  /** The local copy of the node whose turn it is agrees with the server. */
  predicate FreshAt(s: Pass, i: nat)
    requires Sane(s) && i < |s.states|
  {
    var name := s.states[i].name;
    name in s.local ==> s.local[name] == s.w.nodes[name]
  }

  predicate Created(a: map<JobId, Job>, b: map<JobId, Job>, id: JobId) {
    id !in a && b == a[id := Job([])]
  }

  /** The node is acted on in turn `i`. */
  predicate Acted(s0: Pass, i: nat)
    requires i < |s0.states|
  {
    Takes(s0.states[i], s0.capacity) && s0.states[i].name in s0.local
  }

  function SiteAt(s0: Pass, i: nat, c: Ctx): Site
    requires Sane(s0) && i < |s0.states| && s0.states[i].name in s0.local
  {
    SiteOf(Disturbed(s0, i, c), s0.states[i], c)
  }

  function MoveAt(s0: Pass, i: nat, c: Ctx): Move
    requires Sane(s0) && i < |s0.states| && s0.states[i].name in s0.local
  {
    AdvanceNode(SiteAt(s0, i, c), PodsToDrain(Disturbed(s0, i, c).w, s0.states[i].name, c), c)
  }

  /** A turn changes its own node only, and is exactly the node's move. */
  lemma TurnFrame(s0: Pass, i: nat, c: Ctx)
    requires Sane(s0) && i < |s0.states| && FreshAt(s0, i)
    ensures var t, name := Turn(s0, i, c), s0.states[i].name;
            && OnlyNode(s0, t, name)
            && t.states == s0.states[i := t.states[i]] && t.states[i].name == name
            && (!Acted(s0, i) ==> t == Disturbed(s0, i, c))
            && (Acted(s0, i) ==>
                var m := MoveAt(s0, i, c);
                && t.w.nodes[name] == m.site.server && t.local[name] == m.site.mine && t.states[i] == m.site.ns
                && t.w.evicted == s0.w.evicted + m.site.evicted && t.w.log == s0.w.log + m.site.log)
  {
    hide AdvanceNode;
    InterfereKeeps(s0.w, c.api.before(i));
    if Acted(s0, i) {
      var site := SiteAt(s0, i, c);
      AdvanceOwner(site, PodsToDrain(Disturbed(s0, i, c).w, s0.states[i].name, c), c);
    }
  }

  /** A turn creates no Job, or the one its node is due: new, paid with a slot, on our node. */
  lemma TurnJobs(s0: Pass, i: nat, c: Ctx)
    requires Sane(s0) && i < |s0.states| && FreshAt(s0, i)
    ensures var d, t, name := Disturbed(s0, i, c), Turn(s0, i, c), s0.states[i].name;
            || t.w.jobs == d.w.jobs
            || (&& Created(d.w.jobs, t.w.jobs, JobFor(name, c)) && Acted(s0, i) && s0.states[i].state.Pending?
                && t.capacity == s0.capacity - 1 && Owner(t.w.nodes[name]) == c.cr && t.states[i].state.Flashing?)
    ensures var t := Turn(s0, i, c);
            t.capacity == s0.capacity || (t.capacity == s0.capacity - 1 && s0.capacity > 0)
  {
    hide AdvanceNode;
    InterfereKeeps(s0.w, c.api.before(i));
    if Acted(s0, i) {
      var site, pods := SiteAt(s0, i, c), PodsToDrain(Disturbed(s0, i, c).w, s0.states[i].name, c);
      AdvanceOwner(site, pods, c);
      AdvanceCreates(site, pods, c);
    }
  }
}
