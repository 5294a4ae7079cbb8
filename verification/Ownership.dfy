/** First writer wins: however many firmware policies run, a node has one owner for good,
    and only its owner cordons it, flashes it or writes to it. */
module Ownership {
  import opened Kube
  import opened Firmware
  import opened Protocol
  import opened Steps
  import opened Passes
  import opened SlotBound

  /** Jobs and firmware cordons sit on nodes their policy owns. */
  predicate OwnedWell(w: World) {
    && (forall id <- w.jobs :: id.cr != "" && id.node in w.nodes && Owner(w.nodes[id.node]) == id.cr)
    && (forall n <- w.nodes :: w.nodes[n].cordon.owner in {"", Owner(w.nodes[n])})
  }

  /** A cluster no firmware policy has touched yet. */
  ghost predicate Untouched(w: World) {
    w.jobs == map[] && w.log == [] && forall n <- w.nodes :: w.nodes[n].cordon == CordonMark("", NoStamp)
  }

  lemma UntouchedIsOwnedWell(w: World)
    requires Untouched(w)
    ensures OwnedWell(w)
  {
  }

  /** No node disappears, and an owner once written stays. */
  predicate OwnersKept(a: World, b: World) {
    forall n <- a.nodes :: n in b.nodes && (Owner(a.nodes[n]) != "" ==> Owner(b.nodes[n]) == Owner(a.nodes[n]))
  }

  /** What policy `cr` did left alone every node another policy owns. */
  ghost predicate ForeignKept(a: World, b: World, cr: string) {
    forall n <- a.nodes :: !Claimable(a.nodes[n], cr) ==>
      && n in b.nodes && b.nodes[n] == a.nodes[n]
      && (forall id: JobId :: id.node == n ==> (id in a.jobs <==> id in b.jobs))
  }

  lemma StepCordons(site: Site, pods: seq<Pod>, c: Ctx)
    ensures CordonStep(site, c).site.server.cordon.owner in {site.server.cordon.owner, c.cr}
    ensures UncordonStep(site, c).site.server.cordon.owner in {site.server.cordon.owner, ""}
    ensures DrainStep(site, pods, c).site.server.cordon == site.server.cordon
    ensures SpawnFlashJob(site, c).site.server.cordon == site.server.cordon
  {
  }

  /** A step leaves the cordon mark as it was, clears it, or makes it ours. */
  lemma AdvanceCordons(site: Site, pods: seq<Pod>, c: Ctx)
    requires Fresh(site)
    ensures AdvanceNode(site, pods, c).site.server.cordon.owner in {site.server.cordon.owner, "", c.cr}
  {
    hide CordonStep, UncordonStep, DrainStep, SpawnFlashJob, ClaimOwnership;
    ClaimFrame(site, c);
    StepCordons(ClaimOwnership(site, c).site, pods, c);
  }

  /** What one turn may do to a node: nothing, or anything that leaves it ours and no other mark on it. */
  predicate TakenOver(a: Node, b: Node, cr: string) {
    b == a || (Owner(b) == cr && (b.cordon.owner == a.cordon.owner || b.cordon.owner == "" || b.cordon.owner == cr))
  }

  lemma TurnTakesOver(s0: Pass, i: nat, c: Ctx)
    requires Sane(s0) && i < |s0.states| && FreshAt(s0, i)
    ensures var t, name := Turn(s0, i, c), s0.states[i].name;
            && OnlyNode(s0, t, name)
            && (name in s0.w.nodes ==> TakenOver(s0.w.nodes[name], t.w.nodes[name], c.cr))
  {
    hide Turn, AdvanceNode, OnlyNode;
    InterfereKeeps(s0.w, c.api.before(i));
    TurnFrame(s0, i, c);
    if Acted(s0, i) {
      var site, pods := SiteAt(s0, i, c), PodsToDrain(Disturbed(s0, i, c).w, s0.states[i].name, c);
      AdvanceOwner(site, pods, c);
      AdvanceCordons(site, pods, c);
    } else {
      assert OnlyNode(s0, Turn(s0, i, c), s0.states[i].name);
    }
  }

  lemma OwnsStep(a: World, b: World, name: string, id: JobId, cr: string)
    requires OwnedWell(a) && cr != "" && id.node == name && id.cr == cr
    requires a.nodes.Keys == b.nodes.Keys && (forall n <- a.nodes :: n != name ==> b.nodes[n] == a.nodes[n])
    requires name in a.nodes ==>
              TakenOver(a.nodes[name], b.nodes[name], cr)
              && (!Claimable(a.nodes[name], cr) ==> b.nodes[name] == a.nodes[name])
    requires b.jobs.Keys == a.jobs.Keys
              || (name in b.nodes && Claimable(a.nodes[name], cr) && Owner(b.nodes[name]) == cr
              && b.jobs.Keys == a.jobs.Keys + {id})
    ensures OwnedWell(b) && OwnersKept(a, b) && ForeignKept(a, b, cr)
  {
    hide Owner;
  }

  lemma TurnOwns(s0: Pass, i: nat, c: Ctx)
    requires Sane(s0) && i < |s0.states| && FreshAt(s0, i) && c.cr != "" && OwnedWell(s0.w)
    requires s0.states[i].name in s0.local ==> Claimable(s0.w.nodes[s0.states[i].name], c.cr)
    ensures var t := Turn(s0, i, c);
            OwnedWell(t.w) && OwnersKept(s0.w, t.w) && ForeignKept(s0.w, t.w, c.cr)
  {
    hide Turn, Claimable, FreshAt, Takes, OwnedWell, TakenOver, ForeignKept, OwnersKept;
    TurnTakesOver(s0, i, c);
    TurnJobs(s0, i, c);
    InterferenceProgresses(s0.w, c.api.before(i));
    OwnsStep(s0.w, Turn(s0, i, c).w, s0.states[i].name, JobFor(s0.states[i].name, c), c.cr);
  }

  lemma OwnersCompose(a: World, b: World, d: World)
    requires OwnersKept(a, b) && OwnersKept(b, d)
    ensures OwnersKept(a, d)
  {
    hide Owner;
  }

  lemma OwnsCompose(a: World, b: World, d: World, cr: string)
    requires OwnersKept(a, b) && OwnersKept(b, d) && ForeignKept(a, b, cr) && ForeignKept(b, d, cr)
    ensures OwnersKept(a, d) && ForeignKept(a, d, cr)
  {
    OwnersCompose(a, b, d);
  }

  lemma {:induction false} TurnsOwn(w: World, c: Ctx, k: nat)
    requires Listing(w, c) && k <= |Begin(w, c).states| && OwnedWell(w)
    ensures var t := Turns(Begin(w, c), k, c);
            OwnedWell(t.w) && OwnersKept(w, t.w) && ForeignKept(w, t.w, c.cr)
  {
    hide Turn, ObserveAll, Shape, OwnedWell, OwnersKept, ForeignKept, Begin, FreshAt;
    LocalMeans(w, c);
    if k == 0 {
      InterferenceOwns(w, c.api.beforeCount, c.cr);
      BeginIs(w, c);
    } else {
      TurnsOwn(w, c, k - 1);
      var s := Turns(Begin(w, c), k - 1, c);
      PassShape(w, c, k - 1);
      StillClaimable(w, c, s, k - 1);
      TurnOwns(s, k - 1, c);
      OwnsCompose(w, s.w, Turn(s, k - 1, c).w, c.cr);
    }
  }

  lemma BeginIs(w: World, c: Ctx)
    ensures Begin(w, c).w == Interfere(w, c.api.beforeCount)
  {
  }

  lemma InterferenceOwns(w: World, es: seq<Interference>, cr: string)
    requires OwnedWell(w)
    ensures OwnedWell(Interfere(w, es)) && OwnersKept(w, Interfere(w, es)) && ForeignKept(w, Interfere(w, es), cr)
  {
    InterfereKeeps(w, es);
    InterferenceProgresses(w, es);
  }

  /** At its turn a node of the listing is still unclaimed or ours. */
  lemma StillClaimable(w: World, c: Ctx, s: Pass, k: nat)
    requires Listing(w, c) && Shape(w, c, s, k) && k < |s.states|
    ensures s.states[k].name in s.local ==>
              s.states[k].name in s.w.nodes && Claimable(s.w.nodes[s.states[k].name], c.cr)
  {
    hide ObserveAll;
    LocalMeans(w, c);
    NotMetBefore(w, c, k);
  }

  /** One reconcile keeps the ownership discipline and writes nothing to another policy's nodes. */
  lemma ReconcileOwns(w: World, c: Ctx)
    requires Listing(w, c) && OwnedWell(w)
    ensures var r := Reconcile(w, c).w;
            OwnedWell(r) && OwnersKept(w, r) && ForeignKept(w, r, c.cr)
  {
    hide Turn, ObserveAll, Begin, Reconcile, Lists, Claimable;
    ReconcileLeaves(w, c);
    if Lists(w, c) {
      var s := Advanced(w, c);
      TurnsOwn(w, c, 0);
      TurnsOwn(w, c, |Begin(w, c).states|);
      PassShape(w, c, |Begin(w, c).states|);
      LocalMeans(w, c);
      assert s.local.Keys == Begin(w, c).local.Keys;
      TidiedOwns(w, s, Reconcile(w, c).w, c);
    } else {
      InterferenceOwns(w, c.api.beforeCount, c.cr);
    }
  }

  lemma TidiedOwns(w: World, s: Pass, r: World, c: Ctx)
    requires OwnedWell(s.w) && OwnersKept(w, s.w) && ForeignKept(w, s.w, c.cr)
    requires r.jobs == s.w.jobs && r.nodes.Keys == s.w.nodes.Keys
    requires forall n <- r.nodes ::
              OnlyMirrors(s.w.nodes[n], r.nodes[n]) && (n !in s.local ==> r.nodes[n] == s.w.nodes[n])
    requires forall n <- s.local :: n in w.nodes && Claimable(w.nodes[n], c.cr)
    ensures OwnedWell(r) && OwnersKept(w, r) && ForeignKept(w, r, c.cr)
  {
    hide OnlyMirrors, Owner;
    forall n <- r.nodes
      ensures Owner(r.nodes[n]) == Owner(s.w.nodes[n]) && r.nodes[n].cordon == s.w.nodes[n].cordon
    {
      MirrorsCore(s.w.nodes[n], r.nodes[n]);
    }
  }

  /** Others may do anything but rewrite the owner label, mark a firmware cordon, or delete a node. */
  predicate RespectsOwners(e: Event) {
    match e
    case CordonEdited(_, mark) => mark.owner == ""
    case LabelEdited(_, key, _) => key != OwnerCR
    case NodeAdded(_, n) => n.cordon.owner == ""
    case NodeRemoved(_) => false
    case _ => true
  }

  lemma SameOwner(a: Node, b: Node)
    requires OwnerCR in a.labels <==> OwnerCR in b.labels
    requires OwnerCR in a.labels ==> a.labels[OwnerCR] == b.labels[OwnerCR]
    ensures Owner(a) == Owner(b)
  {
  }

  /** Edits that add no Job, keep every node and its owner, and mark nothing. */
  lemma EditOwns(a: World, b: World)
    requires OwnedWell(a) && b.jobs.Keys <= a.jobs.Keys && a.nodes.Keys <= b.nodes.Keys
    requires forall n <- a.nodes :: Owner(b.nodes[n]) == Owner(a.nodes[n])
    requires forall n <- b.nodes ::
              b.nodes[n].cordon.owner == "" || (n in a.nodes && b.nodes[n].cordon == a.nodes[n].cordon)
    ensures OwnedWell(b) && OwnersKept(a, b)
  {
    hide Owner;
  }

  lemma OccurOwns(w: World, e: Event)
    requires OwnedWell(w) && RespectsOwners(e) && (e.Reconciled? ==> Listing(w, e.c))
    ensures OwnedWell(Occur(w, e)) && OwnersKept(w, Occur(w, e))
  {
    hide Reconcile, OwnedWell, OwnersKept, Owner, Get;
    match e
    case Reconciled(c) => ReconcileOwns(w, c);
    case JobProgress(_, _) => EditOwns(w, Occur(w, e));
    case JobDeleted(_) => EditOwns(w, Occur(w, e));
    case PodsChanged(_) => EditOwns(w, Occur(w, e));
    case SchedulingSet(name, b) =>
      if name in w.nodes { SameOwner(w.nodes[name], w.nodes[name].(unschedulable := b)); }
      EditOwns(w, Occur(w, e));
    case CordonEdited(name, mark) =>
      if name in w.nodes { SameOwner(w.nodes[name], w.nodes[name].(cordon := mark)); }
      EditOwns(w, Occur(w, e));
    case LabelEdited(name, _, _) =>
      if name in w.nodes { SameOwner(w.nodes[name], Occur(w, e).nodes[name]); }
      EditOwns(w, Occur(w, e));
    case NodeAdded(_, _) => EditOwns(w, Occur(w, e));
    case PolicyRemoved(_) => EditOwns(w, Occur(w, e));
  }

  /** Over any interleaving of any policies' reconciles: owners are written once, every Job and every
      firmware cordon belongs to the node's owner, so no node ever carries Jobs of two policies. */
  lemma {:induction false} OwnershipExclusion(w: World, es: seq<Event>)
    requires Faithful(w, es) && OwnedWell(w)
    requires forall i | 0 <= i < |es| :: RespectsOwners(es[i])
    ensures OwnedWell(Run(w, es)) && OwnersKept(w, Run(w, es))
    ensures forall a, b | a in Run(w, es).jobs && b in Run(w, es).jobs && a.node == b.node :: a.cr == b.cr
  {
    hide Occur, Listing, RespectsOwners, Owner;
    if es != [] {
      var v := Run(w, es[..|es| - 1]);
      FaithfulPrefix(w, es);
      OwnershipExclusion(w, es[..|es| - 1]);
      OccurOwns(v, es[|es| - 1]);
      OwnersCompose(w, v, Run(w, es));
    }
  }
}
