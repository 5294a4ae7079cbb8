/** The labels an administrator reads, against the published status: exactly when they agree after a reconcile. */
module Mirrors {
  import opened Kube
  import opened Firmware
  import opened Steps
  import opened Passes
  import opened NodeLife
  import opened Status

  /** The patches of the status pass land on this node. */
  ghost predicate MirrorsLand(name: string, c: Ctx) {
    forall k | k in {StateLabel, VersionNote, VersionLabel} :: c.api.patch(name, k).Applied?
  }

  /** The two agree on all that is mirrored. */
  predicate Agree(a: Node, b: Node) {
    && Get(a.labels, UpgradeState) == Get(b.labels, UpgradeState)
          && Get(a.labels, FWVersion) == Get(b.labels, FWVersion)
    && a.currentVersion == b.currentVersion
  }

  /** What the node's label says when it agrees with a published state, and once Done its version. */
  predicate Shows(n: Node, st: NodeState, c: Ctx) {
    && UpgradeState in n.labels && SaysState(n.labels[UpgradeState], st)
    && (st.Done? ==> ShowsVersion(n, c))
  }

  predicate SaysState(text: string, st: NodeState) {
    && (st.Pending? ==> text == "Pending") && (st.Cordoning? ==> text == "Cordoning")
    && (st.Draining? ==> text == "Draining") && (st.Flashing? ==> text == "Flashing")
    && (st.Uncordoning? ==> text == "Uncordoning") && (st.Done? ==> text == "Done")
    && (st.Failed? ==> text == "Failed")
  }

  /** The readback version, which is the version plus ".0" unless given, in the annotation and the label. */
  predicate ShowsVersion(n: Node, c: Ctx) {
    var v := if c.spec.readbackVersion != "" then c.spec.readbackVersion else c.spec.version + ".0";
    n.currentVersion == v && FWVersion in n.labels && n.labels[FWVersion] == v
  }

  lemma AgreesWithItself(n: Node)
    ensures Agree(n, n)
  {
  }

  // ---- The status pass on one node --------------------------------------------------

  lemma LandsOn(site: Site, needed: bool, e: Edit, kind: Write, c: Ctx)
    requires Agree(site.server, site.mine) && c.api.patch(site.ns.name, kind).Applied?
    ensures var t := PatchIf(site, needed, e, kind, c);
            && Agree(t.server, t.mine) && t.ns == site.ns
            && t.server == if needed then Apply(site.server, e) else site.server
  {
    hide Apply;
  }

  lemma TidyShows(site: Site, c: Ctx)
    requires Agree(site.server, site.mine) && MirrorsLand(site.ns.name, c)
    ensures Shows(TidySite(site, c).server, site.ns.state, c)
  {
    hide Shows, StateName, PatchIf, Readback;
    var want, back := StateName(site.ns.state), Readback(c.spec);
    var s1 := PatchIf(site, Get(site.mine.labels, UpgradeState) != want, SetLabel(UpgradeState, want), StateLabel, c);
    LandsOn(site, Get(site.mine.labels, UpgradeState) != want, SetLabel(UpgradeState, want), StateLabel, c);
    LandsOn(s1, s1.mine.currentVersion != back, NoteVersion(back), VersionNote, c);
    var s2 := PatchIf(s1, s1.mine.currentVersion != back, NoteVersion(back), VersionNote, c);
    LandsOn(s2, Get(s2.mine.labels, FWVersion) != back, SetLabel(FWVersion, back), VersionLabel, c);
    ShowsWhen(TidySite(site, c).server, site.ns.state, c);
  }

  lemma ShowsWhen(n: Node, st: NodeState, c: Ctx)
    requires Get(n.labels, UpgradeState) == StateName(st)
    requires st.Done? ==> n.currentVersion == Readback(c.spec) && Get(n.labels, FWVersion) == Readback(c.spec)
    ensures Shows(n, st, c)
  {
    if c.spec.readbackVersion == "" {
      assert |c.spec.version + ".0"| > 0;
    }
  }

  /** The copy already says Flashing, so the status pass does not look at the server. */
  lemma TidyMisses(site: Site, c: Ctx)
    requires site.ns.state.Flashing? && Get(site.mine.labels, UpgradeState) == "Flashing"
    ensures TidySite(site, c) == site
    ensures Get(site.server.labels, UpgradeState) != "Flashing" ==> !Shows(site.server, Flashing, c)
  {
  }

  // ---- The node's own turn ----------------------------------------------------------

  /** Its Job was created and noted, but the patch that says so on its label was rejected. */
  predicate LabelMissed(site: Site, t: Site, c: Ctx) {
    && t.hasJob && !site.hasJob && c.api.patch(site.ns.name, FlashNote).Applied?
    && c.api.patch(site.ns.name, FlashLabel).Rejected?
  }

  /** No other patch touches what is mirrored. */
  lemma PatchAgrees(site: Site, e: Edit, kind: Write, c: Ctx)
    requires Fresh(site) && (e.SetLabel? ==> e.key == OwnerCR) && !e.NoteVersion?
    ensures var t := PatchMove(site, e, kind, c).site;
            Agree(t.server, t.mine) && Agree(t.server, site.server) && t.hasJob == site.hasJob
  {
    hide Logged;
  }

  lemma FlashNoteLands(site: Site, id: JobId, c: Ctx)
    requires Fresh(site) && c.api.patch(site.ns.name, FlashNote).Applied?
    ensures Fresh(PatchMove(site, NoteFlash(c.spec.version, id), FlashNote, c).site)
  {
  }

  lemma FlashLabelAgrees(site: Site, c: Ctx)
    requires Fresh(site)
    ensures var t := PatchMove(site, SetLabel(UpgradeState, "Flashing"), FlashLabel, c).site;
            && Get(t.mine.labels, UpgradeState) == "Flashing"
            && (if c.api.patch(site.ns.name, FlashLabel).Rejected? then t.server == site.server
                else Agree(t.server, t.mine))
  {
    hide Logged;
  }

  lemma SpawnAgrees(site: Site, c: Ctx)
    requires Fresh(site)
    ensures var t := SpawnFlashJob(site, c).site;
            && (!LabelMissed(site, t, c) ==> Agree(t.server, t.mine))
            && (LabelMissed(site, t, c) ==>
                  && t.ns.state.Flashing? && Get(t.mine.labels, UpgradeState) == "Flashing"
                  && Agree(t.server, site.server))
  {
    hide Apply, Logged, Agree;
    var id := JobFor(site.ns.name, c);
    var created := site.(ns := Flagged(site.ns, id), hasJob := true, log := site.log + [JobCreate(id)]);
    AgreesWithItself(site.server);
    PatchAgrees(created, NoteFlash(c.spec.version, id), FlashNote, c);
    if c.api.patch(site.ns.name, FlashNote).Applied? {
      FlashNoteLands(created, id, c);
      FlashLabelAgrees(PatchMove(created, NoteFlash(c.spec.version, id), FlashNote, c).site, c);
    }
  }

  lemma OthersAgree(site: Site, list: seq<Pod>, c: Ctx)
    requires Fresh(site)
    ensures var t := ClaimOwnership(site, c).site; Agree(t.server, t.mine) && Agree(t.server, site.server)
    ensures var t := CordonStep(site, c).site; Agree(t.server, t.mine) && t.hasJob == site.hasJob
    ensures var t := UncordonStep(site, c).site; Agree(t.server, t.mine) && t.hasJob == site.hasJob
    ensures var t := DrainStep(site, list, c).site; Agree(t.server, t.mine) && t.hasJob == site.hasJob
  {
    hide EvictAll, PatchMove, Agree, Owner;
    AgreesWithItself(site.server);
    PatchAgrees(site, SetLabel(OwnerCR, c.cr), Claim, c);
    PatchAgrees(site, SetCordon(c.cr, c.now), CordonPatch, c);
    PatchAgrees(site, ClearCordon, UncordonPatch, c);
  }

  /** After the action copy and server agree, unless the label of a new Job was missed. */
  lemma AdvanceAgrees(site: Site, list: seq<Pod>, c: Ctx)
    requires Fresh(site)
    ensures var t := AdvanceNode(site, list, c).site;
            && (!LabelMissed(site, t, c) ==> Agree(t.server, t.mine))
            && (LabelMissed(site, t, c) ==>
                  && t.ns.state.Flashing? && Get(t.mine.labels, UpgradeState) == "Flashing"
                  && Agree(t.server, site.server))
  {
    hide ClaimOwnership, CordonStep, UncordonStep, DrainStep, SpawnFlashJob;
    var claimed := ClaimOwnership(site, c).site;
    ClaimFrame(site, c);
    OthersAgree(site, list, c);
    if Fresh(claimed) {
      OthersAgree(claimed, list, c);
      SpawnAgrees(claimed, c);
    }
  }

  // ---- The loop ---------------------------------------------------------------------

  /** Copy and server object of node `i` once its turn is over: as its move left them. */
  lemma {:induction false} CopyFollows(w: World, c: Ctx, i: nat, k: nat)
    requires Listing(w, c) && Advances(w, c) && i < k <= |Begin(w, c).states|
    requires var n := Begin(w, c).states[i].name; n in w.nodes && Claimable(w.nodes[n], c.cr)
    ensures var n, s, m := Begin(w, c).states[i].name, AtTurn(w, c, k), MoveOn(w, c, i);
            n in s.local && n in s.w.nodes && s.local[n] == m.mine && s.w.nodes[n] == m.server
  {
    hide Turn, Begin, ObserveAll, Listing, AdvanceNode, FreshAt, Acted, MoveOn, Shape, Claimable, Advances;
    if k == i + 1 {
      OwnTurn(w, c, i);
    } else {
      CopyFollows(w, c, i, k - 1);
      OthersTurn(w, c, i, k - 1);
    }
  }

  lemma OwnTurn(w: World, c: Ctx, i: nat)
    requires Listing(w, c) && Advances(w, c) && i < |Begin(w, c).states|
    requires var n := Begin(w, c).states[i].name; n in w.nodes && Claimable(w.nodes[n], c.cr)
    ensures var n, s, m := Begin(w, c).states[i].name, AtTurn(w, c, i + 1), MoveOn(w, c, i);
            n in s.local && n in s.w.nodes && s.local[n] == m.mine && s.w.nodes[n] == m.server
  {
    hide Turn, Begin, ObserveAll, Listing, AdvanceNode, Advances;
    TurnStarts(w, c, i);
    SiteIsFound(w, c, i);
    TurnFrame(AtTurn(w, c, i), i, c);
    InterfereKeeps(AtTurn(w, c, i).w, c.api.before(i));
  }

  lemma OthersTurn(w: World, c: Ctx, i: nat, k: nat)
    requires Listing(w, c) && i < k < |Begin(w, c).states|
    ensures var n, s, t := Begin(w, c).states[i].name, AtTurn(w, c, k), AtTurn(w, c, k + 1);
            && (n in s.local ==> n in t.local && t.local[n] == s.local[n])
            && (n in s.w.nodes ==> n in t.w.nodes && t.w.nodes[n] == s.w.nodes[n])
  {
    hide Turn, Begin, ObserveAll, Listing, FreshAt, Shape, MoveAt, Acted;
    LocalMeans(w, c);
    ObservedDistinct(w, c, i, k);
    PassShape(w, c, k);
    ShapeNames(w, c, AtTurn(w, c, k), k);
    TurnFrame(AtTurn(w, c, k), k, c);
  }

  // ---- The whole status pass --------------------------------------------------------

  lemma TidyLeaves(s: Pass, ns: NodeStatus, c: Ctx, name: string)
    requires Sane(s) && ns.name != name
    ensures var t := Tidy(s, ns, c);
            && (name in s.local <==> name in t.local) && (name in s.w.nodes <==> name in t.w.nodes)
            && (name in s.local ==> t.local[name] == s.local[name])
            && (name in s.w.nodes ==> t.w.nodes[name] == s.w.nodes[name])
  {
    hide TidySite;
    if ns.name in s.local {
      TidySiteMirrors(SiteOf(s, ns, c), c);
    }
  }

  lemma {:induction false} TidyLeavesOthers(s: Pass, states: seq<NodeStatus>, c: Ctx, name: string)
    requires Sane(s) && forall ns <- states :: ns.name != name
    ensures var t := TidyAll(s, states, c);
            && (name in s.local <==> name in t.local) && (name in s.w.nodes <==> name in t.w.nodes)
            && (name in s.local ==> t.local[name] == s.local[name])
            && (name in s.w.nodes ==> t.w.nodes[name] == s.w.nodes[name])
  {
    hide Tidy;
    if states != [] {
      TidyLeavesOthers(s, states[..|states| - 1], c, name);
      TidyLeaves(TidyAll(s, states[..|states| - 1], c), states[|states| - 1], c, name);
    }
  }

  /** The site the status pass finds at a node; its Job, evictions and log play no part. */
  function Found(s: Pass, ns: NodeStatus): Site
    requires Sane(s) && ns.name in s.local
  {
    Site(s.w.nodes[ns.name], s.local[ns.name], ns, true, {}, [])
  }

  lemma PatchIfWithJob(site: Site, b: bool, needed: bool, e: Edit, kind: Write, c: Ctx)
    ensures var t, u := PatchIf(site, needed, e, kind, c), PatchIf(site.(hasJob := b), needed, e, kind, c);
            u.server == t.server && u.mine == t.mine && u.ns == t.ns == site.ns && u == t.(hasJob := b)
  {
    hide Apply;
  }

  lemma TidyOnlyNodes(site: Site, b: bool, c: Ctx)
    ensures TidySite(site.(hasJob := b), c).server == TidySite(site, c).server
    ensures TidySite(site, c).ns == site.ns
  {
    hide PatchIf, Readback, StateName;
    var want, back := StateName(site.ns.state), Readback(c.spec);
    var stale := Get(site.mine.labels, UpgradeState) != want;
    var s1 := PatchIf(site, stale, SetLabel(UpgradeState, want), StateLabel, c);
    PatchIfWithJob(site, b, stale, SetLabel(UpgradeState, want), StateLabel, c);
    PatchIfWithJob(s1, b, s1.mine.currentVersion != back, NoteVersion(back), VersionNote, c);
    var s2 := PatchIf(s1, s1.mine.currentVersion != back, NoteVersion(back), VersionNote, c);
    PatchIfWithJob(s2, b, Get(s2.mine.labels, FWVersion) != back, SetLabel(FWVersion, back), VersionLabel, c);
  }

  /** The status pass comes by each node once. */
  lemma {:induction false} TidiesOnce(s: Pass, states: seq<NodeStatus>, c: Ctx, i: nat)
    requires Sane(s) && OnePerName(states) && i < |states| && states[i].name in s.local
    ensures var t, n := TidyAll(s, states, c), states[i].name;
            n in t.w.nodes && t.w.nodes[n] == TidySite(Found(s, states[i]), c).server
  {
    hide TidySite, Tidied;
    var shorter, last := states[..|states| - 1], states[|states| - 1];
    var t := TidyAll(s, shorter, c);
    if i == |states| - 1 {
      TidyLeavesOthers(s, shorter, c, last.name);
      TidyOnlyNodes(Found(s, last), JobFor(last.name, c) in t.w.jobs, c);
      TidyOnlyNodes(SiteOf(t, last, c), true, c);
    } else {
      assert shorter[i] == states[i];
      TidiesOnce(s, shorter, c, i);
      TidyLeaves(t, last, c, states[i].name);
    }
  }

  // ---- A reconcile ------------------------------------------------------------------

  /** The reconcile creates the node's Job and notes it, its patch of the state label is rejected, and the label did not
      say Flashing before. */
  predicate Misses(w: World, c: Ctx, name: string)
    requires name in w.nodes
  {
    var id := JobId(c.cr, name, c.spec.version);
    && id !in w.jobs && id in Reconcile(w, c).w.jobs && c.api.patch(name, FlashNote).Applied?
    && c.api.patch(name, FlashLabel).Rejected? && Get(w.nodes[name].labels, UpgradeState) != "Flashing"
  }

  lemma CopyAtEnd(w: World, c: Ctx, i: nat)
    requires Listing(w, c) && Lists(w, c) && i < |Begin(w, c).states|
    requires var n := Begin(w, c).states[i].name; n in w.nodes && Claimable(w.nodes[n], c.cr)
    ensures var n, s, m := Begin(w, c).states[i].name, Advanced(w, c), MoveOn(w, c, i);
            n in s.local && s.local[n] == m.mine && s.w.nodes[n] == m.server
  {
    hide Turns, Begin, ObserveAll, Listing, Halted, MoveOn, Claimable;
    if Advances(w, c) {
      CopyFollows(w, c, i, |Begin(w, c).states|);
    } else {
      StandingCopy(w, c, i);
    }
  }

  lemma StandingCopy(w: World, c: Ctx, i: nat)
    requires Listing(w, c) && !Advances(w, c) && i < |Begin(w, c).states|
    requires var n := Begin(w, c).states[i].name; n in w.nodes && Claimable(w.nodes[n], c.cr)
    ensures var n, s, m := Begin(w, c).states[i].name, Begin(w, c), MoveOn(w, c, i);
            n in s.local && s.local[n] == m.mine && s.w.nodes[n] == m.server
  {
    hide Begin, ObserveAll, Advances, Matches, Claimable;
    LocalMeans(w, c);
    ObservedAt(w, c, i);
  }

  /** When the patches of the status pass land, a node of ours ends the reconcile with the label of its published state,
      spelled out, and once Done with the readback version in annotation and label,
            exactly unless the label of a new Job
      was missed: the copy then says Flashing already, and the status pass does not look further. */
  lemma LabelsFollowExactlyWhen(w: World, c: Ctx, i: nat) returns (out: NodeStatus)
    requires Listing(w, c) && Lists(w, c) && i < |ObserveAll(w, c)| && MirrorsLand(ObserveAll(w, c)[i].name, c)
    requires var n := ObserveAll(w, c)[i].name; n in w.nodes && Claimable(w.nodes[n], c.cr)
    ensures out in Reconcile(w, c).states && out.name == ObserveAll(w, c)[i].name
    ensures out.name in Reconcile(w, c).w.nodes
    ensures Shows(Reconcile(w, c).w.nodes[out.name], out.state, c) <==> !Misses(w, c, out.name)
  {
    hide ObserveAll, Advanced, Lists, Listing, Shows, MirrorsLand, TidySite, Halted, Claimable, AdvanceNode, SlotsAt,
         PodsAt, Begin, Agree, OnlyMirrors, Reconcile, Settled;
    var n := ObserveAll(w, c)[i].name;
    LocalMeans(w, c);
    ReconcileMoves(w, c, i);
    CopyAtEnd(w, c, i);
    AdvanceAgrees(FoundSite(w, ObserveAll(w, c)[i], c), PodsAt(w, c, i), c);
    AgreesWithItself(w.nodes[n]);
    out := TidiedEntry(w, c, i);
    var site, m := Found(Advanced(w, c), out), MoveOn(w, c, i);
    if Agree(m.server, m.mine) {
      TidyShows(site, c);
    }
    if LabelMissed(FoundSite(w, ObserveAll(w, c)[i], c), m, c) {
      TidyMisses(site, c);
      StillSays(m, w.nodes[n], c);
    }
  }

  /** Whether the server still has the label from before decides. */
  lemma StillSays(m: Site, n: Node, c: Ctx)
    requires Agree(m.server, n)
    ensures Get(m.server.labels, UpgradeState) == Get(n.labels, UpgradeState)
    ensures Get(n.labels, UpgradeState) == "Flashing" ==> Shows(m.server, Flashing, c)
  {
  }

  /** The published entry of a node, and what the status pass makes of the node. */
  lemma TidiedEntry(w: World, c: Ctx, i: nat) returns (out: NodeStatus)
    requires Listing(w, c) && Lists(w, c) && i < |ObserveAll(w, c)|
    requires var n := ObserveAll(w, c)[i].name; n in Advanced(w, c).local
    ensures |Advanced(w, c).states| == |ObserveAll(w, c)|
    ensures out in Reconcile(w, c).states && out.name == ObserveAll(w, c)[i].name
    ensures out.state == Advanced(w, c).states[i].state
    ensures var n, r := ObserveAll(w, c)[i].name, Reconcile(w, c).w;
            n in r.nodes && r.nodes[n] == TidySite(Found(Advanced(w, c), out), c).server
  {
    hide ObserveAll, Advanced, Lists, Listing, TidyAll, TidySite, Announcements, Summarize, SortByName, OnePerName,
          Halted,
         Find, Unmoved;
    SettledNames(w, c);
    SettledOnePerName(w, c);
    PublishedEntries(w, c);
    out := Settled(w, c)[i];
    assert out in Settled(w, c);
    TidiesOnce(Advanced(w, c), Settled(w, c), c, i);
  }
}
