/** Who takes part in a rollout, told from node labels alone, and what becomes of everyone else. */
module OptOut {
  import opened Kube
  import opened Selector
  import opened Firmware
  import opened Passes
  import opened NodeLife
  import opened Status

  /** The node opted out by its skip label, or lacks the device label the policy insists on. */
  predicate KeepsOut(labels: Labels, c: Ctx) {
    || (FirmwareSkip in labels && labels[FirmwareSkip] == "true")
    || (c.requirePresent && (Present !in labels || labels[Present] != "true"))
  }

  /** Picked by the selector, and not kept out. */
  predicate TakesPart(labels: Labels, c: Ctx) { Selects(c.spec.selector, labels) && !KeepsOut(labels, c) }

  /** No policy but this one has written its name on the node. */
  predicate FreeFor(labels: Labels, cr: string) {
    OwnerCR in labels ==> labels[OwnerCR] == "" || labels[OwnerCR] == cr
  }

  lemma MatchesMeans(n: Node, c: Ctx)
    ensures Matches(n, c) <==> TakesPart(n.labels, c)
    ensures Claimable(n, c.cr) <==> FreeFor(n.labels, c.cr)
  {
    hide Selects;
  }

  /** The two sides of the listing: selected, not opted out, and free for this policy, or another one's. */
  lemma PartitionMeans(w: World, c: Ctx, order: seq<string>, n: string)
    ensures n in Partition(w, c, order, true) <==>
              n in order && n in w.nodes && TakesPart(w.nodes[n].labels, c) && FreeFor(w.nodes[n].labels, c.cr)
    ensures n in Partition(w, c, order, false) <==>
              n in order && n in w.nodes && TakesPart(w.nodes[n].labels, c) && !FreeFor(w.nodes[n].labels, c.cr)
  {
    hide TakesPart, FreeFor, Matches, Claimable;
    if n in w.nodes {
      MatchesMeans(w.nodes[n], c);
    }
  }

  /** A node the selector misses, or that keeps out, is left identical by every reconcile, gets no Job, and has no
      entry in the status. */
  lemma LeftAlone(w: World, c: Ctx, n: string)
    requires Listing(w, c) && n in w.nodes
    requires !Selects(c.spec.selector, w.nodes[n].labels)
              || (FirmwareSkip in w.nodes[n].labels && w.nodes[n].labels[FirmwareSkip] == "true")
              || (c.requirePresent && (Present in w.nodes[n].labels ==> w.nodes[n].labels[Present] != "true"))
    ensures var r := Reconcile(w, c).w;
            n in r.nodes && r.nodes[n] == w.nodes[n] && forall id: JobId :: id.node == n ==>
                  (id in r.jobs <==> id in w.jobs)
    ensures forall ns <- Reconcile(w, c).states :: ns.name != n
  {
    hide Selects, Matches, Reconcile, Listing, Lists;
    MatchesMeans(w.nodes[n], c);
    ReconcileSkips(w, c, n);
    if Lists(w, c) {
      PublishesMatchedNodes(w, c);
    } else {
      NothingPublished(w, c);
    }
  }

  lemma NothingPublished(w: World, c: Ctx)
    requires !Lists(w, c)
    ensures Reconcile(w, c).states == []
  {
    hide Settled;
  }

  /** The status has an entry for a node exactly when the selector picks it and it does not keep out. */
  lemma PublishedExactlyWhen(w: World, c: Ctx, n: string)
    requires Listing(w, c) && Lists(w, c)
    ensures (exists ns <- Reconcile(w, c).states :: ns.name == n) <==>
              n in w.nodes && TakesPart(w.nodes[n].labels, c)
  {
    hide TakesPart, Matches, Reconcile, Listing, Lists;
    PublishesMatchedNodes(w, c);
    if n in w.nodes {
      MatchesMeans(w.nodes[n], c);
    }
  }
}
