/** What one reconcile of a firmware policy does: observe, advance under a slot budget, publish.
    Every answer of the API server is an input (`Api`), so nothing about it is assumed. */
module Firmware {
  import opened Kube
  import opened Drain
  import opened Selector

  // ---- The policy and its status ----------------------------------------------------

  datatype NodeState = Pending | Cordoning | Draining | Flashing | Uncordoning | Done | Failed

  datatype Reason =
    | NoReason | FlashRunning | FlasherImagePullFailed | FlashJobFailed | FlashSucceeded
    | CordonDue | DrainRunning | UncordonDue | EvictionBlocked | DrainTimedOut
    | NodeConflict | ExternalCordon | RolloutHalted | AutoUpgradeDisabled | Paused
    | TransientAPIError

  datatype Message =
    | NoMessage | ConflictMessage | ExternalCordonMessage | LookupFailedMessage | PodListFailedMessage
    | JobFailedMessage | ImagePullMessage(waiting: string) | DrainTimeoutMessage(pods: seq<PodId>)
    | WaitingMessage(count: nat) | EvictionBlockedMessage(pod: PodId)
    | AutoUpgradeOffMessage | PausedMessage | HaltedMessage

  datatype NodeStatus = NodeStatus(
    name: string,
    state: NodeState,
    reason: Reason,
    message: Message,
    currentVersion: string,
    lastFlashJob: Option<JobId>,
    since: int)

  datatype Spec = Spec(
    version: string,
    readbackVersion: string,
    selector: LabelSelector,
    paused: bool,
    autoUpgrade: Option<bool>,
    maxParallel: int,
    haltOnFailure: Option<bool>,
    drainEnable: Option<bool>,
    drainForce: bool,
    drainTimeoutSeconds: int)

  predicate DrainEnabled(spec: Spec) { spec.drainEnable != Some(false) }

  predicate AutoUpgrades(spec: Spec) { spec.autoUpgrade != Some(false) }

  predicate HaltsOnFailure(spec: Spec) { spec.haltOnFailure != Some(false) }

  function MaxParallel(spec: Spec): int { if spec.maxParallel == 0 then 1 else spec.maxParallel }

  function DrainTimeout(spec: Spec): int { if spec.drainTimeoutSeconds <= 0 then 600 else spec.drainTimeoutSeconds }

  function Readback(spec: Spec): string {
    if spec.readbackVersion == "" then spec.version + ".0" else spec.readbackVersion
  }

  predicate IsInFlight(st: NodeState) {
    st.Cordoning? || st.Draining? || st.Flashing? || st.Uncordoning?
  }

  predicate IsAdvanceable(st: NodeState) {
    st.Pending? || st.Cordoning? || st.Draining? || st.Uncordoning?
  }

  // ---- The cluster ------------------------------------------------------------------

  /** Writes the API server applied, oldest first. */
  datatype Action =
    | CordonWrite(cr: string, node: string, wasSchedulable: bool)
    | UncordonWrite(cr: string, node: string)
    | JobCreate(id: JobId)

  datatype World = World(
    nodes: map<string, Node>,
    jobs: map<JobId, Job>,
    pods: seq<Pod>,
    evicted: set<PodId>,
    status: map<string, seq<NodeStatus>>,
    log: seq<Action>)

  /** The unfinished Jobs of one policy, whatever version they flash. */
  function Active(jobs: map<JobId, Job>, cr: string): set<JobId> {
    set id | id in jobs && id.cr == cr && Outcome(jobs[id]).Running?
  }

  function InFlight(jobs: map<JobId, Job>, cr: string): nat {
    |Active(jobs, cr)|
  }

  // ---- The API server's answers -----------------------------------------------------

  datatype CreateAnswer = Accepted | Refused

  datatype Write =
    | Claim | CordonPatch | UncordonPatch | FlashNote | FlashLabel
    | StateLabel | VersionNote | VersionLabel

  /** What others do while a reconcile runs: Jobs make progress, pods come and go. */
  datatype Interference = JobMoves(id: JobId, job: Job) | PodsBecome(pods: seq<Pod>)

  datatype Api = Api(
    nodesListed: bool,
    jobsListed: bool,
    statusWritten: bool,
    order: seq<string>,
    lookupAnswers: string -> bool,
    podsListed: string -> bool,
    waiting: string -> string,
    patch: (string, Write) -> PatchAnswer,
    drainListed: string -> bool,
    evict: PodId -> EvictAnswer,
    create: string -> CreateAnswer,
    beforeCount: seq<Interference>,
    before: nat -> seq<Interference>)

  datatype Ctx = Ctx(cr: string, spec: Spec, now: int, operatorNs: string, requirePresent: bool, api: Api)

  predicate Acts(c: Ctx) { AutoUpgrades(c.spec) && !c.spec.paused }

  /** A Job only moves forward: once finished, its outcome stands. */
  function MoveJob(jobs: map<JobId, Job>, id: JobId, job: Job): map<JobId, Job> {
    if id in jobs && (Outcome(jobs[id]).Running? || Outcome(jobs[id]) == Outcome(job)) then jobs[id := job] else jobs
  }

  function InterfereOne(w: World, e: Interference): World {
    match e
    case JobMoves(id, job) => w.(jobs := MoveJob(w.jobs, id, job))
    case PodsBecome(pods) => w.(pods := pods)
  }

  function Interfere(w: World, es: seq<Interference>): World {
    if es == [] then w else InterfereOne(Interfere(w, es[..|es| - 1]), es[|es| - 1])
  }

  // ---- Selecting and observing ------------------------------------------------------

  predicate Matches(n: Node, c: Ctx) {
    && Selects(c.spec.selector, n.labels)
    && Get(n.labels, FirmwareSkip) != "true"
    && (c.requirePresent ==> Get(n.labels, Present) == "true")
  }

  function Owner(n: Node): string { Get(n.labels, OwnerCR) }

  predicate Claimable(n: Node, cr: string) { Owner(n) == "" || Owner(n) == cr }

  /** The listed nodes the policy matches and may own (`mine`) or another policy owns. */
  function Partition(w: World, c: Ctx, order: seq<string>, mine: bool): (names: seq<string>)
    ensures forall n :: n in names <==>
        n in order && n in w.nodes && Matches(w.nodes[n], c) && Claimable(w.nodes[n], c.cr) == mine
  {
    if order == [] then []
    else
      var rest := Partition(w, c, order[..|order| - 1], mine);
      var n := order[|order| - 1];
      if n in w.nodes && Matches(w.nodes[n], c) && Claimable(w.nodes[n], c.cr) == mine then rest + [n] else rest
  }

  function JobFor(name: string, c: Ctx): JobId { JobId(c.cr, name, c.spec.version) }

  function Status(name: string, n: Node, state: NodeState, reason: Reason, message: Message): NodeStatus {
    NodeStatus(name, state, reason, message, n.currentVersion, n.lastFlashJob, 0)
  }

  predicate ImagePullStuck(waiting: string) { waiting == "ImagePullBackOff" || waiting == "ErrImagePull" }

  function ObserveJob(name: string, n: Node, job: Job, c: Ctx): NodeStatus {
    var base := match Outcome(job)
      case Succeeded =>
        if DrainEnabled(c.spec) && n.cordon.owner == c.cr
        then Status(name, n, Uncordoning, UncordonDue, NoMessage)
        else Status(name, n, Done, FlashSucceeded, NoMessage)
      case JobFailed => Status(name, n, Failed, FlashJobFailed, JobFailedMessage)
      case Running =>
        var waiting := c.api.waiting(name);
        if ImagePullStuck(waiting)
        then Status(name, n, Flashing, FlasherImagePullFailed, ImagePullMessage(waiting))
        else Status(name, n, Flashing, FlashRunning, NoMessage);
    base.(lastFlashJob := Some(JobFor(name, c)))
  }

  function Ids(pods: seq<Pod>): seq<PodId> { seq(|pods|, i requires 0 <= i < |pods| => pods[i].id) }

  function ObserveDrain(w: World, name: string, n: Node, c: Ctx): NodeStatus {
    if !n.unschedulable then Status(name, n, Cordoning, CordonDue, NoMessage)
    else if n.cordon.owner != c.cr then Status(name, n, Pending, ExternalCordon, ExternalCordonMessage)
    else if !c.api.podsListed(name) then Status(name, n, Draining, TransientAPIError, PodListFailedMessage)
    else
      var pods := DevicePods(w.pods, name, c.operatorNs, c.spec.drainForce);
      if pods == [] then Status(name, n, Pending, NoReason, NoMessage)
      else if CordonElapsed(n.cordon, c.now) > DrainTimeout(c.spec)
      then Status(name, n, Failed, DrainTimedOut, DrainTimeoutMessage(Ids(pods)))
      else Status(name, n, Draining, DrainRunning, WaitingMessage(|pods|))
  }

  /** Where a node stands, re-derived from its Job, its cordon and its device pods. */
  function Observe(w: World, name: string, n: Node, c: Ctx): (ns: NodeStatus)
    ensures ns.name == name
  {
    if !c.api.lookupAnswers(name) then Status(name, n, Pending, TransientAPIError, LookupFailedMessage)
    else if JobFor(name, c) in w.jobs then ObserveJob(name, n, w.jobs[JobFor(name, c)], c)
    else if !DrainEnabled(c.spec) then Status(name, n, Pending, NoReason, NoMessage)
    else ObserveDrain(w, name, n, c)
  }

  function Conflicted(name: string): NodeStatus {
    NodeStatus(name, Pending, NodeConflict, ConflictMessage, "", None, 0)
  }

  function ObserveAll(w: World, c: Ctx): (states: seq<NodeStatus>)
    ensures |states| == |Partition(w, c, c.api.order, true)| + |Partition(w, c, c.api.order, false)|
  {
    var mine := Partition(w, c, c.api.order, true);
    var theirs := Partition(w, c, c.api.order, false);
    seq(|mine|, i requires 0 <= i < |mine| => Observe(w, mine[i], w.nodes[mine[i]], c))
    + seq(|theirs|, i requires 0 <= i < |theirs| => Conflicted(theirs[i]))
  }

  predicate AnyFailed(states: seq<NodeStatus>) {
    exists i | 0 <= i < |states| :: states[i].state.Failed?
  }

  // ---- Advancing one node -----------------------------------------------------------

  datatype Edit =
    | SetLabel(key: LabelKey, value: string)
    | SetCordon(owner: string, now: int)
    | ClearCordon
    | NoteFlash(version: string, id: JobId)
    | NoteVersion(version: string)

  function Apply(n: Node, e: Edit): Node {
    match e
    case SetLabel(key, value) => n.(labels := n.labels[key := value])
    case SetCordon(owner, now) =>
      var d := Cordon(n.unschedulable, n.cordon, owner, now);
      n.(unschedulable := d.unschedulable, cordon := d.mark)
    case ClearCordon => n.(unschedulable := false, cordon := CordonMark("", NoStamp))
    case NoteFlash(version, id) => n.(desiredVersion := version, lastFlashJob := Some(id))
    case NoteVersion(version) => n.(currentVersion := version)
  }

  /** One node during a reconcile: the server's object, our local copy, the status being built,
      whether its Job exists, and what this reconcile has evicted and written there so far. */
  datatype Site = Site(
    server: Node, mine: Node, ns: NodeStatus, hasJob: bool, evicted: set<PodId>, log: seq<Action>)

  function Logged(site: Site, e: Edit, cr: string): seq<Action> {
    match e
    case SetCordon(_, _) => [CordonWrite(cr, site.ns.name, !site.server.unschedulable)]
    case ClearCordon => [UncordonWrite(cr, site.ns.name)]
    case _ => []
  }

  /** One merge patch: the local copy always changes, the server only when the patch lands. */
  function Patch(site: Site, e: Edit, answer: PatchAnswer, cr: string): Site {
    var mine := Apply(site.mine, e);
    if answer.Rejected? then site.(mine := mine)
    else
      var server := Apply(site.server, e);
      site.(server := server, mine := if answer.Applied? then server else mine,
            log := site.log + Logged(site, e, cr))
  }

  /** The outcome of one step: the node, "a slot was used", "no error". */
  datatype Move = Move(site: Site, advanced: bool, ok: bool)

  function PatchMove(site: Site, e: Edit, kind: Write, c: Ctx): Move {
    var answer := c.api.patch(site.ns.name, kind);
    Move(Patch(site, e, answer, c.cr), answer.Applied?, answer.Applied?)
  }

  function ClaimOwnership(site: Site, c: Ctx): Move {
    if Owner(site.mine) == c.cr then Move(site, false, true)
    else PatchMove(site, SetLabel(OwnerCR, c.cr), Claim, c)
  }

  function CordonStep(site: Site, c: Ctx): Move {
    if CordonHeld(site.mine.unschedulable, site.mine.cordon, c.cr) then Move(site, true, true)
    else PatchMove(site, SetCordon(c.cr, c.now), CordonPatch, c)
  }

  function UncordonStep(site: Site, c: Ctx): Move {
    if site.mine.cordon.owner != c.cr then Move(site, true, true)
    else PatchMove(site, ClearCordon, UncordonPatch, c)
  }

  /** Evictions so far: accepted pods, the last pod a budget blocked, and whether to go on. */
  datatype Evictions = Evictions(done: set<PodId>, blocked: Option<PodId>, ok: bool)

  function EvictFrom(pods: seq<Pod>, i: nat, evict: PodId -> EvictAnswer, acc: Evictions): Evictions
    requires i <= |pods|
    decreases |pods| - i
  {
    if i == |pods| then acc
    else match evict(pods[i].id)
      case Evicted => EvictFrom(pods, i + 1, evict, acc.(done := acc.done + {pods[i].id}))
      case AlreadyGone => EvictFrom(pods, i + 1, evict, acc)
      case Blocked => EvictFrom(pods, i + 1, evict, acc.(blocked := Some(pods[i].id)))
      case EvictError => acc.(ok := false)
  }

  function EvictAll(pods: seq<Pod>, c: Ctx): Evictions {
    EvictFrom(pods, 0, c.api.evict, Evictions({}, None, true))
  }

  /** Evicts the listed device pods one by one; a blocked eviction is noted, an error stops the loop. */
  function DrainStep(site: Site, pods: seq<Pod>, c: Ctx): Move {
    if !c.api.drainListed(site.ns.name) then Move(site, false, false)
    else
      var e := EvictAll(pods, c);
      var ns := if e.blocked.None? then site.ns
                else site.ns.(reason := EvictionBlocked, message := EvictionBlockedMessage(e.blocked.value));
      Move(site.(evicted := site.evicted + e.done, ns := ns), e.ok, e.ok)
  }

  function Flagged(ns: NodeStatus, id: JobId): NodeStatus {
    ns.(state := Flashing, reason := FlashRunning, lastFlashJob := Some(id))
  }

  /** Creates the flash Job; from the Create on the node counts as Flashing, whatever fails later. */
  function SpawnFlashJob(site: Site, c: Ctx): Move {
    var id := JobFor(site.ns.name, c);
    if c.api.create(site.ns.name).Refused? then Move(site, false, false)
    else if site.hasJob then Move(site.(ns := Flagged(site.ns, id)), true, true)
    else
      var created := site.(ns := Flagged(site.ns, id), hasJob := true, log := site.log + [JobCreate(id)]);
      var noted := PatchMove(created, NoteFlash(c.spec.version, id), FlashNote, c);
      if !noted.ok then Move(noted.site, false, false)
      else PatchMove(noted.site, SetLabel(UpgradeState, "Flashing"), FlashLabel, c)
  }

  /** Claim the node, then take the one action its observed state calls for. */
  function AdvanceNode(site: Site, pods: seq<Pod>, c: Ctx): Move {
    var claim := ClaimOwnership(site, c);
    if !claim.ok then Move(claim.site, false, false)
    else match site.ns.state
      case Cordoning => CordonStep(claim.site, c)
      case Draining => DrainStep(claim.site, pods, c)
      case Pending => SpawnFlashJob(claim.site, c)
      case Uncordoning => UncordonStep(claim.site, c)
      case _ => Move(claim.site, false, true)
  }

  // ---- The advance loop -------------------------------------------------------------

  /** A reconcile under way: the cluster, the local node copies, the per-node states, the slots left. */
  datatype Pass = Pass(w: World, local: map<string, Node>, states: seq<NodeStatus>, capacity: int)

  predicate Sane(s: Pass) { s.local.Keys <= s.w.nodes.Keys }

  predicate HandsOff(m: Message) { m.ConflictMessage? || m.ExternalCordonMessage? }

  /** Is this node acted on, given the slots left? */
  predicate Takes(ns: NodeStatus, capacity: int) {
    IsAdvanceable(ns.state) && !HandsOff(ns.message) && (ns.state.Pending? ==> capacity > 0)
  }

  function SiteOf(s: Pass, ns: NodeStatus, c: Ctx): Site
    requires Sane(s) && ns.name in s.local
  {
    Site(s.w.nodes[ns.name], s.local[ns.name], ns, JobFor(ns.name, c) in s.w.jobs, {}, [])
  }

  /** Writes one node's site back into the pass. */
  function PutBack(s: Pass, site: Site, c: Ctx): (t: Pass)
    requires Sane(s)
    ensures Sane(t)
  {
    var name, id := site.ns.name, JobFor(site.ns.name, c);
    var w := s.w.(
      nodes := s.w.nodes[name := site.server],
      jobs := if site.hasJob && id !in s.w.jobs then s.w.jobs[id := Job([])] else s.w.jobs,
      evicted := s.w.evicted + site.evicted,
      log := s.w.log + site.log);
    s.(w := w, local := s.local[name := site.mine])
  }

  function PodsToDrain(w: World, name: string, c: Ctx): seq<Pod> {
    DevicePods(w.pods, name, c.operatorNs, c.spec.drainForce)
  }

  function Disturbed(s: Pass, i: nat, c: Ctx): (t: Pass)
    ensures Sane(s) ==> Sane(t)
  {
    InterfereKeeps(s.w, c.api.before(i));
    s.(w := Interfere(s.w, c.api.before(i)))
  }

  /** A fresh start pays with a slot once the Job exists, even if a later patch failed. */
  function SlotsSpent(ns: NodeStatus, m: Move): nat {
    if ns.state.Pending? && (m.advanced || m.site.ns.state.Flashing?) then 1 else 0
  }

  /** One turn of the advance loop, after whatever happened since the previous one. */
  function Turn(s0: Pass, i: nat, c: Ctx): (t: Pass)
    requires Sane(s0) && i < |s0.states|
    ensures Sane(t) && |t.states| == |s0.states|
  {
    var s, ns := Disturbed(s0, i, c), s0.states[i];
    if !Takes(ns, s.capacity) || ns.name !in s.local then s
    else
      var m := AdvanceNode(SiteOf(s, ns, c), PodsToDrain(s.w, ns.name, c), c);
      var t := PutBack(s, m.site, c);
      t.(states := t.states[i := m.site.ns], capacity := t.capacity - SlotsSpent(ns, m))
  }

  /** The pass after the first `k` turns. */
  function Turns(s0: Pass, k: nat, c: Ctx): (s: Pass)
    requires Sane(s0) && k <= |s0.states|
    ensures Sane(s) && |s.states| == |s0.states|
  {
    if k == 0 then s0 else Turn(Turns(s0, k - 1, c), k - 1, c)
  }

  lemma InterfereKeeps(w: World, es: seq<Interference>)
    ensures var w' := Interfere(w, es);
            && w'.nodes == w.nodes && w'.evicted == w.evicted && w'.status == w.status && w'.log == w.log
            && w'.jobs.Keys == w.jobs.Keys
  {
  }

  function Begin(w: World, c: Ctx): (s: Pass)
    ensures Sane(s)
  {
    var mine := Partition(w, c, c.api.order, true);
    var counted := Interfere(w, c.api.beforeCount);
    InterfereKeeps(w, c.api.beforeCount);
    Pass(counted, map n | n in mine && n in w.nodes :: w.nodes[n], ObserveAll(w, c),
         MaxParallel(c.spec) - InFlight(counted.jobs, c.cr))
  }

  predicate Halted(w: World, c: Ctx) { HaltsOnFailure(c.spec) && AnyFailed(ObserveAll(w, c)) }

  function Advanced(w: World, c: Ctx): (s: Pass)
    ensures Sane(s)
  {
    var s := Begin(w, c);
    if !Acts(c) || Halted(w, c) then s else Turns(s, |s.states|, c)
  }

  // ---- Publishing -------------------------------------------------------------------

  /** Why a node that is merely waiting was not advanced; an existing reason stays. */
  function Explain(ns: NodeStatus, c: Ctx, halted: bool): NodeStatus {
    if !ns.state.Pending? || ns.reason != NoReason then ns
    else if !AutoUpgrades(c.spec) then ns.(reason := AutoUpgradeDisabled, message := AutoUpgradeOffMessage)
    else if c.spec.paused then ns.(reason := Paused, message := PausedMessage)
    else if halted then ns.(reason := RolloutHalted, message := HaltedMessage)
    else ns
  }

  function Find(states: seq<NodeStatus>, name: string): Option<NodeStatus> {
    if states == [] then None
    else if states[|states| - 1].name == name then Some(states[|states| - 1])
    else Find(states[..|states| - 1], name)
  }

  /** Same (state, reason) as last published: keep the old transition time. */
  predicate Unmoved(ns: NodeStatus, prev: Option<NodeStatus>) {
    prev.Some? && prev.value.state == ns.state && prev.value.reason == ns.reason
  }

  function Stamped(ns: NodeStatus, prev: Option<NodeStatus>, now: int): NodeStatus {
    ns.(since := if Unmoved(ns, prev) then prev.value.since else now)
  }

  datatype Announcement = Announcement(node: string, state: NodeState, reason: Reason, message: Message, warning: bool)

  predicate IsWarning(state: NodeState, reason: Reason) {
    || state.Failed?
    || reason in {FlashJobFailed, FlasherImagePullFailed, DrainTimedOut, EvictionBlocked, NodeConflict, ExternalCordon}
  }

  function Announce(ns: NodeStatus, prev: Option<NodeStatus>): seq<Announcement> {
    if Unmoved(ns, prev) || ns.reason == NoReason then []
    else [Announcement(ns.name, ns.state, ns.reason, ns.message, IsWarning(ns.state, ns.reason))]
  }

  function Announcements(states: seq<NodeStatus>, prev: seq<NodeStatus>): seq<Announcement> {
    if states == [] then []
    else
      var ns := states[|states| - 1];
      Announcements(states[..|states| - 1], prev) + Announce(ns, Find(prev, ns.name))
  }

  function StateName(st: NodeState): string {
    match st
    case Pending => "Pending"
    case Cordoning => "Cordoning"
    case Draining => "Draining"
    case Flashing => "Flashing"
    case Uncordoning => "Uncordoning"
    case Done => "Done"
    case Failed => "Failed"
  }

  function PatchIf(site: Site, needed: bool, e: Edit, kind: Write, c: Ctx): Site {
    if needed then PatchMove(site, e, kind, c).site else site
  }

  /** Best-effort node labels and annotations that mirror one node's published state. */
  function TidySite(site: Site, c: Ctx): Site {
    var want, back := StateName(site.ns.state), Readback(c.spec);
    var s1 := PatchIf(site, Get(site.mine.labels, UpgradeState) != want, SetLabel(UpgradeState, want), StateLabel, c);
    if !site.ns.state.Done? then s1
    else
      var s2 := PatchIf(s1, s1.mine.currentVersion != back, NoteVersion(back), VersionNote, c);
      PatchIf(s2, Get(s2.mine.labels, FWVersion) != back, SetLabel(FWVersion, back), VersionLabel, c)
  }

  function Tidy(s: Pass, ns: NodeStatus, c: Ctx): (t: Pass)
    requires Sane(s)
    ensures Sane(t)
  {
    if ns.name in s.local then PutBack(s, TidySite(SiteOf(s, ns, c), c), c) else s
  }

  function TidyAll(s: Pass, states: seq<NodeStatus>, c: Ctx): (r: Pass)
    requires Sane(s)
    ensures Sane(r)
  {
    if states == [] then s else Tidy(TidyAll(s, states[..|states| - 1], c), states[|states| - 1], c)
  }

  datatype Summary = Summary(matched: nat, upToDate: nat, inProgress: nat, failed: nat, pending: nat)

  function Counted(t: Summary, st: NodeState): Summary {
    var s := t.(matched := t.matched + 1);
    if st.Done? then s.(upToDate := s.upToDate + 1)
    else if st.Failed? then s.(failed := s.failed + 1)
    else if IsInFlight(st) then s.(inProgress := s.inProgress + 1)
    else s.(pending := s.pending + 1)
  }

  function Summarize(states: seq<NodeStatus>): Summary {
    if states == [] then Summary(0, 0, 0, 0, 0)
    else Counted(Summarize(states[..|states| - 1]), states[|states| - 1].state)
  }

  // Go compares strings byte by byte.
  predicate NameBefore(a: string, b: string) {
    b != [] && (a == [] || a[0] < b[0] || (a[0] == b[0] && NameBefore(a[1..], b[1..])))
  }

  function InsertByName(sorted: seq<NodeStatus>, ns: NodeStatus): seq<NodeStatus> {
    if sorted == [] || !NameBefore(ns.name, sorted[|sorted| - 1].name) then sorted + [ns]
    else InsertByName(sorted[..|sorted| - 1], ns) + [sorted[|sorted| - 1]]
  }

  function SortByName(states: seq<NodeStatus>): seq<NodeStatus> {
    if states == [] then [] else InsertByName(SortByName(states[..|states| - 1]), states[|states| - 1])
  }

  /** What a reconcile leaves behind: the cluster, the states and summary it computed, its events. */
  datatype Report = Report(
    w: World, states: seq<NodeStatus>, summary: Summary, events: seq<Announcement>, completed: bool, requeue: bool)

  function Published(w: World, cr: string): seq<NodeStatus> {
    if cr in w.status then w.status[cr] else []
  }

  function Explained(states: seq<NodeStatus>, c: Ctx, halted: bool): seq<NodeStatus> {
    seq(|states|, i requires 0 <= i < |states| => Explain(states[i], c, halted))
  }

  function StampedAll(states: seq<NodeStatus>, prev: seq<NodeStatus>, now: int): seq<NodeStatus> {
    seq(|states|, i requires 0 <= i < |states| => Stamped(states[i], Find(prev, states[i].name), now))
  }

  /** The per-node states a reconcile settles on, before sorting. */
  function Settled(w: World, c: Ctx): seq<NodeStatus> {
    StampedAll(Explained(Advanced(w, c).states, c, Halted(w, c)), Published(w, c.cr), c.now)
  }

  predicate Lists(w: World, c: Ctx) { c.api.nodesListed && WellFormed(c.spec.selector) && c.api.jobsListed }

  function Reconcile(w: World, c: Ctx): Report {
    if !Lists(w, c) then
      var w' := if c.api.nodesListed && WellFormed(c.spec.selector) then Interfere(w, c.api.beforeCount) else w;
      Report(w', [], Summary(0, 0, 0, 0, 0), [], false, true)
    else
      var states := Settled(w, c);
      var tidied := TidyAll(Advanced(w, c), states, c);
      var summary := Summarize(states);
      var w' := if c.api.statusWritten
                then tidied.w.(status := tidied.w.status[c.cr := SortByName(states)]) else tidied.w;
      Report(w', SortByName(states), summary,
             Announcements(Explained(Advanced(w, c).states, c, Halted(w, c)), Published(w, c.cr)),
             c.api.statusWritten, !c.api.statusWritten || summary.inProgress > 0 || summary.pending > 0)
  }
}
