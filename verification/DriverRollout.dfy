/** A driver upgrade on one node, end to end: the controller's cordon, the DaemonSet's roll, the builder's
    start-up script, the readiness probe and the uncordon, interleaved with everything else in any order. */
module DriverRollout {
  import opened Kube

  /** Where the builder's start-up script stands. */
  datatype Place =
    | Start                  // looks for a host install
    | NoHost                 // reads the loaded version
    | Mismatch               // reads the reference count
    | Killing(tries: nat)    // holders were killed; polls the count
    | LastLook               // reads the count once more
    | Unload                 // rmmod is next
    | Build                  // headers, cache or clone and make
    | Load                   // insmod is next
    | Verify                 // reads the loaded version back
    | Finish(host: bool)     // labels and host files, then the ready marker
    | Idle                   // sleeps for good
    | Exited

  const KILL_TRIES := 10

  /** Whether something says ready, and in which mode the script was that set it. The marker file and the
      condition do not tell the modes apart; the model remembers. */
  datatype Sign = Absent | OfModule | OfHost

  /** `marker` is the file the probe looks for, `ready` the condition the probe last reported. */
  datatype Builder = Builder(version: string, place: Place, marker: Sign, ready: Sign)

  /** Where the controller stands in a reconcile at some spec.version. */
  datatype Phase =
    | Resting
    | Working(version: string, paused: bool)
    | Rolled(version: string)
    | SawReady(version: string, host: bool)

  datatype System = System(
    loaded: Option<string>,    // the kernel module and the version it reports
    refcnt: nat,
    hostInstall: bool,         // evidence of a host-side install
    lastRead: Option<nat>,     // what the running script last read as reference count
    pod: Option<Builder>,
    template: Option<string>,  // the DaemonSet's TT_KMD_VERSION
    cordoned: bool,            // by this policy
    ctl: Phase)

  function LoadedVersion(s: System): string {
    if s.loaded.Some? then s.loaded.value else ""
  }

  function Refcnt(s: System): nat {
    if s.loaded.Some? then s.refcnt else 0
  }

  /** What the script cannot know in advance: visible holders, whether its next command succeeds,
      and the version the built module will report. */
  datatype Luck = Luck(holders: bool, ok: bool, built: string)

  /** Where the script goes next; `set -e` makes every failed command the last. */
  function NextPlace(s: System, b: Builder, force: bool, l: Luck): Place {
    match b.place
    case Start => if b.version == "" then Exited else if s.hostInstall then Finish(true) else NoHost
    case NoHost =>
      if LoadedVersion(s) == b.version then Finish(false) else if LoadedVersion(s) != "" then Mismatch else Build
    case Mismatch => if Refcnt(s) == 0 then Unload else if force && l.holders then Killing(0) else Exited
    case Killing(k) => if Refcnt(s) == 0 || k + 1 >= KILL_TRIES then LastLook else Killing(k + 1)
    case LastLook => if Refcnt(s) == 0 then Unload else Exited
    case Unload => if Removes(s, b, l) then Build else Exited
    case Build => if l.ok then Load else Exited
    case Load => if Inserts(s, b, l) then Verify else Exited
    case Verify => if LoadedVersion(s) == b.version then Finish(false) else Exited
    case Finish(_) => if l.ok then Idle else Exited
    case Idle => Idle
    case Exited => Exited
  }

  /** rmmod succeeds on a loaded module nobody holds. */
  predicate Removes(s: System, b: Builder, l: Luck) {
    b.place.Unload? && s.loaded.Some? && s.refcnt == 0 && l.ok
  }

  /** insmod succeeds when no such module is loaded. */
  predicate Inserts(s: System, b: Builder, l: Luck) {
    b.place.Load? && s.loaded.None? && l.ok
  }

  predicate ReadsRefcnt(p: Place) { p.Mismatch? || p.Killing? || p.LastLook? }

  function NextMarker(b: Builder, l: Luck): Sign {
    if b.place.Finish? && l.ok then (if b.place.host then OfHost else OfModule) else b.marker
  }

  /** The script's next command. */
  function Script(s: System, force: bool, l: Luck): System
    requires s.pod.Some?
  {
    var b := s.pod.value;
    s.(pod := Some(b.(place := NextPlace(s, b, force, l), marker := NextMarker(b, l))),
       loaded := if Removes(s, b, l) then None else if Inserts(s, b, l) then Some(l.built) else s.loaded,
       refcnt := if Inserts(s, b, l) then 0 else s.refcnt,
       lastRead := if ReadsRefcnt(b.place) then Some(Refcnt(s)) else s.lastRead)
  }

  datatype Event =
    // the builder's container and its pod
    | ScriptRuns(force: bool, luck: Luck)
    | ContainerRestarts
    | Probed
    | ConditionLost
    | PodDeleted
    | PodCreated
    // the node
    | RefcntMoves(refcnt: nat)
    | HostInstallMoves(present: bool)
    // the controller
    | ReconcileStarts(version: string, paused: bool)
    | Prepares(cordonLands: bool)
    | Rolls
    | Observes
    | Uncordons
    | ReconcileFails

  function Next(s: System, e: Event): System {
    match e
    case ScriptRuns(force, luck) => if s.pod.Some? then Script(s, force, luck) else s
    case ContainerRestarts =>
      if s.pod.None? then s else s.(pod := Some(s.pod.value.(place := Start, marker := Absent)), lastRead := None)
    case Probed => if s.pod.None? then s else s.(pod := Some(s.pod.value.(ready := s.pod.value.marker)))
    case ConditionLost => if s.pod.None? then s else s.(pod := Some(s.pod.value.(ready := Absent)))
    case PodDeleted => s.(pod := None, lastRead := None)
    case PodCreated =>
      if s.pod.Some? || s.template.None? then s
      else s.(pod := Some(Builder(s.template.value, Start, Absent, Absent)), lastRead := None)
    case RefcntMoves(n) => s.(refcnt := n)
    case HostInstallMoves(b) => s.(hostInstall := b)
    case ReconcileStarts(v, paused) => if s.ctl.Resting? then s.(ctl := Working(v, paused)) else s
    case Prepares(lands) =>
      // before the template of an existing DaemonSet changes, the node is cordoned and drained
      if s.ctl.Working? && !s.ctl.paused && s.template.Some? && lands then s.(cordoned := true) else s
    case Rolls =>
      if !s.ctl.Working? then s
      else if !s.ctl.paused then s.(template := Some(s.ctl.version), ctl := Rolled(s.ctl.version))
      else if s.template.None? then s.(ctl := Resting)
      else s.(ctl := Rolled(s.ctl.version))
    case Observes =>
      if !s.ctl.Rolled? then s
      else if s.cordoned && s.pod.Some? && s.pod.value.version == s.ctl.version && s.pod.value.ready != Absent
      then s.(ctl := SawReady(s.ctl.version, s.pod.value.ready.OfHost?)) else s.(ctl := Resting)
    case Uncordons => if s.ctl.SawReady? then s.(cordoned := false, ctl := Resting) else s
    case ReconcileFails => s.(ctl := Resting)
  }

  function Run(s: System, es: seq<Event>): System {
    if es == [] then s else Next(Run(s, es[..|es| - 1]), es[|es| - 1])
  }

  // ---- The invariant ----------------------------------------------------------------

  /** A builder at these points is replacing a module of another version. */
  predicate Replacing(p: Place) {
    p.Mismatch? || p.Killing? || p.LastLook? || p.Unload? || p.Build? || p.Load?
  }

  /** A builder that says, or is about to say, that it manages the module has its version loaded. */
  predicate ReadyTrue(s: System, b: Builder) {
    b.ready.OfModule? || b.marker.OfModule? || b.place == Finish(false) ==> s.loaded == Some(b.version)
  }

  /** A replacing builder has a version to install, and it is not the loaded one; it unloads at zero references. */
  predicate ReplacingTrue(s: System, b: Builder) {
    && (Replacing(b.place) ==> s.loaded != Some(b.version))
    && (b.place.Unload? ==> s.lastRead == Some(0))
    && (!b.place.Start? && !b.place.Exited? ==> b.version != "")
  }

  predicate BuilderTrue(s: System) {
    s.pod.Some? ==> ReadyTrue(s, s.pod.value) && ReplacingTrue(s, s.pod.value)
  }

  /** While the controller holds a Ready observation that is not host-managed, of the version its template has,
      that version stays loaded. */
  predicate ObservationTrue(s: System) {
    s.ctl.SawReady? && !s.ctl.host && s.template == Some(s.ctl.version) ==>
      s.loaded == Some(s.ctl.version) && (s.pod.Some? ==> s.pod.value.version == s.ctl.version)
  }

  predicate Inv(s: System) { BuilderTrue(s) && ObservationTrue(s) }

  lemma LoadedVersionMeans(s: System)
    ensures forall v | v != "" :: LoadedVersion(s) == v <==> s.loaded == Some(v)
    ensures s.loaded.None? ==> LoadedVersion(s) == ""
  {
  }

  lemma ScriptKeepsReady(s: System, force: bool, l: Luck)
    requires s.pod.Some? && BuilderTrue(s)
    ensures var t := Script(s, force, l); t.pod.Some? && ReadyTrue(t, t.pod.value)
  {
    hide Refcnt, LoadedVersion;
    LoadedVersionMeans(s);
    ScriptKeepsLoaded(s, force, l);
  }

  lemma ScriptKeepsReplacing(s: System, force: bool, l: Luck)
    requires s.pod.Some? && BuilderTrue(s)
    ensures var t := Script(s, force, l); t.pod.Some? && ReplacingTrue(t, t.pod.value)
  {
    hide LoadedVersion, ReadyTrue;
    LoadedVersionMeans(s);
  }

  /** Nothing a builder vouches for is undone: only one replacing another version touches the module. */
  lemma ScriptKeepsLoaded(s: System, force: bool, l: Luck)
    requires s.pod.Some? && BuilderTrue(s)
    ensures var t, v := Script(s, force, l), s.pod.value.version;
            && t.pod.Some? && t.pod.value.version == v && t.ctl == s.ctl && t.template == s.template
            && (s.loaded == Some(v) ==> t.loaded == Some(v))
  {
    hide NextPlace;
  }

  lemma ScriptKeeps(s: System, force: bool, l: Luck)
    requires s.pod.Some? && Inv(s)
    ensures Inv(Script(s, force, l))
  {
    hide Script, ReadyTrue, ReplacingTrue;
    ScriptKeepsReady(s, force, l);
    ScriptKeepsReplacing(s, force, l);
    ScriptKeepsLoaded(s, force, l);
  }

  lemma NextKeeps(s: System, e: Event)
    requires Inv(s)
    ensures Inv(Next(s, e))
  {
    hide Script;
    match e
    case ScriptRuns(force, luck) => if s.pod.Some? { ScriptKeeps(s, force, luck); }
    case _ =>
  }

  /** Before the policy's first reconcile: no builder, no DaemonSet; the module may be anything. */
  predicate Untouched(s: System) { s.pod.None? && s.template.None? && s.ctl.Resting? }

  lemma {:induction false} AlwaysInv(s: System, es: seq<Event>)
    requires Untouched(s)
    ensures Inv(Run(s, es))
  {
    hide Next;
    if es != [] {
      AlwaysInv(s, es[..|es| - 1]);
      NextKeeps(Run(s, es[..|es| - 1]), es[|es| - 1]);
    }
  }

  // ---- What it buys -----------------------------------------------------------------

  /** In any run: a builder at the target that is Ready and did not become so in host-managed mode is observed only
      while the kernel reports that version; and unless the policy is paused with its template behind its spec,
      the kernel still does when the cordon is lifted, however long the patch takes. */
  lemma CordonLiftedOnlyWhenLoaded(s0: System, es: seq<Event>, v: string)
    requires Untouched(s0)
    ensures var s := Run(s0, es);
            && (s.ctl.Rolled? && Next(s, Observes).ctl == SawReady(v, false) ==> s.loaded == Some(v))
            && (s.ctl == SawReady(v, false) && s.template == Some(v) ==> s.loaded == Some(v))
  {
    AlwaysInv(s0, es);
  }

  /** A builder that speaks for a host-managed node. */
  predicate SpeaksForHost(s: System) {
    s.pod.Some? && (s.pod.value.ready.OfHost? || s.pod.value.marker.OfHost? || s.pod.value.place == Finish(true))
  }

  lemma SpeakingStep(s: System, e: Event)
    requires SpeaksForHost(Next(s, e))
    ensures (SpeaksForHost(s) && e != PodDeleted) || (e.ScriptRuns? && s.hostInstall)
  {
  }

  lemma UntouchedIsSilent(s: System)
    requires Untouched(s)
    ensures !SpeaksForHost(s)
  {
  }

  /** In any run: a builder Ready in host-managed mode is one whose own script found the host install, at a step
      since which that pod has not been deleted. */
  lemma {:induction false} HostWasFound(s0: System, es: seq<Event>) returns (i: nat)
    requires Untouched(s0) && SpeaksForHost(Run(s0, es))
    ensures i < |es| && es[i].ScriptRuns? && Run(s0, es[..i]).hostInstall
    ensures forall k | i <= k < |es| :: es[k] != PodDeleted
  {
    hide Next, SpeaksForHost;
    UntouchedIsSilent(s0);
    var shorter, last := es[..|es| - 1], es[|es| - 1];
    SpeakingStep(Run(s0, shorter), last);
    if SpeaksForHost(Run(s0, shorter)) && last != PodDeleted {
      i := HostWasFound(s0, shorter);
      assert es[..i] == shorter[..i];
    } else {
      i := |es| - 1;
    }
  }

  /** In any run rmmod is attempted only when the script's latest reading of the reference count was zero. */
  lemma UnloadsOnlyAtZero(s0: System, es: seq<Event>)
    requires Untouched(s0)
    ensures var s := Run(s0, es);
            s.pod.Some? && s.pod.value.place.Unload? ==>
                  s.lastRead == Some(0) && LoadedVersion(s) != s.pod.value.version
  {
    AlwaysInv(s0, es);
  }

  // ---- A paused policy --------------------------------------------------------------

  lemma Push(s0: System, es: seq<Event>, e: Event)
    ensures Run(s0, es + [e]) == Next(Run(s0, es), e)
  {
    assert (es + [e])[..|es|] == es;
  }

  lemma {:induction false} PushAll(s0: System, es: seq<Event>, more: seq<Event>)
    ensures Run(s0, es + more) == Run(Run(s0, es), more)
  {
    if more == [] {
      assert es + more == es;
    } else {
      var shorter, last := more[..|more| - 1], more[|more| - 1];
      PushAll(s0, es, shorter);
      Push(s0, es + shorter, last);
      assert es + shorter + [last] == es + more;
    }
  }

  /** The script's next command succeeds; a build yields module version `v`. */
  function Go(v: string): Event { ScriptRuns(false, Luck(false, true, v)) }

  function GoThrice(v: string): seq<Event> { [Go(v), Go(v), Go(v)] }

  const BARE := System(None, 0, false, None, None, None, false, Resting)

  function Installed(v: string): System {
    BARE.(template := Some(v), loaded := Some(v), pod := Some(Builder(v, Idle, OfModule, Absent)), ctl := Rolled(v))
  }

  function Behind(v: string, w: string): System {
    Installed(v).(template := Some(w), pod := Some(Builder(v, Idle, OfModule, OfModule)), cordoned := true,
          ctl := SawReady(v, false))
  }

  function Swapped(v: string, w: string): System {
    Behind(v, w).(loaded := None, lastRead := Some(0), pod := Some(Builder(w, Build, Absent, Absent)))
  }

  function FirstRoll(v: string): seq<Event> { [ReconcileStarts(v, false), Rolls, PodCreated] }

  function Bump(w: string): seq<Event> { [Probed, Observes, ReconcileStarts(w, false)] }

  const DRAIN_AND_ROLL: seq<Event> := [Prepares(true), Rolls, Observes]

  function PausedLook(v: string): seq<Event> { [ReconcileStarts(v, true), Rolls, Observes] }

  function Swap(v: string): seq<Event> { [PodDeleted, PodCreated, Go(v)] }

  /** Three script steps of a builder that finds no module. */
  lemma FreshSteps(s: System, v: string)
    requires s.pod == Some(Builder(v, Start, Absent, Absent)) && v != "" && s.loaded.None? && !s.hostInstall
    ensures Run(s, GoThrice(v)) == s.(pod := Some(Builder(v, Load, Absent, Absent)))
  {
    Steps3(s, Go(v), Go(v), Go(v));
  }

  lemma LoadSteps(s: System, v: string)
    requires s.pod == Some(Builder(v, Load, Absent, Absent)) && v != "" && s.loaded.None? && s.refcnt == 0
    ensures Run(s, GoThrice(v)) == s.(loaded := Some(v), pod := Some(Builder(v, Idle, OfModule, Absent)))
  {
    Steps3(s, Go(v), Go(v), Go(v));
  }

  /** Three script steps of a builder that finds another version, unused. */
  lemma UnloadSteps(s: System, v: string, w: string)
    requires s.pod == Some(Builder(w, NoHost, Absent, Absent)) && s.loaded == Some(v) && v != "" && v != w
              && s.refcnt == 0
    ensures Run(s, GoThrice(v)) ==
              s.(loaded := None, lastRead := Some(0), pod := Some(Builder(w, Build, Absent, Absent)))
  {
    Steps3(s, Go(v), Go(v), Go(v));
  }

  lemma Installs(v: string)
    requires v != ""
    ensures Run(BARE, FirstRoll(v) + GoThrice(v) + GoThrice(v)) == Installed(v)
  {
    hide Run, FirstRoll, GoThrice;
    var begun := BARE.(template := Some(v), ctl := Rolled(v), pod := Some(Builder(v, Start, Absent, Absent)));
    InThree(BARE, FirstRoll(v), GoThrice(v), GoThrice(v));
    RollsFirst(v);
    FreshSteps(begun, v);
    LoadSteps(begun.(pod := Some(Builder(v, Load, Absent, Absent))), v);
  }

  lemma RollsFirst(v: string)
    ensures Run(BARE, FirstRoll(v)) ==
              BARE.(template := Some(v), ctl := Rolled(v), pod := Some(Builder(v, Start, Absent, Absent)))
  {
    Steps3(BARE, ReconcileStarts(v, false), Rolls, PodCreated);
  }

  lemma FallsBehind(v: string, w: string)
    requires v != w
    ensures Run(Installed(v), Bump(w) + DRAIN_AND_ROLL + PausedLook(v)) == Behind(v, w)
  {
    InThree(Installed(v), Bump(w), DRAIN_AND_ROLL, PausedLook(v));
    Steps3(Installed(v), Probed, Observes, ReconcileStarts(w, false));
    var probed := Installed(v).(pod := Some(Builder(v, Idle, OfModule, OfModule)), ctl := Working(w, false));
    Steps3(probed, Prepares(true), Rolls, Observes);
    Steps3(probed.(cordoned := true, template := Some(w), ctl := Resting), ReconcileStarts(v, true), Rolls, Observes);
  }

  lemma Swaps(v: string, w: string)
    requires v != w && v != "" && w != ""
    ensures Run(Behind(v, w), Swap(v) + GoThrice(v)) == Swapped(v, w)
  {
    hide GoThrice;
    PushAll(Behind(v, w), Swap(v), GoThrice(v));
    Steps3(Behind(v, w), PodDeleted, PodCreated, Go(v));
    UnloadSteps(Behind(v, w).(pod := Some(Builder(w, NoHost, Absent, Absent))), v, w);
  }

  /** The run that leads there, for any two versions. */
  function PausedRun(v: string, w: string): seq<Event> {
    (FirstRoll(v) + GoThrice(v) + GoThrice(v)) + (Bump(w) + DRAIN_AND_ROLL + PausedLook(v)) + (Swap(v) + GoThrice(v))
  }

  /** A policy paused with its template at `w` and its spec back at `v` sees the old builder Ready; the DaemonSet
      replaces that builder before the uncordon patch, and the cordon is lifted from a node with no module. */
  lemma PausedUncordonRaces(v: string, w: string)
    requires v != w && v != "" && w != ""
    ensures Untouched(BARE)
    ensures var s := Run(BARE, PausedRun(v, w));
            s.ctl == SawReady(v, false) && s.cordoned && s.loaded.None? && !Next(s, Uncordons).cordoned
  {
    hide Run, FirstRoll, GoThrice, Bump, PausedLook, Swap;
    InThree(BARE, FirstRoll(v) + GoThrice(v) + GoThrice(v), Bump(w) + DRAIN_AND_ROLL + PausedLook(v),
          Swap(v) + GoThrice(v));
    Installs(v);
    FallsBehind(v, w);
    Swaps(v, w);
  }

  lemma InThree(s: System, a: seq<Event>, b: seq<Event>, d: seq<Event>)
    ensures Run(s, a + b + d) == Run(Run(Run(s, a), b), d)
  {
    PushAll(s, a + b, d);
    PushAll(s, a, b);
  }

  lemma Steps3(s: System, a: Event, b: Event, d: Event)
    ensures Run(s, [a, b, d]) == Next(Next(Next(s, a), b), d)
  {
    assert [a, b, d][..2] == [a, b] && [a, b][..1] == [a] && [a][..0] == [];
    assert Run(s, [a]) == Next(s, a);
    assert Run(s, [a, b]) == Next(Next(s, a), b);
  }
}
