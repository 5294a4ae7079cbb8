/** The builder's start-up script, statement by statement. Its control flow is proved to be the one the
    end-to-end protocol assumes: every run of it is a run of `DriverRollout`. */
module BuilderScript {
  import opened Kube
  import opened DriverRollout

  /** What happens around the script: the reference counts it will read and the luck of each command. */
  datatype Surroundings = Surroundings(force: bool, counts: nat -> nat, luck: nat -> Luck)

  // ---- Single commands as protocol steps --------------------------------------------

  /** A reading of the reference count moves the script on and changes nothing else. */
  lemma ReadingIsAStep(s: System, force: bool, l: Luck)
    requires s.pod.Some? && ReadsRefcnt(s.pod.value.place)
    ensures Script(s, force, l) ==
            s.(pod := Some(s.pod.value.(place := NextPlace(s, s.pod.value, force, l))), lastRead := Some(Refcnt(s)))
  {
    hide NextPlace, Refcnt;
  }

  lemma FirstReading(s: System, b: Builder, force: bool, l: Luck)
    requires b.place.Mismatch?
    ensures NextPlace(s, b, force, l) ==
            if Refcnt(s) == 0 then Unload else if force && l.holders then Killing(0) else Exited
  {
  }

  lemma PollReading(s: System, b: Builder, force: bool, l: Luck)
    requires b.place.Killing?
    ensures NextPlace(s, b, force, l) ==
            if Refcnt(s) == 0 || b.place.tries + 1 >= KILL_TRIES then LastLook else Killing(b.place.tries + 1)
  {
  }

  lemma LastReading(s: System, b: Builder, force: bool, l: Luck)
    requires b.place.LastLook?
    ensures NextPlace(s, b, force, l) == if Refcnt(s) == 0 then Unload else Exited
  {
  }

  class Host {
    const expected: string
    var loaded: Option<string>
    var refcnt: nat
    var dkmsTree: bool              // /var/lib/dkms/tenstorrent is there
    var dkmsConfs: seq<bool>        // for each /usr/src/tenstorrent-*: does it hold a dkms.conf?
    var marker: bool
    ghost var byHost: bool          // the mode the script is in
    ghost var rest: System          // what the script cannot reach, and what it has read
    ghost var place: Place
    ghost const origin: System
    ghost var events: seq<Event>

    /** Either sign of a DKMS-managed module is enough. */
    function HostInstall(): bool
      reads this
    {
      dkmsTree || true in dkmsConfs
    }

    ghost function Marker(): Sign
      reads this
    {
      if !marker then Absent else if byHost then OfHost else OfModule
    }

    ghost function S(): System
      reads this
    {
      rest.(loaded := loaded, refcnt := refcnt, hostInstall := HostInstall(),
            pod := Some(Builder(expected, place, Marker(), Absent)))
    }

    /** Everything so far is a run of the protocol. */
    ghost predicate Valid()
      reads this
    {
      S() == Run(origin, events)
    }

    /** Commands only add to the run, and none but the last touches the marker. */
    ghost predicate Onwards(earlier: seq<Event>)
      reads this
    {
      earlier <= events && !marker
    }

    /** A container that has just started on a node. */
    constructor (s: System, tree: bool, confs: seq<bool>)
      requires s.pod.Some? && s.pod.value == Builder(s.pod.value.version, Start, Absent, Absent)
      requires s.hostInstall == (tree || true in confs)
      ensures Valid() && S() == s && origin == s && events == [] && place == Start && expected == s.pod.value.version
    {
      expected := s.pod.value.version;
      loaded, refcnt, dkmsTree, dkmsConfs, marker := s.loaded, s.refcnt, tree, confs, false;
      byHost, rest, place, origin, events := false, s, Start, s, [];
    }

    // ---- Commands -------------------------------------------------------------------

    ghost method Note(before: System, e: Event)
      requires before == Run(origin, events) && S() == Next(before, e)
      modifies `events
      ensures Valid() && events == old(events) + [e]
    {
      hide Next, Run;
      Push(origin, events, e);
      events := events + [e];
    }

    /** The two signs of a host install, the stronger one first; the sources are looked at one by one. */
    method LookForDkms() returns (found: bool)
      ensures found == HostInstall()
    {
      if dkmsTree { return true; }
      for i := 0 to |dkmsConfs|
        invariant true !in dkmsConfs[..i]
      {
        if dkmsConfs[i] { return true; }
      }
      return false;
    }

    /** DKMS state of the host decides who manages the module. */
    method HostInstallDetected(a: Surroundings, l: Luck) returns (found: bool)
      requires Valid() && place == Start && expected != "" && !marker
      modifies `byHost, `place, `events
      ensures Valid() && Onwards(old(events)) && place == (if found then Finish(true) else NoHost)
      ensures found == (old(dkmsTree) || true in old(dkmsConfs)) && byHost == found
    {
      hide Run;
      ghost var before := S();
      found := LookForDkms();
      byHost := found;
      place := if found then Finish(true) else NoHost;
      Note(before, ScriptRuns(a.force, l));
    }

    /** Reads the version the kernel reports, empty without a module. */
    method ReadVersion(a: Surroundings, l: Luck) returns (v: string)
      requires Valid() && (place == NoHost || place == Verify) && !marker
      modifies `place, `events
      ensures Valid() && Onwards(old(events)) && v == if loaded.Some? then loaded.value else ""
      ensures old(place) == NoHost ==>
                place == if v == expected then Finish(false) else if v != "" then Mismatch else Build
      ensures old(place) == Verify ==> place == if v == expected then Finish(false) else Exited
    {
      hide Run;
      ghost var before := S();
      v := if loaded.Some? then loaded.value else "";
      place := NextPlace(before, before.pod.value, a.force, l);
      Note(before, ScriptRuns(a.force, l));
    }

    /** The count moves as processes open and close the device. */
    method CountMoves(count: nat)
      requires Valid() && !marker
      modifies `refcnt, `events
      ensures Valid() && Onwards(old(events)) && refcnt == count
    {
      hide Run;
      ghost var before := S();
      refcnt := count;
      Note(before, RefcntMoves(count));
    }

    /** Reads the count as it stands. */
    method CatRefcnt(a: Surroundings, l: Luck) returns (n: nat)
      requires Valid() && ReadsRefcnt(place) && !marker
      modifies `rest, `place, `events
      ensures Valid() && Onwards(old(events)) && rest.lastRead == Some(n)
      ensures n == (if loaded.Some? then refcnt else 0) == Refcnt(old(S()))
      ensures place == NextPlace(old(S()), old(S()).pod.value, a.force, l)
    {
      hide NextPlace, Script, ReadsRefcnt, Run;
      ghost var before := S();
      ReadingIsAStep(before, a.force, l);
      n := if loaded.Some? then refcnt else 0;
      rest := rest.(lastRead := Some(n));
      place := NextPlace(before, before.pod.value, a.force, l);
      Note(before, ScriptRuns(a.force, l));
    }

    /** Reads the reference count, which may have moved since anybody last looked. */
    method ReadCount(a: Surroundings, count: nat, l: Luck) returns (n: nat)
      requires Valid() && ReadsRefcnt(place) && !marker
      modifies `refcnt, `rest, `place, `events
      ensures Valid() && Onwards(old(events)) && rest.lastRead == Some(n)
      ensures refcnt == count && n == if loaded.Some? then count else 0
      ensures old(place).Mismatch? ==>
                place == if n == 0 then Unload else if a.force && l.holders then Killing(0) else Exited
      ensures old(place).Killing? ==>
                place == if n == 0 || old(place).tries + 1 >= KILL_TRIES then LastLook
                      else Killing(old(place).tries + 1)
      ensures old(place).LastLook? ==> place == if n == 0 then Unload else Exited
    {
      hide NextPlace, Valid, Refcnt;
      CountMoves(count);
      ghost var s := S();
      n := CatRefcnt(a, l);
      if s.pod.value.place.Mismatch? {
        FirstReading(s, s.pod.value, a.force, l);
      } else if s.pod.value.place.Killing? {
        PollReading(s, s.pod.value, a.force, l);
      } else {
        LastReading(s, s.pod.value, a.force, l);
      }
    }

    /** `rmmod`: refused while somebody holds the device, and then the module stays. */
    method Rmmod(a: Surroundings, l: Luck) returns (ok: bool)
      requires Valid() && place == Unload && !marker && rest.lastRead == Some(0)
      modifies `loaded, `place, `events
      ensures Valid() && Onwards(old(events)) && place == (if ok then Build else Exited)
      ensures ok == (old(loaded).Some? && refcnt == 0 && l.ok)
      ensures loaded == if ok then None else old(loaded)
    {
      hide Run;
      ghost var before := S();
      ok := loaded.Some? && refcnt == 0 && l.ok;
      if ok { loaded := None; }
      place := if ok then Build else Exited;
      Note(before, ScriptRuns(a.force, l));
    }

    /** Kernel headers, then the cached module or clone and make. */
    method BuildModule(a: Surroundings, l: Luck) returns (ok: bool)
      requires Valid() && place == Build && !marker
      modifies `place, `events
      ensures Valid() && Onwards(old(events)) && place == (if ok then Load else Exited)
      ensures ok == l.ok
    {
      hide Run;
      ghost var before := S();
      ok := l.ok;
      place := if ok then Load else Exited;
      Note(before, ScriptRuns(a.force, l));
    }

    /** `insmod`: whatever version the built module turns out to be. */
    method Insmod(a: Surroundings, l: Luck) returns (ok: bool)
      requires Valid() && place == Load && !marker
      modifies `loaded, `refcnt, `place, `events
      ensures Valid() && Onwards(old(events)) && place == (if ok then Verify else Exited)
      ensures ok == (old(loaded).None? && l.ok)
      ensures if ok then loaded == Some(l.built) && refcnt == 0 else loaded == old(loaded) && refcnt == old(refcnt)
    {
      hide Run;
      ghost var before := S();
      ok := loaded.None? && l.ok;
      if ok { loaded, refcnt := Some(l.built), 0; }
      place := if ok then Verify else Exited;
      Note(before, ScriptRuns(a.force, l));
    }

    /** Labels, host files, and at last the marker the readiness probe looks for. */
    method TouchReady(a: Surroundings, l: Luck) returns (ok: bool)
      requires Valid() && place == Finish(byHost) && !marker
      modifies `marker, `place, `events
      ensures Valid() && old(events) <= events && marker == ok && place == (if ok then Idle else Exited)
      ensures ok == l.ok
    {
      hide Run;
      ghost var before := S();
      ok := l.ok;
      marker := ok;
      place := if ok then Idle else Exited;
      Note(before, ScriptRuns(a.force, l));
    }

    /** A container without TT_KMD_VERSION stops at once. */
    method RefuseEmpty(a: Surroundings, l: Luck)
      requires Valid() && place == Start && expected == "" && !marker
      modifies `place, `events
      ensures Valid() && Onwards(old(events)) && place == Exited
    {
      hide Run;
      ghost var before := S();
      place := Exited;
      Note(before, ScriptRuns(a.force, l));
    }

    // ---- The script -----------------------------------------------------------------

    /** After the kill: at most ten readings, one second apart, until nobody holds the device. */
    method PollUntilFree(a: Surroundings)
      requires Valid() && place == Killing(0) && !marker
      modifies `refcnt, `rest, `place, `events
      ensures Valid() && Onwards(old(events)) && place == LastLook
    {
      hide Valid;
      var tries := 0;
      var gone := false;
      while tries < KILL_TRIES && !gone
        invariant Valid() && Onwards(old(events)) && tries <= KILL_TRIES
        invariant place == if gone || tries == KILL_TRIES then LastLook else Killing(tries)
      {
        var n := ReadCount(a, a.counts(1 + tries), a.luck(3));
        gone := n == 0;
        tries := tries + 1;
      }
    }

    /** Nobody holds the device: at the first look, or, where force may kill visible holders, at the last. */
    static predicate Frees(a: Surroundings) {
      a.counts(0) == 0 || (a.force && a.luck(2).holders && a.counts(1 + KILL_TRIES) == 0)
    }

    /** Unloads a module of another version once nobody holds it; with force, kills the holders and polls. */
    method UnloadOther(a: Surroundings) returns (ok: bool)
      requires Valid() && place == Mismatch && !marker
      modifies `loaded, `refcnt, `rest, `place, `events
      ensures Valid() && Onwards(old(events)) && place == (if ok then Build else Exited)
      ensures ok ==> loaded.None? && rest.lastRead == Some(0)
      ensures !ok ==> loaded == old(loaded)
      ensures old(loaded).Some? ==> (ok <==> Frees(a) && a.luck(5).ok)
      ensures old(loaded).None? ==> !ok
    {
      hide Valid;
      var n := ReadCount(a, a.counts(0), a.luck(2));
      if n > 0 {
        if !a.force { return false; }
        if !a.luck(2).holders { return false; }
        PollUntilFree(a);
        n := ReadCount(a, a.counts(1 + KILL_TRIES), a.luck(4));
        if n > 0 { return false; }
      }
      ok := Rmmod(a, a.luck(5));
    }

    /** Builds or reuses the module, loads it, and checks what the kernel reports. */
    method BuildAndLoad(a: Surroundings) returns (ok: bool)
      requires Valid() && place == Build && !marker && expected != ""
      modifies `loaded, `refcnt, `place, `events
      ensures Valid() && Onwards(old(events)) && place == (if ok then Finish(false) else Exited)
      ensures ok ==> loaded == Some(expected)
      ensures ok <==> old(loaded).None? && a.luck(6).ok && a.luck(7).ok && a.luck(7).built == expected
    {
      hide Valid;
      var built := BuildModule(a, a.luck(6));
      if !built { return false; }
      var inserted := Insmod(a, a.luck(7));
      if !inserted { return false; }
      var v := ReadVersion(a, a.luck(8));
      ok := v == expected;
    }

    /** No module is in the way, or the one that is gets unloaded. */
    static predicate Clears(loaded: Option<string>, a: Surroundings) {
      loaded.Some? ==> loaded.value != "" && Frees(a) && a.luck(5).ok
    }

    /** The whole script. It ends in the idle state with the marker set, or exits without one; ready means that
        the kernel reports the expected version or that the host manages the module. */
    method Entrypoint(a: Surroundings) returns (ok: bool)
      requires Valid() && place == Start && !marker
      modifies this
      ensures Valid() && old(events) <= events
      ensures place == (if ok then Idle else Exited) && marker == ok
      ensures ok ==> Marker() == if old(HostInstall()) then OfHost else OfModule
      ensures ok && !old(HostInstall()) ==> loaded == Some(expected)
      ensures ok && old(HostInstall()) ==> loaded == old(loaded)
      ensures ok <==>
                && expected != "" && a.luck(9).ok
                && (old(HostInstall()) || old(loaded) == Some(expected)
                    || (Clears(old(loaded), a) && a.luck(6).ok && a.luck(7).ok && a.luck(7).built == expected))
    {
      hide Valid;
      if expected == "" {
        RefuseEmpty(a, a.luck(0));
        return false;
      }
      var found := HostInstallDetected(a, a.luck(0));
      if !found {
        var v := ReadVersion(a, a.luck(1));
        if v != expected {
          if v != "" {
            var unloaded := UnloadOther(a);
            if !unloaded { return false; }
          }
          var loadedNow := BuildAndLoad(a);
          if !loadedNow { return false; }
        }
      }
      ok := TouchReady(a, a.luck(9));
    }
  }
}
