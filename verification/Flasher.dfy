/** The flasher's decision script: when it skips, when it forces, and what its success is worth. */
module Flasher {
  import opened Kube
  import opened Selector

  // ---- Shell words ------------------------------------------------------------------

  predicate IsBlank(c: char) { c == ' ' || c == '\t' || c == '\n' }

  /** What an unquoted expansion is split into. */
  function Words(s: string): (ws: seq<string>)
    ensures s != "" && !IsBlank(s[|s| - 1]) ==> ws != []
  {
    if s == "" then []
    else
      var rest, c := s[..|s| - 1], s[|s| - 1];
      var ws := Words(rest);
      if IsBlank(c) then ws
      else if rest == "" || IsBlank(rest[|rest| - 1]) then ws + [[c]]
      else ws[..|ws| - 1] + [ws[|ws| - 1] + [c]]
  }

  /** One word: not empty, no blank in it. */
  predicate IsWord(w: string) {
    w != "" && forall i | 0 <= i < |w| :: !IsBlank(w[i])
  }

  /** The versions of all chips on one line, as the readback prints them. */
  function Line(chips: seq<string>): string {
    if chips == [] then ""
    else if |chips| == 1 then chips[0]
    else Line(chips[..|chips| - 1]) + " " + chips[|chips| - 1]
  }

  lemma {:induction false} WordAfterBlank(s: string, w: string)
    requires IsWord(w) && (s == "" || IsBlank(s[|s| - 1]))
    ensures Words(s + w) == Words(s) + [w]
  {
    var c, rest := w[|w| - 1], w[..|w| - 1];
    assert (s + w)[..|s + w| - 1] == s + rest;
    if rest == "" {
      assert s + rest == s && w == [c];
    } else {
      WordAfterBlank(s, rest);
      assert (s + rest)[|s + rest| - 1] == rest[|rest| - 1];
      assert rest + [c] == w;
    }
  }

  lemma BlankEnds(s: string)
    ensures Words(s + " ") == Words(s)
  {
    assert (s + " ")[..|s|] == s;
  }

  lemma LineStep(chips: seq<string>)
    ensures |chips| > 1 ==> Line(chips) == Line(chips[..|chips| - 1]) + " " + chips[|chips| - 1]
    ensures |chips| == 1 ==> Line(chips) == "" + chips[0]
    ensures chips == [] ==> Words(Line(chips)) == []
    ensures Words("") == []
  {
  }

  /** Chips that each report one word are split back into exactly those words. */
  lemma {:induction false} CleanLine(chips: seq<string>)
    requires forall i | 0 <= i < |chips| :: IsWord(chips[i])
    ensures Words(Line(chips)) == chips
  {
    hide Words, Line, IsWord;
    LineStep(chips);
    if |chips| == 1 {
      WordAfterBlank("", chips[0]);
    } else if |chips| > 1 {
      var rest, last := chips[..|chips| - 1], chips[|chips| - 1];
      CleanLine(rest);
      BlankEnds(Line(rest));
      WordAfterBlank(Line(rest) + " ", last);
      assert rest + [last] == chips;
    }
  }

  // ---- Inputs -----------------------------------------------------------------------

  datatype FlasherSpec = FlasherSpec(forceWrite: bool, continueOnReadbackFailure: bool, homogenize: bool)

  /** The Job template's settings; with no flasher section mixed versions are homogenized. */
  function Settings(flasher: Option<FlasherSpec>): FlasherSpec {
    if flasher.Some? then flasher.value else FlasherSpec(false, false, true)
  }

  /** What `tt-smi -s` printed. */
  datatype Output = Nothing | Garbage | Chips(versions: seq<string>)

  datatype Snapshot = Snapshot(ok: bool, output: Output)

  /** The tools' behaviour during one run; `badReset` is the known bad line in a successful flash's log. */
  datatype Tools = Tools(first: Snapshot, healed: Snapshot, flashes: bool, badReset: bool, after: Snapshot)

  /** The pre-flash readback in force: the first one, or the one after healing. */
  function Before(t: Tools): Output {
    if t.first.ok then t.first.output else t.healed.output
  }

  function Current(o: Output): string {
    match o
    case Nothing => ""
    case Garbage => "?"
    case Chips(versions) => Line(versions)
  }

  predicate AllAt(ws: seq<string>, target: string) {
    forall i | 0 <= i < |ws| :: ws[i] == target
  }

  // ---- Decisions --------------------------------------------------------------------

  predicate Proceeds(t: Tools, s: FlasherSpec) {
    t.first.ok || t.healed.ok || s.continueOnReadbackFailure
  }

  predicate Skips(t: Tools, s: FlasherSpec, target: string) {
    var current := Current(Before(t));
    !s.forceWrite && current != "" && current != "?" && AllAt(Words(current), target)
  }

  function FirstLine(s: string): string {
    if s == "" || s[0] == '\n' then "" else [s[0]] + FirstLine(s[1..])
  }

  /** A readback that names versions, none of them unknown. */
  predicate Usable(current: string) {
    current != "" && "?" !in Words(FirstLine(current))
  }

  predicate Mixed(ws: seq<string>) {
    exists i, j | 0 <= i < j < |ws| :: ws[i] != ws[j]
  }

  /** `--force` is passed for a forced write, or to even out chips that disagree. */
  predicate Forces(t: Tools, s: FlasherSpec) {
    var current := Current(Before(t));
    s.forceWrite || (s.homogenize && Usable(current) && Mixed(Words(FirstLine(current))))
  }

  predicate Verified(t: Tools, target: string) {
    t.flashes && !t.badReset && t.after.ok && t.after.output.Chips?
          && AllAt(Words(Line(t.after.output.versions)), target)
  }

  // ---- The script -------------------------------------------------------------------

  /** Distinct words, sorted away their order: what `sort -u` leaves of them. */
  method SortUnique(ws: seq<string>) returns (distinct: seq<string>)
    ensures Distinct(distinct) && forall w :: w in distinct <==> w in ws
  {
    distinct := [];
    for i := 0 to |ws|
      invariant Distinct(distinct) && forall w :: w in distinct <==> w in ws[..i]
    {
      if ws[i] !in distinct {
        distinct := distinct + [ws[i]];
      }
    }
  }

  /** More than one distinct word means that two positions differ, and conversely. */
  lemma DistinctMeansMixed(ws: seq<string>, distinct: seq<string>)
    requires Distinct(distinct) && forall w :: w in distinct <==> w in ws
    ensures |distinct| > 1 <==> Mixed(ws)
  {
    if |distinct| > 1 {
      assert distinct[0] in ws && distinct[1] in ws;
      var i :| 0 <= i < |ws| && ws[i] == distinct[0];
      var j :| 0 <= j < |ws| && ws[j] == distinct[1];
      if i < j { assert ws[i] != ws[j]; } else { assert ws[j] != ws[i]; }
    }
    if Mixed(ws) {
      var i, j :| 0 <= i < j < |ws| && ws[i] != ws[j];
      assert ws[i] in distinct && ws[j] in distinct;
    }
  }

  /** The homogenize block: should `--force` be added? */
  method AddsForce(current: string) returns (add: bool)
    ensures add == (Usable(current) && Mixed(Words(FirstLine(current))))
  {
    var versions := Words(FirstLine(current));
    var distinct := SortUnique(versions);
    DistinctMeansMixed(versions, distinct);
    if current == "" || "?" in distinct { return false; }
    return |distinct| > 1;
  }

  method Mismatched(ws: seq<string>, target: string) returns (bad: seq<string>)
    ensures bad == [] <==> AllAt(ws, target)
  {
    bad := [];
    for i := 0 to |ws|
      invariant bad == [] <==> AllAt(ws[..i], target)
    {
      assert AllAt(ws[..i + 1], target) <==> AllAt(ws[..i], target) && ws[i] == target by {
        assert forall j | 0 <= j < i :: ws[..i + 1][j] == ws[..i][j];
        assert ws[..i + 1][i] == ws[i];
      }
      if ws[i] != target { bad := bad + [ws[i]]; }
    }
    assert ws[..|ws|] == ws;
  }

  /** The script outside mock mode. `flash` tells whether tt-flash ran, and with or without `--force`. */
  method Flash(t: Tools, s: FlasherSpec, target: string) returns (code: nat, flash: Option<bool>)
    ensures code == 0 <==> Proceeds(t, s) && (Skips(t, s, target) || Verified(t, target))
    ensures flash == if Proceeds(t, s) && !Skips(t, s, target) then Some(Forces(t, s)) else None
  {
    hide Words, Line, FirstLine, Usable, Mixed, AllAt;
    flash := None;
    var output := t.first.output;
    if !t.first.ok {
      output := t.healed.output;
      if !t.healed.ok && !s.continueOnReadbackFailure { return 1, None; }
    }
    var current := Current(output);
    if !s.forceWrite && current != "" && current != "?" {
      var mismatch := Mismatched(Words(current), target);
      if mismatch == [] { return 0, None; }
    }
    var force := s.forceWrite;
    if s.homogenize && !s.forceWrite {
      force := AddsForce(current);
    }
    flash := Some(force);
    if !t.flashes { return 1, flash; }
    if t.badReset { return 1, flash; }
    if !t.after.ok { return 1, flash; }
    if !t.after.output.Chips? { return 1, flash; }
    var bad := Mismatched(Words(Line(t.after.output.versions)), target);
    return (if bad == [] then 0 else 1), flash;
  }

  // ---- What success is worth --------------------------------------------------------

  /** The chips of the readback a successful run went by. */
  function LastChips(t: Tools, s: FlasherSpec, target: string): seq<string> {
    var o := if Skips(t, s, target) then Before(t) else t.after.output;
    if o.Chips? then o.versions else []
  }

  /** Exit 0 means every word of the last readback is the target. So every chip is at the target exactly
      when every chip reported one clean word; an empty or blank version slips through. */
  lemma SuccessMeans(t: Tools, s: FlasherSpec, target: string)
    requires Proceeds(t, s) && (Skips(t, s, target) || Verified(t, target)) && IsWord(target)
    ensures AllAt(Words(Line(LastChips(t, s, target))), target)
    ensures var chips := LastChips(t, s, target);
            AllAt(chips, target) <==> forall i | 0 <= i < |chips| :: IsWord(chips[i])
  {
    var chips := LastChips(t, s, target);
    if forall i | 0 <= i < |chips| :: IsWord(chips[i]) {
      CleanLine(chips);
    }
  }

  lemma BlankThenWord(target: string)
    requires IsWord(target)
    ensures Line(["", target]) == " " + target && Words(" " + target) == [target]
  {
    hide Words, Line, IsWord;
    var chips := ["", target];
    assert chips[..1] == [""] && chips[1] == target;
    LineStep(chips);
    LineStep([""]);
    assert "" + " " == " ";
    BlankEnds("");
    WordAfterBlank(" ", target);
  }

  /** For any target: a chip that reports an empty version next to one at the target, and the run succeeds without
      flashing. */
  lemma EmptyVersionSlipsThrough(target: string)
    requires IsWord(target)
    ensures var t := Tools(Snapshot(true, Chips(["", target])), Snapshot(false, Nothing), false, false,
              Snapshot(false, Nothing));
            Skips(t, Settings(None), target) && !AllAt(LastChips(t, Settings(None), target), target)
  {
    hide Words, Line;
    BlankThenWord(target);
    assert ["", target][0] != target;
  }

  /** With clean versions `--force` goes out exactly for a forced write, or when homogenizing a readback
      without unknown versions in which two chips differ. */
  lemma ForcesOnCleanChips(t: Tools, s: FlasherSpec)
    requires Before(t).Chips? && forall i | 0 <= i < |Before(t).versions| :: IsWord(Before(t).versions[i])
    ensures var chips := Before(t).versions;
            Forces(t, s) <==> s.forceWrite || (s.homogenize && "?" !in chips && Mixed(chips))
  {
    var chips := Before(t).versions;
    CleanLine(chips);
    NoNewline(chips);
    OneLine(Line(chips));
    if chips != [] {
      LineNotEmpty(chips);
    }
  }

  /** With no flasher section at all `--force` goes out exactly to even out known chips that differ. */
  lemma UnsetFlasherEvensOut(t: Tools)
    requires Before(t).Chips? && forall i | 0 <= i < |Before(t).versions| :: IsWord(Before(t).versions[i])
    ensures var chips := Before(t).versions; Forces(t, Settings(None)) <==> "?" !in chips && Mixed(chips)
  {
    hide Forces, Mixed;
    ForcesOnCleanChips(t, Settings(None));
  }

  lemma LineIsUnknown(chips: seq<string>)
    requires forall i | 0 <= i < |chips| :: IsWord(chips[i])
    ensures Line(chips) == "" <==> chips == []
    ensures Line(chips) == "?" <==> chips == ["?"]
  {
    hide Words, Line, IsWord;
    CleanLine(chips);
    ShortLines();
  }

  lemma ShortLines()
    ensures Line([]) == "" && Words("") == []
    ensures Line(["?"]) == "?" && Words("?") == ["?"]
  {
    CleanLine(["?"]);
  }

  /** On clean chips the flash is skipped exactly when it is not forced, there are chips, and each reports the target;
      a lone chip of unknown version is always flashed. */
  lemma SkipsOnCleanChips(t: Tools, s: FlasherSpec, target: string)
    requires Before(t).Chips? && forall i | 0 <= i < |Before(t).versions| :: IsWord(Before(t).versions[i])
    ensures var chips := Before(t).versions;
            Skips(t, s, target) <==>
              && !s.forceWrite && chips != [] && chips != ["?"]
              && forall i | 0 <= i < |chips| :: chips[i] == target
  {
    hide Words, Line, IsWord;
    LineIsUnknown(Before(t).versions);
    CleanLine(Before(t).versions);
  }

  /** A run on chips that report cleanly before and after succeeds exactly when the readback before it worked, was
      healed or may fail, and either nothing was to be done or the flash went through and every chip reports the
      target. */
  lemma SucceedsOnCleanChips(t: Tools, s: FlasherSpec, target: string)
    requires Before(t).Chips? && forall i | 0 <= i < |Before(t).versions| :: IsWord(Before(t).versions[i])
    requires t.after.output.Chips? && forall i | 0 <= i < |t.after.output.versions| ::
              IsWord(t.after.output.versions[i])
    ensures var chips, later := Before(t).versions, t.after.output.versions;
            (Proceeds(t, s) && (Skips(t, s, target) || Verified(t, target))) <==>
              && (t.first.ok || t.healed.ok || s.continueOnReadbackFailure)
              && (|| (!s.forceWrite && chips != [] && chips != ["?"] && forall i | 0 <= i < |chips| ::
                    chips[i] == target)
                  || (t.flashes && !t.badReset && t.after.ok && forall i | 0 <= i < |later| :: later[i] == target))
  {
    hide Words, Line, IsWord, Skips;
    SkipsOnCleanChips(t, s, target);
    CleanLine(t.after.output.versions);
  }

  lemma {:induction false} NoNewline(chips: seq<string>)
    requires forall i | 0 <= i < |chips| :: IsWord(chips[i])
    ensures '\n' !in Line(chips)
  {
    if |chips| > 1 {
      NoNewline(chips[..|chips| - 1]);
      assert IsWord(chips[|chips| - 1]);
    } else if |chips| == 1 {
      assert IsWord(chips[0]);
    }
  }

  lemma {:induction false} OneLine(s: string)
    requires '\n' !in s
    ensures FirstLine(s) == s
  {
    if s != "" {
      assert s[0] in s;
      OneLine(s[1..]);
      assert [s[0]] + s[1..] == s;
    }
  }

  lemma LineNotEmpty(chips: seq<string>)
    requires chips != [] && forall i | 0 <= i < |chips| :: IsWord(chips[i])
    ensures Line(chips) != ""
  {
    assert IsWord(chips[0]);
  }
}
