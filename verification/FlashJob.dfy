/** The flash Job's name, its promised length cap of 63 characters, and its wall time. */
module FlashJob {
  import opened Kube

  const PREFIX_CAP := 48
  const NAME_CAP := 63
  const SUFFIX_LENGTH := 8

  function Lower(s: string): (r: string)
    ensures |r| == |s| && forall i | 0 <= i < |s| :: r[i] == LowerChar(s[i])
  {
    if s == "" then "" else Lower(s[..|s| - 1]) + [LowerChar(s[|s| - 1])]
  }

  function LowerChar(c: char): char {
    if 'A' <= c <= 'Z' then ((c as int) - ('A' as int) + ('a' as int)) as char else c
  }

  /** Dots become dashes. */
  function SanitizeVersion(v: string): (r: string)
    ensures |r| == |v| && forall i | 0 <= i < |v| :: r[i] == if v[i] == '.' then '-' else v[i]
  {
    if v == "" then "" else SanitizeVersion(v[..|v| - 1]) + [if v[|v| - 1] == '.' then '-' else v[|v| - 1]]
  }

  function Prefix(cr: string, node: string): string {
    var prefix := "ttfwp-" + cr + "-" + node;
    if |prefix| > PREFIX_CAP then prefix[..PREFIX_CAP] else prefix
  }

  /** `suffix` is the hash's eight hex digits. */
  function Name(cr: string, node: string, version: string, suffix: string): string {
    Lower(Prefix(cr, node) + "-" + SanitizeVersion(version) + "-" + suffix)
  }

  /** The cap holds exactly when the truncated prefix and the version leave room for each other:
      the prefix is cut at 48 characters whatever the version's length. */
  lemma FitsExactlyWhen(cr: string, node: string, version: string, suffix: string)
    requires |suffix| == SUFFIX_LENGTH
    ensures |Name(cr, node, version, suffix)| <= NAME_CAP <==>
            |version| <= 5 || |cr| + |node| + |version| <= 46
  {
    assert |"ttfwp-" + cr + "-" + node| == 7 + |cr| + |node|;
  }

  /** Long names and version "19.8.0": one character too many. */
  lemma OneTooMany(cr: string, node: string, suffix: string)
    requires |cr| == 30 && |node| == 30 && |suffix| == SUFFIX_LENGTH
    ensures |Name(cr, node, "19.8.0", suffix)| == NAME_CAP + 1
  {
    assert |"ttfwp-" + cr + "-" + node| == 67;
  }

  // ---- DNS safety -------------------------------------------------------------------

  predicate Alphanumeric(c: char) { 'a' <= c <= 'z' || '0' <= c <= '9' }

  /** Small letters, digits, dashes and dots; every dot between two letters or digits, and so are both ends. */
  predicate Subdomain(s: string) {
    && s != "" && Alphanumeric(s[0]) && Alphanumeric(s[|s| - 1])
    && (forall i | 0 <= i < |s| :: Alphanumeric(s[i]) || s[i] == '-' || s[i] == '.')
    && DotsInside(s)
  }

  predicate DotsInside(s: string) {
    forall i | 0 <= i < |s| :: s[i] == '.' ==> 0 < i < |s| - 1 && Alphanumeric(s[i - 1]) && Alphanumeric(s[i + 1])
  }

  /** What the prefix is cut from. */
  function Uncut(cr: string, node: string): string { "ttfwp-" + cr + "-" + node }

  lemma UncutIsSafe(cr: string, node: string)
    requires Subdomain(cr) && Subdomain(node)
    ensures Subdomain(Uncut(cr, node)) && Uncut(cr, node)[0] == 't'
  {
    var s, m := Uncut(cr, node), 7 + |cr|;
    var head := "ttfwp-";
    assert s == head + cr + "-" + node && |s| == m + |node|;
    forall i | 0 <= i < |s|
      ensures i < 6 ==> s[i] == head[i]
      ensures 6 <= i < m - 1 ==> s[i] == cr[i - 6]
      ensures i == m - 1 ==> s[i] == '-'
      ensures m <= i ==> s[i] == node[i - m]
    {
    }
  }

  /** Letters of either case, digits, dashes and dots. */
  predicate SafeVersion(version: string) {
    forall i | 0 <= i < |version| ::
      Alphanumeric(version[i]) || 'A' <= version[i] <= 'Z' || version[i] == '-' || version[i] == '.'
  }

  predicate CutAtDot(cr: string, node: string) {
    |Uncut(cr, node)| > PREFIX_CAP && Uncut(cr, node)[PREFIX_CAP - 1] == '.'
  }

  /** The name, position by position. */
  lemma NameAt(cr: string, node: string, version: string, suffix: string)
    ensures var p, name := Prefix(cr, node), Name(cr, node, version, suffix);
            && |name| == |p| + 1 + |version| + 1 + |suffix|
            && (forall i | 0 <= i < |p| :: name[i] == LowerChar(p[i]))
            && name[|p|] == '-' && name[|p| + 1 + |version|] == '-'
            && (forall j | 0 <= j < |version| ::
                  name[|p| + 1 + j] == LowerChar(if version[j] == '.' then '-' else version[j]))
            && (forall j | 0 <= j < |suffix| :: name[|p| + 2 + |version| + j] == LowerChar(suffix[j]))
  {
    hide Prefix;
    var p, v := Prefix(cr, node), SanitizeVersion(version);
    var raw := p + "-" + v + "-" + suffix;
    assert raw[|p|] == '-' && raw[|p| + 1 + |v|] == '-';
    forall j | 0 <= j < |v|
      ensures raw[|p| + 1 + j] == v[j]
    {
    }
    forall j | 0 <= j < |suffix|
      ensures raw[|p| + 2 + |v| + j] == suffix[j]
    {
    }
  }

  lemma PrefixIs(cr: string, node: string)
    ensures Prefix(cr, node) == if |Uncut(cr, node)| > PREFIX_CAP then Uncut(cr, node)[..PREFIX_CAP]
              else Uncut(cr, node)
  {
  }

  predicate Hex(suffix: string) { suffix != "" && forall i | 0 <= i < |suffix| :: Alphanumeric(suffix[i]) }

  /** For a policy and a node with valid names the Job name is a valid subdomain exactly when the version has nothing
      but letters, digits, dashes and dots,
            and the prefix is not cut right after a dot of the node's or policy's name. */
  lemma DnsSafeExactlyWhen(cr: string, node: string, version: string, suffix: string)
    requires Subdomain(cr) && Subdomain(node) && Hex(suffix)
    ensures Subdomain(Name(cr, node, version, suffix)) <==> SafeVersion(version) && !CutAtDot(cr, node)
  {
    hide Name, Prefix, Uncut;
    var p, name := Prefix(cr, node), Name(cr, node, version, suffix);
    UncutIsSafe(cr, node);
    PrefixIs(cr, node);
    NameAt(cr, node, version, suffix);
    if !SafeVersion(version) {
      var j :| 0 <= j < |version| && !(Alphanumeric(version[j]) || 'A' <= version[j] <= 'Z' || version[j] == '-'
            || version[j] == '.');
      assert !Alphanumeric(name[|p| + 1 + j]);
    }
    if CutAtDot(cr, node) {
      assert name[|p| - 1] == '.' && name[|p|] == '-';
    }
    if SafeVersion(version) && !CutAtDot(cr, node) {
      SafeParts(cr, node, version, suffix);
    }
  }

  lemma SafeParts(cr: string, node: string, version: string, suffix: string)
    requires Subdomain(Uncut(cr, node)) && Hex(suffix) && SafeVersion(version) && !CutAtDot(cr, node)
    ensures Subdomain(Name(cr, node, version, suffix))
  {
    hide Name, Prefix, Uncut;
    var p, name, u := Prefix(cr, node), Name(cr, node, version, suffix), Uncut(cr, node);
    PrefixIs(cr, node);
    NameAt(cr, node, version, suffix);
    assert |p| > 0 && p[0] == u[0] && name[0] == LowerChar(p[0]);
    var last := |suffix| - 1;
    assert name[|name| - 1] == name[|p| + 2 + |version| + last] == LowerChar(suffix[last]);
    assert Alphanumeric(name[0]) && Alphanumeric(name[|name| - 1]);
    forall i | 0 <= i < |name|
      ensures Alphanumeric(name[i]) || name[i] == '-' || name[i] == '.'
      ensures name[i] == '.' ==> i < |p|
    {
      if |p| < i < |p| + 1 + |version| {
        var j := i - |p| - 1;
        assert name[|p| + 1 + j] == LowerChar(if version[j] == '.' then '-' else version[j]);
      } else if |p| + 1 + |version| < i {
        var j := i - |p| - 2 - |version|;
        assert name[|p| + 2 + |version| + j] == LowerChar(suffix[j]);
      }
    }
    forall i | 0 <= i < |p| && name[i] == '.'
      ensures 0 < i < |name| - 1 && Alphanumeric(name[i - 1]) && Alphanumeric(name[i + 1])
    {
      assert p[i] == u[i] && u[i] == '.';
    }
  }

  /** An instance: behind policy "rack" the cut of a node named by 36 letters and a domain falls after the dot, and
      whatever the version the Job's name is not a valid one. */
  lemma NotDnsSafe(version: string, suffix: string)
    requires Hex(suffix)
    ensures var node := seq(36, _ => 'a') + ".example";
            Subdomain(node) && Subdomain("rack") && !Subdomain(Name("rack", node, version, suffix))
  {
    hide Name;
    var host := seq(36, _ => 'a');
    var node := host + ".example";
    assert node[36] == '.' && node[37] == 'e' && |node| == 44;
    assert Uncut("rack", node) == "ttfwp-" + "rack" + "-" + host + ".example";
    assert |"ttfwp-" + "rack" + "-"| == 11;
    DnsSafeExactlyWhen("rack", node, version, suffix);
  }

  // ---- Wall time --------------------------------------------------------------------

  datatype TimedCondition = TimedCondition(condition: JobCondition, at: int)

  predicate Ends(c: TimedCondition) { Terminal(c.condition) }

  /** When the Job ended: its completion time, or else the latest of its true terminal conditions. */
  predicate EndedAt(completion: Option<int>, conditions: seq<TimedCondition>, end: int) {
    if completion.Some? then end == completion.value
    else
      && (exists c <- conditions :: Ends(c) && c.at == end)
      && (forall c <- conditions :: Ends(c) ==> c.at <= end)
  }

  /** The time from start to end; none for a Job that never started or ended, and never a sample of
      zero or less. */
  method Duration(start: Option<int>, completion: Option<int>, conditions: seq<TimedCondition>) returns (d: Option<int>)
    ensures d.Some? ==> d.value > 0 && start.Some? && EndedAt(completion, conditions, start.value + d.value)
    ensures d.None? ==> start.None? || forall end :: EndedAt(completion, conditions, end) ==> end <= start.value
  {
    if start.None? { return None; }
    var end := completion;
    if end.None? {
      for i := 0 to |conditions|
        invariant end.None? ==> forall c <- conditions[..i] :: !Ends(c)
        invariant end.Some? ==> EndedAt(None, conditions[..i], end.value)
      {
        var c := conditions[i];
        assert forall x :: x in conditions[..i + 1] <==> x in conditions[..i] || x == c;
        if !c.condition.isTrue { continue; }
        match c.condition.kind {
          case OtherCondition =>
          case _ => if end.None? || c.at > end.value { end := Some(c.at); }
        }
      }
      assert conditions[..|conditions|] == conditions;
    }
    if end.None? { return None; }
    if end.value - start.value <= 0 { return None; }
    return Some(end.value - start.value);
  }
}
