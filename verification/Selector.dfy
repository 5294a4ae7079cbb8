/** Label selectors, the node-affinity terms they are translated to, and what both mean. */
module Selector {
  import opened Kube

  datatype SelectorOp = In | NotIn | Exists | DoesNotExist

  datatype Expression = Expression(key: LabelKey, op: SelectorOp, values: seq<string>)

  datatype LabelSelector = LabelSelector(matchLabels: Labels, matchExpressions: seq<Expression>)

  const EVERYTHING := LabelSelector(map[], [])

  predicate ExpressionHolds(e: Expression, labels: Labels) {
    match e.op
    case In => e.key in labels && labels[e.key] in e.values
    case NotIn => e.key !in labels || labels[e.key] !in e.values
    case Exists => e.key in labels
    case DoesNotExist => e.key !in labels
  }

  /** Every matchLabels pair is present and every expression holds. */
  predicate Selects(sel: LabelSelector, labels: Labels) {
    && (forall k <- sel.matchLabels :: k in labels && labels[k] == sel.matchLabels[k])
    && (forall i | 0 <= i < |sel.matchExpressions| :: ExpressionHolds(sel.matchExpressions[i], labels))
  }

  /** In and NotIn need values, the other two must have none; anything else is an API error. */
  predicate WellFormed(sel: LabelSelector) {
    forall i | 0 <= i < |sel.matchExpressions| ::
      (sel.matchExpressions[i].values != []) == (sel.matchExpressions[i].op.In? || sel.matchExpressions[i].op.NotIn?)
  }

  /** The selector looks at none of the given keys. */
  predicate Ignores(sel: LabelSelector, keys: set<LabelKey>) {
    && sel.matchLabels.Keys !! keys
    && (forall i | 0 <= i < |sel.matchExpressions| :: sel.matchExpressions[i].key !in keys)
  }

  /** Labels that differ only on ignored keys are selected alike. */
  lemma SelectsIgnoring(sel: LabelSelector, keys: set<LabelKey>, a: Labels, b: Labels)
    requires Ignores(sel, keys)
    requires forall k | k !in keys :: (k in a <==> k in b) && (k in a ==> a[k] == b[k])
    ensures Selects(sel, a) == Selects(sel, b)
  {
    forall i | 0 <= i < |sel.matchExpressions|
      ensures ExpressionHolds(sel.matchExpressions[i], a) == ExpressionHolds(sel.matchExpressions[i], b)
    {
    }
  }

  // ---- Translation to node affinity -------------------------------------------------

  datatype NodeOp = NodeIn | NodeNotIn | NodeExists | NodeDoesNotExist

  datatype Requirement = Requirement(key: LabelKey, op: NodeOp, values: seq<string>)

  /** The scheduler's reading of one node-affinity requirement. */
  predicate Meets(r: Requirement, labels: Labels) {
    match r.op
    case NodeIn => exists v <- r.values :: r.key in labels && labels[r.key] == v
    case NodeNotIn => forall v <- r.values :: !(r.key in labels && labels[r.key] == v)
    case NodeExists => r.key in labels
    case NodeDoesNotExist => r.key !in labels
  }

  predicate MeetsAll(rs: seq<Requirement>, labels: Labels) {
    forall i | 0 <= i < |rs| :: Meets(rs[i], labels)
  }

  ghost predicate Distinct<K(!new)>(s: seq<K>) {
    forall i, j | 0 <= i < j < |s| :: s[i] != s[j]
  }

  /** `order` walks a map's keys, each once, as a Go range loop may in any order. */
  ghost predicate Walks<K(!new)>(order: seq<K>, keys: set<K>) {
    (forall k :: k in order <==> k in keys) && Distinct(order)
  }

  /** The two loops that turn a label selector into node-affinity requirements. */
  method LabelSelectorToExpressions(sel: LabelSelector, order: seq<LabelKey>) returns (out: seq<Requirement>)
    requires Walks(order, sel.matchLabels.Keys)
    ensures |out| == |sel.matchLabels| + |sel.matchExpressions|
    ensures forall labels: Labels :: MeetsAll(out, labels) <==> Selects(sel, labels)
  {
    out := [];
    for i := 0 to |order|
      invariant |out| == i
      invariant forall j | 0 <= j < i :: out[j] == Requirement(order[j], NodeIn, [sel.matchLabels[order[j]]])
    {
      out := out + [Requirement(order[i], NodeIn, [sel.matchLabels[order[i]]])];
    }
    ghost var pairs := out;
    for i := 0 to |sel.matchExpressions|
      invariant |out| == |order| + i
      invariant out[..|order|] == pairs
      invariant forall j, labels: Labels | 0 <= j < i ::
          Meets(out[|order| + j], labels) <==> ExpressionHolds(sel.matchExpressions[j], labels)
    {
      var e := sel.matchExpressions[i];
      var op;
      match e.op {
        case In => op := NodeIn;
        case NotIn => op := NodeNotIn;
        case Exists => op := NodeExists;
        case DoesNotExist => op := NodeDoesNotExist;
      }
      out := out + [Requirement(e.key, op, e.values)];
    }
    WalkLength(order, sel.matchLabels.Keys);
    forall labels: Labels
      ensures MeetsAll(out, labels) <==> Selects(sel, labels)
    {
      TranslationMeans(sel, order, out, labels);
    }
  }

  /** A walk over a set is as long as the set is large. */
  lemma {:induction false} WalkLength<K(!new)>(order: seq<K>, keys: set<K>)
    requires Walks(order, keys)
    ensures |order| == |keys|
  {
    if order == [] {
      assert keys == {};
    } else {
      var rest := order[..|order| - 1];
      var last := order[|order| - 1];
      assert forall k :: k in rest <==> k in keys - {last};
      WalkLength(rest, keys - {last});
    }
  }

  lemma TranslationMeans(sel: LabelSelector, order: seq<LabelKey>, out: seq<Requirement>, labels: Labels)
    requires Walks(order, sel.matchLabels.Keys)
    requires |out| == |order| + |sel.matchExpressions|
    requires forall j | 0 <= j < |order| :: out[j] == Requirement(order[j], NodeIn, [sel.matchLabels[order[j]]])
    requires forall j | 0 <= j < |sel.matchExpressions| ::
        Meets(out[|order| + j], labels) <==> ExpressionHolds(sel.matchExpressions[j], labels)
    ensures MeetsAll(out, labels) <==> Selects(sel, labels)
  {
    if MeetsAll(out, labels) {
      forall k <- sel.matchLabels
        ensures k in labels && labels[k] == sel.matchLabels[k]
      {
        assert k in order;
        var j :| 0 <= j < |order| && order[j] == k;
        assert Meets(out[j], labels);
      }
      forall i | 0 <= i < |sel.matchExpressions|
        ensures ExpressionHolds(sel.matchExpressions[i], labels)
      {
        assert Meets(out[|order| + i], labels);
      }
    }
    if Selects(sel, labels) {
      forall i | 0 <= i < |out|
        ensures Meets(out[i], labels)
      {
        if i < |order| {
          assert order[i] in sel.matchLabels;
          assert out[i].values[0] in out[i].values;
        } else {
          var j := i - |order|;
          assert ExpressionHolds(sel.matchExpressions[j], labels);
          assert out[i] == out[|order| + j];
        }
      }
    }
  }
}
