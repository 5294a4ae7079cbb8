/** EventDedup: one event per occurrence out of observations that repeat on every reconcile. */
module Metrics {

  type Memory = map<string, set<string>>

  function KeysOf(seen: Memory, scope: string): set<string> {
    if scope in seen then seen[scope] else {}
  }

  function Remember(seen: Memory, scope: string, key: string): Memory {
    seen[scope := KeysOf(seen, scope) + {key}]
  }

  function Prune(seen: Memory, scope: string, keep: set<string>): Memory {
    var left := KeysOf(seen, scope) * keep;
    if left == {} then seen - {scope} else seen[scope := left]
  }

  /** No scope is kept without a key. */
  predicate Lean(seen: Memory) {
    forall scope <- seen :: seen[scope] != {}
  }

  class EventDedup {
    var seen: Memory

    constructor ()
      ensures seen == map[]
    {
      seen := map[];
    }

    /** Records the pair; true when it was new. */
    method FirstSeen(scope: string, key: string) returns (first: bool)
      modifies this
      ensures first == (key !in old(KeysOf(seen, scope)))
      ensures seen == Remember(old(seen), scope, key)
    {
      if scope !in seen {
        seen := seen[scope := {}];
      }
      if key in seen[scope] {
        assert seen[scope] == KeysOf(seen, scope) + {key};
        assert seen[scope := seen[scope]] == seen;
        return false;
      }
      seen := seen[scope := seen[scope] + {key}];
      return true;
    }

    /** Drops every key of the scope that is not in `keep`, and the scope once it is empty. */
    method Retain(scope: string, keep: seq<string>)
      requires Lean(seen)
      modifies this
      ensures seen == Prune(old(seen), scope, set k | k in keep) && Lean(seen)
    {
      if scope !in seen {
        assert seen - {scope} == seen;
        assert KeysOf(seen, scope) * (set k | k in keep) == {};
        return;
      }
      var keepSet: set<string> := {};
      for i := 0 to |keep|
        invariant keepSet == set k | k in keep[..i]
      {
        keepSet := keepSet + {keep[i]};
      }
      assert keep[..|keep|] == keep;
      var cur, rest := seen[scope], seen[scope];
      while rest != {}
        invariant rest <= cur
        invariant cur == rest + (seen[scope] - rest) * keepSet && rest <= seen[scope]
        decreases rest
      {
        var k :| k in rest;
        rest := rest - {k};
        if k !in keepSet { cur := cur - {k}; }
      }
      assert cur == KeysOf(seen, scope) * (set k | k in keep);
      seen := if cur == {} then seen - {scope} else seen[scope := cur];
    }

    method Forget(scope: string)
      modifies this
      ensures KeysOf(seen, scope) == {} && forall s | s != scope :: KeysOf(seen, s) == KeysOf(old(seen), s)
      ensures seen == old(seen) - {scope}
    {
      seen := seen - {scope};
    }
  }
}
