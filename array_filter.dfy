/** PHP's `array_filter($a)` called without a callback, the step that lets
    the service's own defaults apply instead of explicit zeros and empty
    strings. */
module ArrayFilter {
  import opened PhpArrays

  /** Drops every entry whose value is falsy; the others keep their keys,
      their values and their order. */
  function Filter(a: PhpArray): (r: PhpArray)
    ensures |r| <= |a|
  {
    if a == [] then []
    else if Falsy(a[0].val) then Filter(a[1..])
    else [a[0]] + Filter(a[1..])
  }

  /** An entry survives the filter exactly when it is in the input with a
      truthy value. */
  lemma {:induction false} FilterMembers(a: PhpArray, e: Entry)
    ensures e in Filter(a) <==> e in a && !Falsy(e.val)
  {
    if a != [] {
      FilterMembers(a[1..], e);
      assert a == [a[0]] + a[1..];
    }
  }

  /** One step of the filter over the suffix of `a` that starts at `i`. */
  lemma FilterStep(a: PhpArray, i: int)
    requires 0 <= i < |a|
    ensures Filter(a[i..]) == if Falsy(a[i].val) then Filter(a[i + 1..]) else [a[i]] + Filter(a[i + 1..])
  {
    assert a[i..][1..] == a[i + 1..];
  }

  /** What `array_filter` leaves under a key: the value if it is truthy. */
  function KeptValue(v: Value): Option<Value> {
    if Falsy(v) then None else Some(v)
  }

  predicate NoFalsyValues(a: PhpArray) {
    forall i :: 0 <= i < |a| ==> !Falsy(a[i].val)
  }

  /** `r` is `a` with some entries removed and the rest in their order. */
  predicate IsSubsequence(r: PhpArray, a: PhpArray)
    decreases |a|
  {
    if r == [] then true
    else if a == [] then false
    else (r[0] == a[0] && IsSubsequence(r[1..], a[1..])) || IsSubsequence(r, a[1..])
  }

  /** The filtered array holds no falsy value. */
  lemma FilterNoFalsy(a: PhpArray)
    ensures NoFalsyValues(Filter(a))
  {
    var r := Filter(a);
    forall i | 0 <= i < |r| ensures !Falsy(r[i].val) {
      FilterMembers(a, r[i]);
    }
  }

  /** The kept entries appear in the order they had. */
  lemma {:induction false} FilterKeepsOrder(a: PhpArray)
    ensures IsSubsequence(Filter(a), a)
  {
    if a != [] {
      FilterKeepsOrder(a[1..]);
      if Falsy(a[0].val) {
        SubsequenceOfTail(Filter(a[1..]), a);
      } else {
        assert Filter(a)[1..] == Filter(a[1..]);
      }
    }
  }

  lemma SubsequenceOfTail(r: PhpArray, a: PhpArray)
    requires a != [] && IsSubsequence(r, a[1..])
    ensures IsSubsequence(r, a)
  {
  }

  /** Over a well-formed array, a key keeps its value exactly when that value
      is truthy, and is gone otherwise. */
  lemma {:induction false} FilterLookup(a: PhpArray, k: string)
    requires DistinctKeys(a)
    ensures Lookup(Filter(a), k) == if k in KeysOf(a) then KeptValue(Lookup(a, k).value) else None
  {
    if a != [] {
      assert DistinctKeys(a[1..]);
      FilterLookup(a[1..], k);
      HasKeyCons(a, k);
      if a[0].key == k {
        assert k !in KeysOf(a[1..]) by {
          forall i | 0 <= i < |a| - 1 ensures KeysOf(a[1..])[i] != k {
            assert a[1..][i] == a[i + 1];
          }
        }
      }
    }
  }

  /** The keys that survive are keys of the input. */
  lemma FilterKeys(a: PhpArray, k: string)
    ensures k in KeysOf(Filter(a)) ==> k in KeysOf(a)
  {
    if k in KeysOf(Filter(a)) {
      var r := Filter(a);
      var i :| 0 <= i < |r| && KeysOf(r)[i] == k;
      FilterMembers(a, r[i]);
      var j :| 0 <= j < |a| && a[j] == r[i];
      assert KeysOf(a)[j] == k;
    }
  }

  /** Filtering twice is filtering once. */
  lemma {:induction false} FilterIdempotent(a: PhpArray)
    ensures Filter(Filter(a)) == Filter(a)
  {
    if a != [] {
      FilterIdempotent(a[1..]);
      if !Falsy(a[0].val) {
        assert Filter(a)[1..] == Filter(a[1..]);
      }
    }
  }

  /** The filter changes nothing exactly when no value is falsy. */
  lemma {:induction false} FilterIdentity(a: PhpArray)
    ensures Filter(a) == a <==> NoFalsyValues(a)
  {
    if a != [] {
      FilterIdentity(a[1..]);
      if Falsy(a[0].val) {
        assert |Filter(a)| <= |a[1..]| < |a|;
      } else {
        assert a == [a[0]] + a[1..];
        assert NoFalsyValues(a) <==> NoFalsyValues(a[1..]) by {
          if NoFalsyValues(a[1..]) {
            forall i | 0 <= i < |a| ensures !Falsy(a[i].val) {
              if i > 0 { assert a[i] == a[1..][i - 1]; }
            }
          }
        }
      }
    }
  }
}
