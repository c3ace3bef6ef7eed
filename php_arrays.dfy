/** PHP values and ordered, string-keyed PHP arrays, as far as the QNS request
    layer uses them: literals, `$a[$k] = $v`, `isset`, `array_merge`. */
module PhpArrays {

  datatype Option<+T> = None | Some(value: T) {
    /** The value, or `default` when absent (PHP's "use the default for a missing key"). */
    function GetOr(default: T): T {
      match this
      case Some(v) => v
      case None => default
    }
  }

  /** A PHP value. `Assoc` is an array written with string keys, `List` one
      written as a list literal (keys 0, 1, ...). */
  datatype Value =
    | Int(i: int)
    | Str(s: string)
    | Bool(b: bool)
    | Null
    | Assoc(entries: seq<Entry>)
    | List(items: seq<Value>)

  datatype Entry = Entry(key: string, val: Value)

  /** An ordered PHP array with string keys, in insertion order. */
  type PhpArray = seq<Entry>

  /** PHP truthiness: exactly these values convert to `false`. */
  predicate Falsy(v: Value) {
    match v
    case Int(i) => i == 0
    case Str(s) => s == "" || s == "0"
    case Bool(b) => !b
    case Null => true
    case Assoc(es) => es == []
    case List(xs) => xs == []
  }

  /** The keys of an array, in order. */
  function KeysOf(a: PhpArray): (ks: seq<string>)
    ensures |ks| == |a|
    ensures forall i :: 0 <= i < |a| ==> ks[i] == a[i].key
  {
    seq(|a|, i requires 0 <= i < |a| => a[i].key)
  }

  /** A real PHP array never holds one key twice. */
  predicate DistinctKeys(a: PhpArray) {
    forall i, j :: 0 <= i < j < |a| ==> a[i].key != a[j].key
  }

  lemma HasKeyCons(a: PhpArray, k: string)
    requires a != []
    ensures k in KeysOf(a) <==> a[0].key == k || k in KeysOf(a[1..])
  {
    if k in KeysOf(a[1..]) {
      var i :| 0 <= i < |a| - 1 && KeysOf(a[1..])[i] == k;
      assert KeysOf(a)[i + 1] == k;
    }
    if k in KeysOf(a) && a[0].key != k {
      var i :| 0 <= i < |a| && KeysOf(a)[i] == k;
      assert KeysOf(a[1..])[i - 1] == k;
    }
  }

  /** `$a[$k]`: the value stored under `k`, if any. */
  function Lookup(a: PhpArray, k: string): (r: Option<Value>)
    ensures r.Some? <==> k in KeysOf(a)
    ensures r.Some? ==> Entry(k, r.value) in a
  {
    if a == [] then None
    else if a[0].key == k then Some(a[0].val)
    else Lookup(a[1..], k)
  }

  /** In a well-formed array, the key at position `i` holds the value there. */
  lemma {:induction false} LookupAt(a: PhpArray, i: int)
    requires DistinctKeys(a) && 0 <= i < |a|
    ensures Lookup(a, a[i].key) == Some(a[i].val)
  {
    if i > 0 {
      assert a[1..][i - 1] == a[i];
      LookupAt(a[1..], i - 1);
    }
  }

  /** `isset($a[$k])`: the key is present and its value is not null. */
  predicate IsSet(a: PhpArray, k: string) {
    Lookup(a, k).Some? && Lookup(a, k).value != Null
  }

  /** `$a[$k] = $v`: an existing key keeps its position and gets the new
      value; a new key is appended at the end. */
  function Put(a: PhpArray, k: string, v: Value): PhpArray {
    if a == [] then [Entry(k, v)]
    else if a[0].key == k then [Entry(k, v)] + a[1..]
    else [a[0]] + Put(a[1..], k, v)
  }

  /** After `$a[$k] = $v` the key holds `v` and every other key holds what
      it held before. */
  lemma {:induction false} PutLookup(a: PhpArray, k: string, v: Value, j: string)
    ensures Lookup(Put(a, k, v), j) == if j == k then Some(v) else Lookup(a, j)
  {
    if a != [] && a[0].key != k {
      PutLookup(a[1..], k, v, j);
      assert Put(a, k, v)[1..] == Put(a[1..], k, v);
    }
  }

  /** `$a[$k] = $v` on a key the array holds leaves the keys as they are. */
  lemma {:induction false} PutExistingKey(a: PhpArray, k: string, v: Value)
    requires k in KeysOf(a)
    ensures KeysOf(Put(a, k, v)) == KeysOf(a)
  {
    if a[0].key != k {
      assert k in KeysOf(a[1..]);
      PutExistingKey(a[1..], k, v);
    }
  }

  /** `$a[$k] = $v` on a key the array does not hold appends one entry. */
  lemma PutNewKeyAppends(a: PhpArray, k: string, v: Value)
    requires k !in KeysOf(a)
    ensures Put(a, k, v) == a + [Entry(k, v)]
  {
    forall i | 0 <= i < |a| ensures a[i].key != k {
      assert KeysOf(a)[i] == a[i].key;
    }
    PutAbsentAppends(a, k, v);
  }

  lemma {:induction false} PutAbsentAppends(a: PhpArray, k: string, v: Value)
    requires forall i :: 0 <= i < |a| ==> a[i].key != k
    ensures Put(a, k, v) == a + [Entry(k, v)]
  {
    if a != [] {
      assert forall i :: 0 <= i < |a| - 1 ==> a[1..][i] == a[i + 1];
      PutAbsentAppends(a[1..], k, v);
      assert a + [Entry(k, v)] == [a[0]] + (a[1..] + [Entry(k, v)]);
    }
  }

  /** `$a[$k] = $v` keeps the order of the keys and appends a new key last. */
  lemma PutKeys(a: PhpArray, k: string, v: Value)
    ensures KeysOf(Put(a, k, v)) == if k in KeysOf(a) then KeysOf(a) else KeysOf(a) + [k]
  {
    if k in KeysOf(a) {
      PutExistingKey(a, k, v);
    } else {
      PutNewKeyAppends(a, k, v);
    }
  }

  /** `array_merge($a, $b)` for string keys: every entry of `b`, in order,
      is stored into `a` as by `$a[$k] = $v`. */
  function ArrayMerge(a: PhpArray, b: PhpArray): PhpArray
    decreases |b|
  {
    if b == [] then a else ArrayMerge(Put(a, b[0].key, b[0].val), b[1..])
  }

  lemma PutKeepsDistinct(a: PhpArray, k: string, v: Value)
    requires DistinctKeys(a)
    ensures DistinctKeys(Put(a, k, v))
  {
    var r := Put(a, k, v);
    PutKeys(a, k, v);
    var ks := KeysOf(r);
    forall i, j | 0 <= i < j < |r| ensures r[i].key != r[j].key {
      assert r[i].key == ks[i] && r[j].key == ks[j];
      if j < |a| {
        assert ks[i] == KeysOf(a)[i] && ks[j] == KeysOf(a)[j];
      } else {
        assert ks[j] == k && ks[i] == KeysOf(a)[i];
      }
    }
  }

  /** After `array_merge($a, $b)`, a key of `b` holds `b`'s value and every
      other key holds what it held in `a`. */
  lemma {:induction false} ArrayMergeLookup(a: PhpArray, b: PhpArray, k: string)
    requires DistinctKeys(b)
    ensures Lookup(ArrayMerge(a, b), k) == if k in KeysOf(b) then Lookup(b, k) else Lookup(a, k)
    decreases |b|
  {
    if b != [] {
      var a' := Put(a, b[0].key, b[0].val);
      PutLookup(a, b[0].key, b[0].val, k);
      assert KeysOf(b) == [b[0].key] + KeysOf(b[1..]);
      assert DistinctKeys(b[1..]);
      ArrayMergeLookup(a', b[1..], k);
      if k == b[0].key {
        assert k !in KeysOf(b[1..]);
      }
    }
  }

  /** `array_merge` keeps the keys of `a` first, in their order. */
  lemma {:induction false} ArrayMergeKeyOrder(a: PhpArray, b: PhpArray)
    ensures |a| <= |ArrayMerge(a, b)|
    ensures KeysOf(ArrayMerge(a, b))[..|a|] == KeysOf(a)
    decreases |b|
  {
    if b != [] {
      var e := b[0];
      var a' := Put(a, e.key, e.val);
      PutKeys(a, e.key, e.val);
      ArrayMergeKeyOrder(a', b[1..]);
      var ks := KeysOf(ArrayMerge(a, b));
      assert ks[..|a|] == ks[..|a'|][..|a|];
    }
  }

  /** `array_merge` holds exactly the keys of `a` and `b`. */
  lemma {:induction false} ArrayMergeKeySet(a: PhpArray, b: PhpArray, k: string)
    ensures k in KeysOf(ArrayMerge(a, b)) <==> k in KeysOf(a) || k in KeysOf(b)
    decreases |b|
  {
    if b != [] {
      var e := b[0];
      PutKeys(a, e.key, e.val);
      ArrayMergeKeySet(Put(a, e.key, e.val), b[1..], k);
      HasKeyCons(b, k);
    }
  }

  /** Merging a well-formed array into an empty one copies it:
      `array_merge(array(), $a) == $a`. */
  lemma ArrayMergeIntoEmpty(a: PhpArray)
    requires DistinctKeys(a)
    ensures ArrayMerge([], a) == a
  {
    ArrayMergeAppends([], a);
  }

  /** Merging keys that are all new appends the entries in order. */
  lemma {:induction false} ArrayMergeAppends(p: PhpArray, s: PhpArray)
    requires DistinctKeys(s)
    requires forall i :: 0 <= i < |s| ==> s[i].key !in KeysOf(p)
    ensures ArrayMerge(p, s) == p + s
    decreases |s|
  {
    if s != [] {
      var e := s[0];
      PutNewKeyAppends(p, e.key, e.val);
      var p' := p + [e];
      assert KeysOf(p') == KeysOf(p) + [e.key];
      assert forall i :: 0 <= i < |s| - 1 ==> s[1..][i] == s[i + 1];
      ArrayMergeAppends(p', s[1..]);
      ShiftFirst(p, s);
    }
  }

  lemma ShiftFirst<T>(p: seq<T>, s: seq<T>)
    requires s != []
    ensures p + s == (p + [s[0]]) + s[1..]
  {
    assert s == [s[0]] + s[1..];
  }

  lemma {:induction false} ArrayMergeKeepsDistinct(a: PhpArray, b: PhpArray)
    requires DistinctKeys(a)
    ensures DistinctKeys(ArrayMerge(a, b))
    decreases |b|
  {
    if b != [] {
      PutKeepsDistinct(a, b[0].key, b[0].val);
      ArrayMergeKeepsDistinct(Put(a, b[0].key, b[0].val), b[1..]);
    }
  }
}
