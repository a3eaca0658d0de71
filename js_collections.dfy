/** Array idioms shared by several components. */
module JsCollections {
  import opened Wrappers
  import JsString

  /**
   * The elements of `s` without repeats, each at its first occurrence: the order of
   * `[...new Set(s)]`, and of the property list that `JSON.stringify` builds from an
   * array replacer.
   */
  function Dedup<T(==,!new)>(s: seq<T>): (r: seq<T>)
    ensures forall i, j :: 0 <= i < j < |r| ==> r[i] != r[j]
    ensures forall x :: x in r <==> x in s
  {
    if s == [] then []
    else
      var prev := Dedup(s[..|s| - 1]);
      var item := s[|s| - 1];
      assert s == s[..|s| - 1] + [item];
      if item in prev then prev else prev + [item]
  }

  /** The index of the first occurrence of `x` in `s`, as `s.indexOf(x)` finds it. */
  function FirstIndex<T(==)>(s: seq<T>, x: T): (k: nat)
    requires x in s
    ensures k < |s| && s[k] == x
    ensures forall j :: 0 <= j < k ==> s[j] != x
  {
    if s[0] == x then 0 else 1 + FirstIndex(s[1..], x)
  }

  /** An element of a prefix is first found at the same index in the whole list. */
  lemma FirstIndexPrefix<T>(s: seq<T>, n: nat, x: T)
    requires n <= |s| && x in s[..n]
    ensures FirstIndex(s, x) == FirstIndex(s[..n], x)
  {
    var a, b := FirstIndex(s, x), FirstIndex(s[..n], x);
    assert s[b] == x;
    assert forall j :: 0 <= j < b ==> s[j] == s[..n][j];
  }

  /** `Dedup` keeps its elements in the order of their first occurrences in `s`. */
  lemma {:induction false} DedupFirstOccurrenceOrder<T(!new)>(s: seq<T>)
    ensures forall i, j :: 0 <= i < j < |Dedup(s)| ==>
              FirstIndex(s, Dedup(s)[i]) < FirstIndex(s, Dedup(s)[j])
  {
    if s != [] {
      var n := |s| - 1;
      var prev := Dedup(s[..n]);
      var item := s[n];
      DedupFirstOccurrenceOrder(s[..n]);
      forall x | x in prev
        ensures FirstIndex(s, x) == FirstIndex(s[..n], x) < n
      {
        FirstIndexPrefix(s, n, x);
      }
      if item !in prev {
        assert item !in s[..n];
        assert FirstIndex(s, item) == n;
        assert Dedup(s) == prev + [item];
      }
    }
  }

  /** A list without repeats has as many elements as its set. */
  lemma {:induction false} DistinctCardinality<T(!new)>(r: seq<T>)
    requires forall i, j :: 0 <= i < j < |r| ==> r[i] != r[j]
    ensures |set x | x in r| == |r|
  {
    if r != [] {
      var init, last := r[..|r| - 1], r[|r| - 1];
      DistinctCardinality(init);
      assert r == init + [last];
      assert last !in init;
      assert (set x | x in r) == (set x | x in init) + {last};
    }
  }

  /** `new Set(s).size`: the number of distinct elements. */
  lemma DedupCardinality<T(!new)>(s: seq<T>)
    ensures |Dedup(s)| == |set x | x in s|
  {
    DistinctCardinality(Dedup(s));
    assert (set x | x in Dedup(s)) == (set x | x in s);
  }

  /**
   * A property key that is an array index: the canonical decimal form of an integer
   * below 2^32 - 1 (no sign, no leading zero).
   */
  predicate IsArrayIndex(k: string) {
    k != [] && JsString.AllDigits(k) && (|k| == 1 || k[0] != '0') &&
    JsString.DecimalValue(k) < 0xFFFF_FFFF
  }

  /** The array-index key of least value among `keys`, if there is one. */
  function LeastIndexKey(keys: seq<string>): (r: Option<string>)
    ensures r.Some? ==> r.value in keys && IsArrayIndex(r.value)
    ensures r.Some? ==> forall k :: k in keys && IsArrayIndex(k) ==>
                          JsString.DecimalValue(r.value) <= JsString.DecimalValue(k)
    ensures r.None? <==> forall k :: k in keys ==> !IsArrayIndex(k)
  {
    if keys == [] then None
    else
      var rest := LeastIndexKey(keys[1..]);
      assert keys == [keys[0]] + keys[1..];
      if !IsArrayIndex(keys[0]) then rest
      else if rest.Some? && JsString.DecimalValue(rest.value) < JsString.DecimalValue(keys[0]) then rest
      else Some(keys[0])
  }

  /**
   * `Object.keys(o)[0]` for an object whose own properties were created in the order
   * `keys`: the ordinary own-key order lists array-index keys first, in ascending
   * numeric order, and the other string keys after them in creation order.
   */
  function FirstKey(keys: seq<string>): (r: Option<string>)
    ensures r.None? <==> keys == []
    ensures r.Some? ==> r.value in keys
    ensures r.Some? && IsArrayIndex(r.value) ==>
              forall k :: k in keys && IsArrayIndex(k) ==>
                JsString.DecimalValue(r.value) <= JsString.DecimalValue(k)
    ensures (forall k :: k in keys ==> !IsArrayIndex(k)) ==> keys == [] || r == Some(keys[0])
    ensures (exists k :: k in keys && IsArrayIndex(k)) ==> r.Some? && IsArrayIndex(r.value)
  {
    match LeastIndexKey(keys)
    case Some(k) => Some(k)
    case None => if keys == [] then None else Some(keys[0])
  }
}
