/** Python dictionaries: entries kept in insertion order, one entry per key.
    The balance dictionaries are iterated in this order by the processors,
    so the order is part of the model. */
module PyDict {
  import opened Wrappers

  /** A dictionary as its list of entries, in insertion order. */
  type Dict<K, V> = seq<(K, V)>

  function Keys<K, V>(d: Dict<K, V>): (ks: seq<K>)
    ensures |ks| == |d|
    ensures forall i :: 0 <= i < |d| ==> ks[i] == d[i].0
  {
    seq(|d|, i requires 0 <= i < |d| => d[i].0)
  }

  /** No key appears twice. */
  predicate Valid<K(==), V>(d: Dict<K, V>) {
    forall i, j :: 0 <= i < j < |d| ==> d[i].0 != d[j].0
  }

  predicate HasKey<K(==), V>(d: Dict<K, V>, k: K) {
    exists i :: 0 <= i < |d| && d[i].0 == k
  }

  /** `d.get(k)` */
  function Get<K(==), V>(d: Dict<K, V>, k: K): (r: Option<V>)
    ensures r.Some? <==> HasKey(d, k)
    ensures r.Some? ==> (k, r.value) in d
  {
    if d == [] then None
    else if d[0].0 == k then Some(d[0].1)
    else
      var r := Get(d[1..], k);
      assert HasKey(d, k) ==> HasKey(d[1..], k) by {
        if HasKey(d, k) { var i :| 0 <= i < |d| && d[i].0 == k; assert d[1..][i - 1].0 == k; }
      }
      r
  }

  lemma GetValid<K, V>(d: Dict<K, V>, i: nat)
    requires Valid(d) && i < |d|
    ensures Get(d, d[i].0) == Some(d[i].1)
  {
    if i > 0 { GetValid(d[1..], i - 1); }
  }

  /** `d[k] = v`: an existing key keeps its place, a new key goes last. */
  function Put<K(==), V>(d: Dict<K, V>, k: K, v: V): (r: Dict<K, V>)
    ensures HasKey(d, k) ==> Keys(r) == Keys(d)
    ensures !HasKey(d, k) ==> Keys(r) == Keys(d) + [k]
  {
    if d == [] then [(k, v)]
    else if d[0].0 == k then [(k, v)] + d[1..]
    else
      var r := Put(d[1..], k, v);
      PutCons(d, k, r);
      [d[0]] + r
  }

  /** The keys after putting into the tail, with the head kept in front. */
  lemma PutCons<K, V>(d: Dict<K, V>, k: K, r: Dict<K, V>)
    requires d != [] && d[0].0 != k
    requires HasKey(d[1..], k) ==> Keys(r) == Keys(d[1..])
    requires !HasKey(d[1..], k) ==> Keys(r) == Keys(d[1..]) + [k]
    ensures HasKey(d, k) ==> Keys([d[0]] + r) == Keys(d)
    ensures !HasKey(d, k) ==> Keys([d[0]] + r) == Keys(d) + [k]
  {
    assert HasKey(d, k) <==> HasKey(d[1..], k) by {
      if HasKey(d, k) { var i :| 0 <= i < |d| && d[i].0 == k; assert d[1..][i - 1].0 == k; }
      if HasKey(d[1..], k) { var i :| 0 <= i < |d[1..]| && d[1..][i].0 == k; assert d[i + 1].0 == k; }
    }
    assert Keys(d) == [d[0].0] + Keys(d[1..]);
    assert Keys([d[0]] + r) == [d[0].0] + Keys(r);
  }

  /** After `d[k] = v`, `d.get(k)` is `v` and every other key reads as before. */
  lemma {:induction false} GetPut<K, V>(d: Dict<K, V>, k: K, v: V, k': K)
    ensures Get(Put(d, k, v), k') == if k' == k then Some(v) else Get(d, k')
  {
    if d != [] && d[0].0 != k {
      GetPut(d[1..], k, v, k');
    }
  }

  lemma PutValid<K, V>(d: Dict<K, V>, k: K, v: V)
    requires Valid(d)
    ensures Valid(Put(d, k, v))
  {
    var r := Put(d, k, v);
    forall i, j | 0 <= i < j < |r| ensures r[i].0 != r[j].0 {
      assert Keys(r)[i] == r[i].0 && Keys(r)[j] == r[j].0;
    }
  }

  /** The dictionary built by `d = {}` followed by `d[k] = v` for each pair
      in turn. */
  function FromPairs<K(==), V>(pairs: seq<(K, V)>): (d: Dict<K, V>)
    ensures Valid(d)
    ensures |d| <= |pairs|
  {
    if pairs == [] then []
    else
      var d := FromPairs(pairs[..|pairs| - 1]);
      PutValid(d, pairs[|pairs| - 1].0, pairs[|pairs| - 1].1);
      Put(d, pairs[|pairs| - 1].0, pairs[|pairs| - 1].1)
  }

  /** The value of the last pair with key `k`. */
  function LastValue<K(==), V>(pairs: seq<(K, V)>, k: K): (r: Option<V>)
    ensures r.None? <==> forall i :: 0 <= i < |pairs| ==> pairs[i].0 != k
    ensures r.Some? ==> exists i :: 0 <= i < |pairs| && pairs[i] == (k, r.value) &&
                          forall j :: i < j < |pairs| ==> pairs[j].0 != k
  {
    if pairs == [] then None
    else if pairs[|pairs| - 1].0 == k then Some(pairs[|pairs| - 1].1)
    else LastValue(pairs[..|pairs| - 1], k)
  }

  /** Assignment in a loop: the last assignment to a key wins, and the keys
      are exactly the keys assigned. */
  lemma {:induction false} GetFromPairs<K, V>(pairs: seq<(K, V)>, k: K)
    ensures Get(FromPairs(pairs), k) == LastValue(pairs, k)
  {
    if pairs != [] {
      GetFromPairs(pairs[..|pairs| - 1], k);
      GetPut(FromPairs(pairs[..|pairs| - 1]), pairs[|pairs| - 1].0, pairs[|pairs| - 1].1, k);
    }
  }

  /** `d = {}` then `d[k] = v` for each pair: a loop over the pairs. */
  method Assign<K(==), V>(pairs: seq<(K, V)>) returns (d: Dict<K, V>)
    ensures Valid(d)
    ensures forall k :: Get(d, k) == LastValue(pairs, k)
    ensures |d| <= |pairs|
    ensures pairs == [] ==> d == []
  {
    d := [];
    for i := 0 to |pairs|
      invariant d == FromPairs(pairs[..i])
    {
      assert pairs[..i + 1][..i] == pairs[..i];
      d := Put(d, pairs[i].0, pairs[i].1);
    }
    assert pairs[..|pairs|] == pairs;
    forall k ensures Get(d, k) == LastValue(pairs, k) {
      GetFromPairs(pairs, k);
    }
  }

  /** Assigning a key the dictionary does not hold appends the entry. */
  lemma {:induction false} PutAbsent<K, V>(d: Dict<K, V>, k: K, v: V)
    requires !HasKey(d, k)
    ensures Put(d, k, v) == d + [(k, v)]
  {
    if d != [] {
      forall i | 0 <= i < |d[1..]| ensures d[1..][i].0 != k {
        assert d[1..][i] == d[i + 1];
      }
      PutAbsent(d[1..], k, v);
    }
  }

  lemma HasKeyAppend<K, V>(a: Dict<K, V>, b: Dict<K, V>, k: K)
    ensures HasKey(a + b, k) <==> HasKey(a, k) || HasKey(b, k)
  {
    if HasKey(a + b, k) {
      var i :| 0 <= i < |a + b| && (a + b)[i].0 == k;
      if i >= |a| { assert b[i - |a|].0 == k; }
    }
    if HasKey(a, k) {
      var i :| 0 <= i < |a| && a[i].0 == k;
      assert (a + b)[i].0 == k;
    }
    if HasKey(b, k) {
      var i :| 0 <= i < |b| && b[i].0 == k;
      assert (a + b)[|a| + i].0 == k;
    }
  }

  /** Building a dictionary from entries whose keys are already distinct
      loses nothing: `{**a, **b}` of disjoint `a` and `b` is `a` then `b`. */
  lemma {:induction false} FromPairsOfValid<K, V>(pairs: seq<(K, V)>)
    requires Valid(pairs)
    ensures FromPairs(pairs) == pairs
  {
    if pairs != [] {
      var init := pairs[..|pairs| - 1];
      var last := pairs[|pairs| - 1];
      FromPairsOfValid(init);
      forall i | 0 <= i < |init| ensures init[i].0 != last.0 {
        assert init[i] == pairs[i];
      }
      PutAbsent(init, last.0, last.1);
      assert init + [last] == pairs;
    }
  }

  /** Two dictionaries without a common key put one after the other. */
  lemma ValidAppend<K, V>(a: Dict<K, V>, b: Dict<K, V>)
    requires Valid(a) && Valid(b)
    requires forall i, j :: 0 <= i < |a| && 0 <= j < |b| ==> a[i].0 != b[j].0
    ensures Valid(a + b)
  {
    forall i, j | 0 <= i < j < |a + b| ensures (a + b)[i].0 != (a + b)[j].0 {
      if j < |a| {
      } else if i >= |a| {
        assert (a + b)[i] == b[i - |a|] && (a + b)[j] == b[j - |a|];
      } else {
        assert (a + b)[j] == b[j - |a|];
      }
    }
  }

  /** The first key holding value `v`: a loop over `d.items()` that returns
      the key of the first matching value. */
  function KeyOf<K(==), V(==)>(d: Dict<K, V>, v: V): (r: Option<K>)
    ensures r.Some? ==> exists i :: 0 <= i < |d| && d[i].0 == r.value && d[i].1 == v && forall j :: 0 <= j < i ==> d[j].1 != v
    ensures r.None? ==> forall i :: 0 <= i < |d| ==> d[i].1 != v
  {
    if d == [] then None
    else if d[0].1 == v then Some(d[0].0)
    else
      var r := KeyOf(d[1..], v);
      assert forall j :: 1 <= j < |d| ==> d[j] == d[1..][j - 1];
      if r.Some? then
        var i :| 0 <= i < |d[1..]| && d[1..][i].0 == r.value && d[1..][i].1 == v && forall j :: 0 <= j < i ==> d[1..][j].1 != v;
        assert d[i + 1] == d[1..][i];
        r
      else r
  }

  lemma KeyOfAbsent<K, V>(d: Dict<K, V>, v: V)
    requires forall i :: 0 <= i < |d| ==> d[i].1 != v
    ensures KeyOf(d, v).None?
  {
  }

  /** No value appears twice. */
  predicate ValuesDistinct<K, V(==)>(d: Dict<K, V>) {
    forall i, j :: 0 <= j < i < |d| ==> d[j].1 != d[i].1
  }

  /** The first key holding the value of entry `i`, when no earlier entry
      holds it, is the key of entry `i`. */
  lemma KeyOfFirst<K, V>(d: Dict<K, V>, i: nat)
    requires i < |d| && forall j :: 0 <= j < i ==> d[j].1 != d[i].1
    ensures KeyOf(d, d[i].1) == Some(d[i].0)
  {
    var r := KeyOf(d, d[i].1);
    var k :| 0 <= k < |d| && d[k].0 == r.value && d[k].1 == d[i].1 && forall j :: 0 <= j < k ==> d[j].1 != d[i].1;
    assert k == i;
  }

  /** Looking up `{**a, **c}`: a key of `a` reads from `a`, any other from `c`. */
  lemma {:induction false} GetAppend<K, V>(a: Dict<K, V>, c: Dict<K, V>, k: K)
    ensures Get(a + c, k) == if HasKey(a, k) then Get(a, k) else Get(c, k)
  {
    if a == [] {
      assert a + c == c;
    } else {
      assert (a + c)[1..] == a[1..] + c;
      GetAppend(a[1..], c, k);
      if a[0].0 != k {
        HasKeyAppend([a[0]], a[1..], k);
        assert [a[0]] + a[1..] == a;
      }
    }
  }

  /** The keys of a dictionary built by assignments are the keys assigned. */
  lemma KeysFromPairs<K, V>(pairs: seq<(K, V)>, k: K)
    ensures k in Keys(FromPairs(pairs)) <==> exists i :: 0 <= i < |pairs| && pairs[i].0 == k
  {
    var d := FromPairs(pairs);
    GetFromPairs(pairs, k);
    if k in Keys(d) {
      var i :| 0 <= i < |d| && Keys(d)[i] == k;
      assert HasKey(d, k);
    }
    if HasKey(d, k) {
      var i :| 0 <= i < |d| && d[i].0 == k;
      assert Keys(d)[i] == k;
    }
  }

  /** The distinct keys of `ks` in the order they first appear. */
  function FirstOccurrences<K(==)>(ks: seq<K>): (r: seq<K>)
    ensures forall i :: 0 <= i < |ks| ==> ks[i] in r
    ensures forall i :: 0 <= i < |r| ==> r[i] in ks
    ensures forall i, j :: 0 <= i < j < |r| ==> r[i] != r[j]
  {
    if ks == [] then []
    else
      var ini := ks[..|ks| - 1];
      var r := FirstOccurrences(ini);
      assert forall i :: 0 <= i < |ini| ==> ks[i] == ini[i];
      if ks[|ks| - 1] in r then r else r + [ks[|ks| - 1]]
  }

  /** A dictionary built by assignments holds its keys in the order each
      was first assigned: reassigning a key does not move it. */
  lemma {:induction false} KeysInFirstOrder<K, V>(pairs: seq<(K, V)>)
    ensures Keys(FromPairs(pairs)) == FirstOccurrences(Keys(pairs))
  {
    if pairs != [] {
      var init := pairs[..|pairs| - 1];
      var (k, v) := pairs[|pairs| - 1];
      KeysInFirstOrder(init);
      var d := FromPairs(init);
      assert Keys(pairs)[..|pairs| - 1] == Keys(init);
      assert HasKey(d, k) <==> k in Keys(d) by {
        if HasKey(d, k) {
          var i :| 0 <= i < |d| && d[i].0 == k;
          assert Keys(d)[i] == k;
        }
      }
    }
  }

  /** One more assignment after the others. */
  lemma FromPairsSnoc<K, V>(pairs: seq<(K, V)>, k: K, v: V)
    ensures FromPairs(pairs + [(k, v)]) == Put(FromPairs(pairs), k, v)
  {
    assert (pairs + [(k, v)])[..|pairs|] == pairs;
  }
}
