/**
 * JavaScript's `Map` as the dashboard uses it: an insertion-ordered
 * dictionary whose `set` overwrites an existing key in place and appends a
 * new key at the end, so that `Array.from(map.entries())` lists keys in
 * first-seen order.  Also the facts shared by the histograms that fold a
 * sequence into such a map.
 */
module OrderedMaps {
  import opened Wrappers
  import opened Seqs

  /** A `Map` as its entries, in insertion order. */
  type OMap<K, V> = seq<(K, V)>

  function Keys<K, V>(m: OMap<K, V>): seq<K>
  {
    if m == [] then [] else [m[0].0] + Keys(m[1..])
  }

  /** `Map.prototype.get`: the value of the first entry with key `k`, if any. */
  function Get<K(==), V>(m: OMap<K, V>, k: K): (r: Option<V>)
    ensures r.Some? <==> k in Keys(m)
  {
    if m == [] then None
    else if m[0].0 == k then Some(m[0].1)
    else Get(m[1..], k)
  }

  /** `Map.prototype.set`: overwrite the entry of `k` where it stands, or append a new one. */
  function Set<K(==), V>(m: OMap<K, V>, k: K, v: V): (r: OMap<K, V>)
    ensures Keys(r) == if k in Keys(m) then Keys(m) else Keys(m) + [k]
    ensures Get(r, k) == Some(v)
    ensures forall k' :: k' in Keys(m) && k' != k ==> Get(r, k') == Get(m, k')
  {
    if m == [] then [(k, v)]
    else if m[0].0 == k then [(k, v)] + m[1..]
    else [m[0]] + Set(m[1..], k, v)
  }

  /** Sum of the values of a map of counters. */
  function TotalCount<K>(m: OMap<K, nat>): nat
  {
    if m == [] then 0 else m[0].1 + TotalCount(m[1..])
  }

  /** The distinct elements of `ks`, each at the place it first occurs. */
  function FirstSeen<K(==)>(ks: seq<K>): (r: seq<K>)
    ensures forall x :: x in r ==> x in ks
    ensures forall x :: x in ks ==> x in r
    ensures forall i, j :: 0 <= i < j < |r| ==> r[i] != r[j]
  {
    if ks == [] then []
    else
      var p := FirstSeen(ks[..|ks| - 1]);
      assert ks == ks[..|ks| - 1] + [ks[|ks| - 1]];
      if ks[|ks| - 1] in p then p else p + [ks[|ks| - 1]]
  }

  /** `indexOf`: the position where `x` first occurs in `ks`. */
  function IndexOf<K(==)>(ks: seq<K>, x: K): (a: nat)
    requires x in ks
    ensures a < |ks| && ks[a] == x && x !in ks[..a]
  {
    if ks[0] == x then 0
    else
      var a := 1 + IndexOf(ks[1..], x);
      assert ks[..a] == [ks[0]] + ks[1..][..a - 1];
      a
  }

  /** Only one position holds the first occurrence of `x`. */
  lemma IndexOfUnique<K>(ks: seq<K>, x: K, a: nat)
    requires a < |ks| && ks[a] == x && x !in ks[..a]
    ensures IndexOf(ks, x) == a
  {
  }

  /** Appending elements does not move the first occurrence of an element already present. */
  lemma IndexOfAppend<K>(ks: seq<K>, y: K, x: K)
    requires x in ks
    ensures IndexOf(ks + [y], x) == IndexOf(ks, x)
  {
    var a := IndexOf(ks, x);
    assert (ks + [y])[..a] == ks[..a];
    IndexOfUnique(ks + [y], x, a);
  }

  /**
   * `FirstSeen` lists the keys in the order of their first occurrence:
   * an earlier key first occurs earlier in `ks`.
   */
  lemma {:induction false} FirstSeenOrder<K>(ks: seq<K>)
    ensures forall i, j :: 0 <= i < j < |FirstSeen(ks)| ==>
      IndexOf(ks, FirstSeen(ks)[i]) < IndexOf(ks, FirstSeen(ks)[j])
  {
    if ks != [] {
      var init, last := ks[..|ks| - 1], ks[|ks| - 1];
      assert ks == init + [last];
      FirstSeenOrder(init);
      var p, r := FirstSeen(init), FirstSeen(ks);
      forall x | x in p
        ensures IndexOf(ks, x) == IndexOf(init, x)
      {
        IndexOfAppend(init, last, x);
      }
      if last !in p {
        assert r == p + [last];
        assert last !in init;
        IndexOfUnique(ks, last, |init|);
        forall i, j | 0 <= i < j < |r|
          ensures IndexOf(ks, r[i]) < IndexOf(ks, r[j])
        {
          assert r[i] in p;
          if j < |p| {
            assert r[j] in p;
          }
        }
      }
    }
  }

  lemma {:induction false} KeysLength<K, V>(m: OMap<K, V>)
    ensures |Keys(m)| == |m|
    ensures forall j :: 0 <= j < |m| ==> Keys(m)[j] == m[j].0
  {
    if m != [] {
      KeysLength(m[1..]);
    }
  }

  /** In a map with distinct keys, `get` of an entry's key returns that entry's value. */
  lemma {:induction false} GetAtIndex<K, V>(m: OMap<K, V>, j: nat)
    requires j < |m|
    requires forall a, b :: 0 <= a < b < |Keys(m)| ==> Keys(m)[a] != Keys(m)[b]
    ensures Get(m, m[j].0) == Some(m[j].1)
  {
    KeysLength(m);
    if j > 0 {
      assert Keys(m)[0] != Keys(m)[j];
      KeysLength(m[1..]);
      forall a, b | 0 <= a < b < |Keys(m[1..])|
        ensures Keys(m[1..])[a] != Keys(m[1..])[b]
      {
        assert Keys(m)[a + 1] != Keys(m)[b + 1];
      }
      GetAtIndex(m[1..], j - 1);
    }
  }

  /** Setting `k` to `n` replaces `k`'s old count (0 when absent) by `n` in the total. */
  lemma {:induction false} TotalCountSet<K>(m: OMap<K, nat>, k: K, n: nat)
    ensures TotalCount(Set(m, k, n)) == TotalCount(m) - Get(m, k).GetOr(0) + n
  {
    if m != [] && m[0].0 != k {
      TotalCountSet(m[1..], k, n);
    }
  }

  /**
   * `map.set(k, (map.get(k) || 0) + 1)`: count `k` once more, starting
   * from 0 when absent; the total grows by one.
   */
  function Increment<K(==)>(m: OMap<K, nat>, k: K): (r: OMap<K, nat>)
    ensures Keys(r) == if k in Keys(m) then Keys(m) else Keys(m) + [k]
    ensures Get(r, k).Some? && Get(r, k).value == Get(m, k).GetOr(0) + 1
    ensures forall k' :: k' in Keys(m) && k' != k ==> Get(r, k') == Get(m, k')
    ensures TotalCount(r) == TotalCount(m) + 1
  {
    var n: nat := Get(m, k).GetOr(0) + 1;
    TotalCountSet(m, k, n);
    Set<K, nat>(m, k, n)
  }

  lemma MapAppend<T, K>(s: seq<T>, x: T, key: T -> K)
    ensures Map(s + [x], key) == Map(s, key) + [key(x)]
  {
  }

  lemma FirstSeenAppend<K>(ks: seq<K>, k: K)
    ensures FirstSeen(ks + [k]) == if k in ks then FirstSeen(ks) else FirstSeen(ks) + [k]
  {
    assert (ks + [k])[..|ks|] == ks;
  }

  /** A key that no element of `s` has selects nothing. */
  lemma UnseenKeySelectsNothing<T, K>(s: seq<T>, key: T -> K, k: K)
    requires k !in Map(s, key)
    ensures Filter(s, KeyIs(key, k)) == []
  {
    var g := Filter(s, KeyIs(key, k));
    if g != [] {
      FilterMembership(s, KeyIs(key, k), g[0]);
    }
  }

  /** A key that some element of `s` has selects at least that element. */
  lemma SeenKeySelectsSomething<T, K>(s: seq<T>, key: T -> K, k: K)
    requires k in Map(s, key)
    ensures Filter(s, KeyIs(key, k)) != []
  {
    var i :| 0 <= i < |s| && Map(s, key)[i] == k;
    FilterMembership(s, KeyIs(key, k), s[i]);
  }

  /**
   * One step of `map.set(key(x), (map.get(key(x)) || 0) + 1)`: if the map
   * counted, in first-seen key order, the elements of `s` per key, it
   * afterwards counts those of `s + [x]`, and its total grows by one.
   */
  lemma TallyStep<T, K>(m: OMap<K, nat>, s: seq<T>, x: T, key: T -> K)
    requires Keys(m) == FirstSeen(Map(s, key))
    requires forall k {:trigger Get(m, k)} :: k in Keys(m) ==> Get(m, k) == Some(|Filter(s, KeyIs(key, k))|)
    ensures var m' := Increment(m, key(x));
      Keys(m') == FirstSeen(Map(s + [x], key)) &&
      (forall k {:trigger Get(m', k)} :: k in Keys(m') ==> Get(m', k) == Some(|Filter(s + [x], KeyIs(key, k))|)) &&
      TotalCount(m') == TotalCount(m) + 1
  {
    MapAppend(s, x, key);
    FirstSeenAppend(Map(s, key), key(x));
    if key(x) !in Keys(m) {
      UnseenKeyOfMap(m, s, key, key(x));
    }
    TallyValues(m, s, x, key);
  }

  lemma TallyValues<T, K>(m: OMap<K, nat>, s: seq<T>, x: T, key: T -> K)
    requires forall k {:trigger Get(m, k)} :: k in Keys(m) ==> Get(m, k) == Some(|Filter(s, KeyIs(key, k))|)
    requires key(x) !in Keys(m) ==> Filter(s, KeyIs(key, key(x))) == []
    ensures var m' := Increment(m, key(x));
      forall k {:trigger Get(m', k)} :: k in Keys(m') ==> Get(m', k) == Some(|Filter(s + [x], KeyIs(key, k))|)
  {
    var m' := Increment(m, key(x));
    forall k | k in Keys(m')
      ensures Get(m', k) == Some(|Filter(s + [x], KeyIs(key, k))|)
    {
      TallyStepAt(m, s, x, key, k);
    }
  }

  /** A key the map does not have is the key of no element of `s`. */
  lemma UnseenKeyOfMap<T, K, V>(m: OMap<K, V>, s: seq<T>, key: T -> K, k: K)
    requires Keys(m) == FirstSeen(Map(s, key))
    requires k !in Keys(m)
    ensures Filter(s, KeyIs(key, k)) == []
  {
    UnseenKeySelectsNothing(s, key, k);
  }

  lemma TallyStepAt<T, K>(m: OMap<K, nat>, s: seq<T>, x: T, key: T -> K, k: K)
    requires forall k {:trigger Get(m, k)} :: k in Keys(m) ==> Get(m, k) == Some(|Filter(s, KeyIs(key, k))|)
    requires key(x) !in Keys(m) ==> Filter(s, KeyIs(key, key(x))) == []
    requires k in Keys(Increment(m, key(x)))
    ensures Get(Increment(m, key(x)), k) == Some(|Filter(s + [x], KeyIs(key, k))|)
  {
    FilterAppend(s, [x], KeyIs(key, k));
    if k == key(x) {
      assert Filter([x], KeyIs(key, k)) == [x];
    } else {
      assert k in Keys(m);
      assert Filter([x], KeyIs(key, k)) == [];
      assert Filter(s, KeyIs(key, k)) + [] == Filter(s, KeyIs(key, k));
    }
  }

  /**
   * `curr = map.get(k) || { total: 0, count: 0 }; curr.total += a;
   * curr.count += 1; map.set(k, curr)`: add `a` to the total of `k` and
   * count it once more.
   */
  function AddTo<K(==)>(m: OMap<K, (int, nat)>, k: K, a: int): (r: OMap<K, (int, nat)>)
    ensures Keys(r) == if k in Keys(m) then Keys(m) else Keys(m) + [k]
    ensures Get(r, k).Some? &&
      Get(r, k).value == (Get(m, k).GetOr((0, 0)).0 + a, Get(m, k).GetOr((0, 0)).1 + 1)
    ensures forall k' :: k' in Keys(m) && k' != k ==> Get(r, k') == Get(m, k')
  {
    var cur := Get(m, k).GetOr((0, 0));
    Set(m, k, (cur.0 + a, cur.1 + 1))
  }

  /**
   * One step of the running (total, count) per key: if the map held, in
   * first-seen key order, the sum of `w` and the number of the elements of
   * `s` per key, it afterwards holds those of `s + [x]`.
   */
  lemma GroupStep<T, K>(m: OMap<K, (int, nat)>, s: seq<T>, x: T, key: T -> K, w: T -> int)
    requires Keys(m) == FirstSeen(Map(s, key))
    requires forall k {:trigger Get(m, k)} :: k in Keys(m) ==> Get(m, k) == Some(GroupTotals(s, key, w, k))
    ensures var m' := AddTo(m, key(x), w(x));
      Keys(m') == FirstSeen(Map(s + [x], key)) &&
      forall k {:trigger Get(m', k)} :: k in Keys(m') ==> Get(m', k) == Some(GroupTotals(s + [x], key, w, k))
  {
    if key(x) !in Keys(m) {
      UnseenKeyOfMap(m, s, key, key(x));
    }
    GroupValues(m, s, x, key, w);
    MapAppend(s, x, key);
    FirstSeenAppend(Map(s, key), key(x));
  }

  lemma GroupValues<T, K>(m: OMap<K, (int, nat)>, s: seq<T>, x: T, key: T -> K, w: T -> int)
    requires forall k {:trigger Get(m, k)} :: k in Keys(m) ==> Get(m, k) == Some(GroupTotals(s, key, w, k))
    requires key(x) !in Keys(m) ==> Filter(s, KeyIs(key, key(x))) == []
    ensures var m' := AddTo(m, key(x), w(x));
      forall k {:trigger Get(m', k)} :: k in Keys(m') ==> Get(m', k) == Some(GroupTotals(s + [x], key, w, k))
  {
    var m' := AddTo(m, key(x), w(x));
    forall k | k in Keys(m')
      ensures Get(m', k) == Some(GroupTotals(s + [x], key, w, k))
    {
      GroupStepAt(m, s, x, key, w, k);
    }
  }

  /** The sum of `w` over the elements of `s` whose key is `k`, and their number. */
  function GroupTotals<T, K(==)>(s: seq<T>, key: T -> K, w: T -> int, k: K): (int, nat)
  {
    var g := Filter(s, KeyIs(key, k));
    (Sum(g, w), |g|)
  }

  lemma GroupTotalsAppend<T, K>(s: seq<T>, x: T, key: T -> K, w: T -> int, k: K)
    ensures GroupTotals(s + [x], key, w, k) ==
      if key(x) == k then (GroupTotals(s, key, w, k).0 + w(x), GroupTotals(s, key, w, k).1 + 1)
      else GroupTotals(s, key, w, k)
  {
    var g := Filter(s, KeyIs(key, k));
    FilterAppend(s, [x], KeyIs(key, k));
    if key(x) == k {
      assert Filter([x], KeyIs(key, k)) == [x];
      SumAppend(g, [x], w);
    } else {
      assert Filter([x], KeyIs(key, k)) == [];
      assert g + [] == g;
    }
  }

  lemma GroupStepAt<T, K>(m: OMap<K, (int, nat)>, s: seq<T>, x: T, key: T -> K, w: T -> int, k: K)
    requires forall k {:trigger Get(m, k)} :: k in Keys(m) ==> Get(m, k) == Some(GroupTotals(s, key, w, k))
    requires key(x) !in Keys(m) ==> Filter(s, KeyIs(key, key(x))) == []
    requires k in Keys(AddTo(m, key(x), w(x)))
    ensures Get(AddTo(m, key(x), w(x)), k) == Some(GroupTotals(s + [x], key, w, k))
  {
    var m' := AddTo(m, key(x), w(x));
    var before := GroupTotals(s, key, w, k);
    GroupTotalsAppend(s, x, key, w, k);
    if k == key(x) {
      var cur := Get(m, k).GetOr((0, 0));
      if k in Keys(m) {
        assert Get(m, k) == Some(before);
      } else {
        assert Filter(s, KeyIs(key, k)) == [];
      }
      assert cur == before;
      assert Get(m', k).value == (before.0 + w(x), before.1 + 1);
    } else {
      assert k in Keys(m);
      assert Get(m', k) == Get(m, k) == Some(before);
    }
  }
}
