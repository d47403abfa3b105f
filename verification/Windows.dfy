/** Bounded deques, counts over them kept by eviction, and nearest-rank percentiles. */
module Windows {
  import opened Options

  // ------------------------------------------------------------ bounded deques

  /** The last *n* elements. */
  function Last<T>(s: seq<T>, n: nat): (r: seq<T>)
    ensures |r| == if |s| <= n then |s| else n
    ensures forall i :: 0 <= i < |r| ==> r[i] == s[|s| - |r| + i]
  {
    if |s| <= n then s else s[|s| - n..]
  }

  /** `append` on a deque of at most *n*: a full one loses its oldest element. */
  function Push<T>(w: seq<T>, n: nat, x: T): seq<T>
    requires n > 0 && |w| <= n
  {
    if |w| == n then w[1..] + [x] else w + [x]
  }

  lemma PushIsLast<T>(s: seq<T>, n: nat, x: T)
    requires n > 0
    ensures Push(Last(s, n), n, x) == Last(s + [x], n)
  {
  }

  // ------------------------------------------------------------ counting

  function CountIf<T>(p: T -> bool, s: seq<T>): (n: nat)
    ensures n <= |s|
  {
    if s == [] then 0 else (if p(s[0]) then 1 else 0) + CountIf(p, s[1..])
  }

  lemma {:induction false} CountAppend<T>(p: T -> bool, s: seq<T>, x: T)
    ensures CountIf(p, s + [x]) == CountIf(p, s) + (if p(x) then 1 else 0)
    decreases |s|
  {
    if s == [] {
      assert s + [x] == [x];
    } else {
      CountAppend(p, s[1..], x);
      assert (s + [x])[1..] == s[1..] + [x];
    }
  }

  /** A count kept by eviction: less what falls out, plus what comes in. */
  lemma CountPush<T>(p: T -> bool, w: seq<T>, n: nat, x: T)
    requires n > 0 && |w| <= n
    ensures CountIf(p, Push(w, n, x))
            == CountIf(p, w) - (if |w| == n && p(w[0]) then 1 else 0) + (if p(x) then 1 else 0)
  {
    CountAppend(p, if |w| == n then w[1..] else w, x);
  }

  function Is<K(==)>(k: K): K -> bool { x => x == k }

  /** How often each key occurs; a key that does not occur has no entry. */
  function Tally<K(==)>(keys: seq<K>): map<K, nat> {
    map k | k in keys :: CountIf(Is(k), keys)
  }

  lemma {:induction false} OccursIff<K>(keys: seq<K>, k: K)
    ensures k in keys <==> CountIf(Is(k), keys) > 0
    decreases |keys|
  {
    if keys != [] {
      assert keys == [keys[0]] + keys[1..];
      OccursIff(keys[1..], k);
    }
  }

  /** The counters after *evicted* fell out, if anything did, and *x* came in; no zero is kept. */
  function Retally<K(==)>(counts: map<K, nat>, evicted: Option<K>, x: K): map<K, nat>
    requires evicted.Some? ==> evicted.value in counts && counts[evicted.value] > 0
  {
    var left :=
      if evicted.None? then counts
      else if counts[evicted.value] == 1 then counts - {evicted.value}
      else counts[evicted.value := counts[evicted.value] - 1];
    left[x := Get(left, x).GetOr(0) + 1]
  }

  function Evicted<K>(keys: seq<K>, n: nat): Option<K>
    requires n > 0
  {
    if |keys| == n then Some(keys[0]) else None
  }

  lemma EvictedIsCounted<K>(keys: seq<K>, n: nat)
    requires n > 0 && |keys| <= n
    ensures var e := Evicted(keys, n);
            e.Some? ==> e.value in Tally(keys) && Tally(keys)[e.value] > 0
  {
    if |keys| == n { OccursIff(keys, keys[0]); }
  }

  /** An entry of a map of positive counts. */
  function Positive(n: int): Option<nat> { if n > 0 then Some(n) else None }

  lemma TallyOf<K>(keys: seq<K>, k: K)
    ensures Get(Tally(keys), k) == Positive(CountIf(Is(k), keys))
  {
    OccursIff(keys, k);
  }

  lemma RetallyPushAt<K>(keys: seq<K>, n: nat, x: K, k: K)
    requires n > 0 && |keys| <= n
    requires var e := Evicted(keys, n); e.Some? ==> e.value in Tally(keys) && Tally(keys)[e.value] > 0
    ensures Get(Retally(Tally(keys), Evicted(keys, n), x), k) == Get(Tally(Push(keys, n, x)), k)
  {
    TallyOf(keys, k);
    TallyOf(Push(keys, n, x), k);
    CountPush(Is(k), keys, n, x);
  }

  lemma SameMap<K, V>(a: map<K, V>, b: map<K, V>)
    requires forall k :: Get(a, k) == Get(b, k)
    ensures a == b
  {
    forall k ensures (k in a <==> k in b) && (k in a ==> a[k] == b[k]) { assert Get(a, k) == Get(b, k); }
  }

  /** Counters kept by eviction are the tally of what the window now holds. */
  lemma RetallyPush<K>(keys: seq<K>, n: nat, x: K)
    requires n > 0 && |keys| <= n
    requires var e := Evicted(keys, n); e.Some? ==> e.value in Tally(keys) && Tally(keys)[e.value] > 0
    ensures Retally(Tally(keys), Evicted(keys, n), x) == Tally(Push(keys, n, x))
  {
    forall k ensures Get(Retally(Tally(keys), Evicted(keys, n), x), k) == Get(Tally(Push(keys, n, x)), k) {
      RetallyPushAt(keys, n, x, k);
    }
    SameMap(Retally(Tally(keys), Evicted(keys, n), x), Tally(Push(keys, n, x)));
  }

  /** The decrement of what falls out, deleting a count that reaches zero, and the increment of what comes in. */
  method Update<K(==)>(counts: map<K, nat>, evicted: Option<K>, x: K) returns (r: map<K, nat>)
    requires evicted.Some? ==> evicted.value in counts && counts[evicted.value] > 0
    ensures r == Retally(counts, evicted, x)
  {
    r := counts;
    if evicted.Some? {
      r := r[evicted.value := r[evicted.value] - 1];
      if r[evicted.value] == 0 { r := r - {evicted.value}; }
    }
    r := r[x := Get(r, x).GetOr(0) + 1];
  }

  /** The counting steps around an `append` turn the tally of the window into that of the window after it. */
  method Recount<K(==)>(counts: map<K, nat>, keys: seq<K>, n: nat, x: K) returns (r: map<K, nat>)
    requires n > 0 && |keys| <= n && counts == Tally(keys)
    ensures r == Tally(Push(keys, n, x))
  {
    EvictedIsCounted(keys, n);
    RetallyPush(keys, n, x);
    r := Update(counts, Evicted(keys, n), x);
  }

  // ------------------------------------------------------------ percentiles

  predicate Ascending(s: seq<real>) {
    forall i, j :: 0 <= i < j < |s| ==> s[i] <= s[j]
  }

  function Insert(x: real, s: seq<real>): (r: seq<real>)
    requires Ascending(s)
    ensures Ascending(r) && |r| == |s| + 1
    ensures forall i :: 0 <= i < |r| ==> r[i] == x || r[i] in s
  {
    if s == [] then [x] else if x <= s[0] then [x] + s else [s[0]] + Insert(x, s[1..])
  }

  function Sorted(s: seq<real>): (r: seq<real>)
    ensures Ascending(r) && |r| == |s|
    ensures forall i :: 0 <= i < |r| ==> r[i] in s
  {
    if s == [] then [] else Insert(s[0], Sorted(s[1..]))
  }

  lemma {:induction false} InsertCounts(p: real -> bool, x: real, s: seq<real>)
    requires Ascending(s)
    ensures CountIf(p, Insert(x, s)) == CountIf(p, s) + (if p(x) then 1 else 0)
    decreases |s|
  {
    if s != [] && x > s[0] {
      InsertCounts(p, x, s[1..]);
      assert Insert(x, s)[1..] == Insert(x, s[1..]);
    } else {
      assert Insert(x, s)[1..] == s;
    }
  }

  /** Sorting keeps what the window holds: every property counts the same. */
  lemma {:induction false} SortedCounts(p: real -> bool, s: seq<real>)
    ensures CountIf(p, Sorted(s)) == CountIf(p, s)
    decreases |s|
  {
    if s != [] {
      SortedCounts(p, s[1..]);
      InsertCounts(p, s[0], Sorted(s[1..]));
    }
  }

  function Ceil(x: real): (r: int)
    ensures r as real >= x > r as real - 1.0
  {
    -(-x).Floor
  }

  /** The 1-based rank of percentile *p* in a window of *n*. */
  function Rank(n: nat, p: real): (r: nat)
    requires n > 0 && 0.0 <= p <= 1.0
    ensures 1 <= r <= n
  {
    assert n as real * p <= n as real;
    var k := Ceil(n as real * p);
    if k < 1 then 1 else k
  }

  /** `_calc_percentiles` for one percentile, before rounding. */
  function Percentile(w: seq<real>, p: real): (v: Option<real>)
    requires 0.0 <= p <= 1.0
  {
    if w == [] then None else Some(Sorted(w)[Rank(|w|, p) - 1])
  }

  function AtMost(v: real): real -> bool { x => x <= v }

  function Below(v: real): real -> bool { x => x < v }

  function Above(v: real): real -> bool { x => x > v }

  lemma {:induction false} CountSplit<T>(p: T -> bool, s: seq<T>, k: nat)
    requires k <= |s|
    ensures CountIf(p, s) == CountIf(p, s[..k]) + CountIf(p, s[k..])
    decreases k
  {
    if k > 0 {
      CountSplit(p, s[1..], k - 1);
      assert s[..k][1..] == s[1..][..k - 1] && s[k..] == s[1..][k - 1..];
    }
  }

  lemma {:induction false} CountAll<T>(p: T -> bool, s: seq<T>)
    requires forall i :: 0 <= i < |s| ==> p(s[i])
    ensures CountIf(p, s) == |s|
    decreases |s|
  {
    if s != [] { CountAll(p, s[1..]); }
  }

  lemma {:induction false} CountNone<T>(p: T -> bool, s: seq<T>)
    requires forall i :: 0 <= i < |s| ==> !p(s[i])
    ensures CountIf(p, s) == 0
    decreases |s|
  {
    if s != [] { CountNone(p, s[1..]); }
  }

  /** In an ascending sequence the entry at *k* has k + 1 entries no larger and at most k smaller. */
  lemma {:induction false} AscendingCounts(s: seq<real>, k: nat)
    requires Ascending(s) && k < |s|
    ensures CountIf(AtMost(s[k]), s) >= k + 1 && CountIf(Below(s[k]), s) <= k
  {
    var v := s[k];
    CountSplit(AtMost(v), s, k + 1);
    CountAll(AtMost(v), s[..k + 1]);
    CountSplit(Below(v), s, k);
    CountNone(Below(v), s[k..]);
  }

  /**
    A percentile is the nearest-rank value of its window: an entry of it with at
    least rank entries no larger and fewer than rank entries smaller.
  */
  lemma PercentileIsNearestRank(w: seq<real>, p: real)
    requires w != [] && 0.0 <= p <= 1.0
    ensures var v, rank := Percentile(w, p).value, Rank(|w|, p);
            v in w && CountIf(AtMost(v), w) >= rank && CountIf(Below(v), w) < rank
  {
    var s, k := Sorted(w), Rank(|w|, p) - 1;
    SortedCounts(AtMost(s[k]), w);
    SortedCounts(Below(s[k]), w);
    AscendingCounts(s, k);
  }

  lemma CeilGrows(x: real, y: real)
    requires x <= y
    ensures Ceil(x) <= Ceil(y)
  {
    assert Ceil(x) as real - 1.0 < Ceil(y) as real;
  }

  lemma Scales(n: real, p: real, q: real)
    requires n >= 0.0 && p <= q
    ensures n * p <= n * q
  {
  }

  /** Percentiles of one window are ordered as their *p* are. */
  lemma PercentilesOrdered(w: seq<real>, p: real, q: real)
    requires w != [] && 0.0 <= p <= q <= 1.0
    ensures Percentile(w, p).value <= Percentile(w, q).value
  {
    Scales(|w| as real, p, q);
    CeilGrows(|w| as real * p, |w| as real * q);
    assert Rank(|w|, p) <= Rank(|w|, q);
  }
}
