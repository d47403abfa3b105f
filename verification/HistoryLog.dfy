/**
  The history of one probe, kept in a bounded deque or in a Redis sorted set.
  Both are read as one log: the last *max* entries that are no older than the TTL.
*/
module HistoryLog {
  import opened Options
  import opened Windows

  datatype Entry = Entry(json: string)

  /** An entry and the moment its age counts from. */
  datatype Stamped = Stamped(at: real, entry: Entry)

  /** A TTL of 0 turns expiry by age off. */
  datatype Limits = Limits(max: nat, ttl: real) {
    predicate Valid() { max > 0 && ttl >= 0.0 }

    /** `now - at <= ttl`, or `at >= now - ttl`. */
    predicate Fresh(at: real, now: real) { ttl == 0.0 || now - at <= ttl }
  }

  // ------------------------------------------------------------ what a history is

  function FreshOnly(c: Limits, log: seq<Stamped>, now: real): seq<Stamped> {
    if log == [] then []
    else if c.Fresh(log[0].at, now) then [log[0]] + FreshOnly(c, log[1..], now)
    else FreshOnly(c, log[1..], now)
  }

  function Entries(log: seq<Stamped>): seq<Entry> {
    seq(|log|, i requires 0 <= i < |log| => log[i].entry)
  }

  /** The last *max* entries ever appended, oldest first, without those older than the TTL. */
  function Current(c: Limits, log: seq<Stamped>, now: real): seq<Entry> {
    Entries(FreshOnly(c, Last(log, c.max), now))
  }

  // ------------------------------------------------------------ tags

  /** One hexadecimal digit after another, most significant first: `format(n, "0{width}x")`. */
  function Hex(n: nat, width: nat): seq<nat> {
    if n < 16 && width <= 1 then [n] else Hex(n / 16, if width > 0 then width - 1 else 0) + [n % 16]
  }

  predicate LexLess(a: seq<nat>, b: seq<nat>) {
    if b == [] then false
    else if a == [] then true
    else a[0] < b[0] || (a[0] == b[0] && LexLess(a[1..], b[1..]))
  }

  function Power16(k: nat): nat {
    if k == 0 then 1 else 16 * Power16(k - 1)
  }

  lemma {:induction false} HexLength(n: nat, width: nat)
    requires width > 0 && n < Power16(width)
    ensures |Hex(n, width)| == width
    decreases width
  {
    if width > 1 { HexLength(n / 16, width - 1); }
  }

  lemma {:induction false} LexAppend(a: seq<nat>, b: seq<nat>, x: nat, y: nat)
    requires |a| == |b|
    ensures LexLess(a + [x], b + [y]) <==> LexLess(a, b) || (a == b && x < y)
    decreases |a|
  {
    if a != [] {
      LexAppend(a[1..], b[1..], x, y);
      assert (a + [x])[1..] == a[1..] + [x] && (b + [y])[1..] == b[1..] + [y];
      assert a == [a[0]] + a[1..] && b == [b[0]] + b[1..];
    }
  }

  /** Tags of one width sort as the numbers they are made of. */
  lemma {:induction false} TagsKeepOrder(a: nat, b: nat, width: nat)
    requires width > 0 && a < b < Power16(width)
    ensures LexLess(Hex(a, width), Hex(b, width))
    decreases width
  {
    if width > 1 {
      HexLength(a / 16, width - 1);
      HexLength(b / 16, width - 1);
      LexAppend(Hex(a / 16, width - 1), Hex(b / 16, width - 1), a % 16, b % 16);
      if a / 16 < b / 16 { TagsKeepOrder(a / 16, b / 16, width - 1); }
    }
  }

  lemma {:induction false} LeadingDigits(width: nat)
    requires width > 0
    ensures Power16(width) > 0
    ensures Hex(Power16(width) - 1, width) != [] && Hex(Power16(width) - 1, width)[0] == 15
    ensures Hex(Power16(width), width) != [] && Hex(Power16(width), width)[0] == 1
    decreases width
  {
    if width > 1 {
      LeadingDigits(width - 1);
      assert (Power16(width) - 1) / 16 == Power16(width - 1) - 1;
      assert Power16(width) / 16 == Power16(width - 1);
    }
  }

  /** The first number that needs one more digit sorts before its predecessor, and so not after it. */
  lemma TagsWrap(width: nat)
    requires width > 0
    ensures Power16(width) > 0
    ensures LexLess(Hex(Power16(width), width), Hex(Power16(width) - 1, width))
    ensures !LexLess(Hex(Power16(width) - 1, width), Hex(Power16(width), width))
  {
    LeadingDigits(width);
  }

  /** The tags of all numbers below *n* sort as the numbers do. */
  ghost predicate KeepOrder(n: nat, width: nat) {
    forall a: nat, b: nat :: a < b < n ==> LexLess(Hex(a, width), Hex(b, width))
  }

  /** They do exactly as long as every number fits the width. */
  lemma TagsKeepOrderIff(n: nat, width: nat)
    requires width > 0
    ensures KeepOrder(n, width) <==> n <= Power16(width)
  {
    if n <= Power16(width) {
      forall a: nat, b: nat | a < b < n ensures LexLess(Hex(a, width), Hex(b, width)) { TagsKeepOrder(a, b, width); }
    } else {
      TagsWrap(width);
    }
  }

  // ------------------------------------------------------------ a sorted set

  const TAG_WIDTH := 12

  /** `"<sequence number><token>:<json>"`; one instance's token is always the same. */
  datatype Member = Member(score: real, number: nat, entry: Entry)

  predicate Precedes(a: Member, b: Member) {
    a.score < b.score
    || (a.score == b.score && LexLess(Hex(a.number, TAG_WIDTH), Hex(b.number, TAG_WIDTH)))
  }

  /** `ZADD` of a member that is not there yet. */
  function ZAdd(z: seq<Member>, m: Member): seq<Member> {
    if z == [] || !Precedes(m, z[|z| - 1]) then z + [m] else ZAdd(z[..|z| - 1], m) + [z[|z| - 1]]
  }

  /** `ZREMRANGEBYSCORE -inf (cutoff`. */
  function ZRemBelow(z: seq<Member>, cutoff: real): seq<Member> {
    if z == [] then []
    else if z[0].score < cutoff then ZRemBelow(z[1..], cutoff)
    else [z[0]] + ZRemBelow(z[1..], cutoff)
  }

  /** `ZREMRANGEBYRANK 0 -(max + 1)`. */
  function ZKeepTop(z: seq<Member>, max: nat): seq<Member> { Last(z, max) }

  /** The members that `ZREVRANGEBYSCORE +inf cutoff` goes through, oldest first; no cutoff is `-inf`. */
  function ZAtLeast(z: seq<Member>, cutoff: Option<real>): seq<Member> {
    if cutoff.None? then z else ZRemBelow(z, cutoff.value)
  }

  function Reversed<T>(s: seq<T>): (r: seq<T>)
    ensures |r| == |s| && forall i :: 0 <= i < |s| ==> r[i] == s[|s| - 1 - i]
  {
    if s == [] then [] else Reversed(s[1..]) + [s[0]]
  }

  /** `ZREVRANGEBYSCORE +inf cutoff LIMIT 0 max`: newest first. */
  function ZRevRange(z: seq<Member>, cutoff: Option<real>, max: nat): seq<Member> {
    var found := Reversed(ZAtLeast(z, cutoff));
    if |found| <= max then found else found[..max]
  }

  lemma ReverseOfTop(z: seq<Member>, cutoff: Option<real>, max: nat)
    ensures Reversed(ZRevRange(z, cutoff, max)) == Last(ZAtLeast(z, cutoff), max)
  {
    var found, top := ZAtLeast(z, cutoff), ZRevRange(z, cutoff, max);
    assert |top| == |Last(found, max)|;
    assert forall i :: 0 <= i < |top| ==> top[i] == found[|found| - 1 - i];
  }

  // ------------------------------------------------------------ the sorted set holds the end of the log

  function Log(all: seq<Member>): seq<Stamped> {
    seq(|all|, i requires 0 <= i < |all| => Stamped(all[i].score, all[i].entry))
  }

  /** What was appended in order: neither scores nor numbers go back. */
  ghost predicate InOrder(all: seq<Member>) {
    && (forall i, j :: 0 <= i < j < |all| ==> all[i].score <= all[j].score && all[i].number < all[j].number)
    && (forall i :: 0 <= i < |all| ==> all[i].number < Power16(TAG_WIDTH))
  }

  /** What is gone could not be read any more: there are *max* newer ones, or it is older than the TTL. */
  ghost predicate Gone(c: Limits, all: seq<Member>, k: nat, now: real) {
    && k <= |all|
    && forall i :: 0 <= i < k ==> |all| - i > c.max || !c.Fresh(all[i].score, now)
  }

  lemma {:induction false} ZAddAtEnd(z: seq<Member>, m: Member)
    requires InOrder(z + [m])
    ensures ZAdd(z, m) == z + [m]
  {
    if z != [] {
      var last := z[|z| - 1];
      assert (z + [m])[|z| - 1] == last && (z + [m])[|z|] == m;
      NotBackwards(last, m);
    }
  }

  lemma NotBackwards(a: Member, b: Member)
    requires a.score <= b.score && a.number < b.number < Power16(TAG_WIDTH)
    ensures !Precedes(b, a)
  {
    TagsKeepOrder(a.number, b.number, TAG_WIDTH);
    Asymmetric(Hex(a.number, TAG_WIDTH), Hex(b.number, TAG_WIDTH));
  }

  lemma {:induction false} Asymmetric(a: seq<nat>, b: seq<nat>)
    requires LexLess(a, b)
    ensures !LexLess(b, a)
    decreases |a|
  {
    if a != [] && a[0] == b[0] { Asymmetric(a[1..], b[1..]); }
  }

  ghost predicate ByScore(z: seq<Member>) {
    forall i, j :: 0 <= i < j < |z| ==> z[i].score <= z[j].score
  }

  lemma {:induction false} NothingBelow(z: seq<Member>, cutoff: real)
    requires forall i :: 0 <= i < |z| ==> z[i].score >= cutoff
    ensures ZRemBelow(z, cutoff) == z
    decreases |z|
  {
    if z != [] { NothingBelow(z[1..], cutoff); }
  }

  /** Removing by score takes a first stretch of what is sorted. */
  lemma {:induction false} BelowIsStretch(z: seq<Member>, cutoff: real) returns (k: nat)
    requires ByScore(z)
    ensures k <= |z| && ZRemBelow(z, cutoff) == z[k..]
    ensures forall i :: 0 <= i < |z| ==> (z[i].score < cutoff <==> i < k)
    decreases |z|
  {
    if z == [] {
      k := 0;
    } else if z[0].score >= cutoff {
      k := 0;
      NothingBelow(z, cutoff);
    } else {
      var rest := z[1..];
      k := BelowIsStretch(rest, cutoff);
      assert rest[k..] == z[k + 1..];
      assert forall i :: 1 <= i < |z| ==> z[i] == rest[i - 1];
      k := k + 1;
    }
  }

  lemma {:induction false} FreshIsStretch(c: Limits, log: seq<Stamped>, now: real, f: nat)
    requires f <= |log| && forall i :: 0 <= i < |log| ==> (c.Fresh(log[i].at, now) <==> i >= f)
    ensures FreshOnly(c, log, now) == log[f..]
    decreases |log|
  {
    if log != [] {
      var rest := log[1..];
      assert forall i :: 0 <= i < |rest| ==> rest[i] == log[i + 1];
      if f == 0 {
        FreshIsStretch(c, rest, now, 0);
        assert log == [log[0]] + rest;
      } else {
        FreshIsStretch(c, rest, now, f - 1);
        assert rest[f - 1..] == log[f..];
      }
    }
  }

  /** Where what is fresh begins. */
  lemma FirstFresh(c: Limits, all: seq<Member>, now: real) returns (f: nat)
    requires c.Valid() && ByScore(all)
    ensures f <= |all| && forall i :: 0 <= i < |all| ==> (c.Fresh(all[i].score, now) <==> i >= f)
  {
    if c.ttl == 0.0 { f := 0; } else { f := BelowIsStretch(all, now - c.ttl); }
  }

  /** What a history is when nothing went back in time: its end, from the later of the two bounds. */
  lemma FreshOfLast(c: Limits, log: seq<Stamped>, now: real, f: nat)
    requires f <= |log| && forall i :: 0 <= i < |log| ==> (c.Fresh(log[i].at, now) <==> i >= f)
    ensures FreshOnly(c, Last(log, c.max), now) == log[if |log| - f > c.max then |log| - c.max else f..]
  {
    var cut := if |log| > c.max then |log| - c.max else 0;
    var g := if f > cut then f - cut else 0;
    assert Last(log, c.max) == log[cut..];
    FreshIsStretch(c, log[cut..], now, g);
  }

  lemma CurrentIsEnd(c: Limits, all: seq<Member>, now: real, f: nat)
    requires f <= |all| && forall i :: 0 <= i < |all| ==> (c.Fresh(all[i].score, now) <==> i >= f)
    ensures var from := if |all| - f > c.max then |all| - c.max else f;
            Current(c, Log(all), now) == Entries(Log(all))[from..]
  {
    FreshOfLast(c, Log(all), now, f);
    EntriesSlice(Log(all), if |all| - f > c.max then |all| - c.max else f);
  }

  lemma EntriesSlice(log: seq<Stamped>, k: nat)
    requires k <= |log|
    ensures Entries(log[k..]) == Entries(log)[k..]
  {
  }

  // ------------------------------------------------------------ writing and reading one key

  function Cutoff(c: Limits, now: real): Option<real> { if c.ttl > 0.0 then Some(now - c.ttl) else None }

  /** The transaction of `append_history` on the probe's key. */
  function Write(c: Limits, z: seq<Member>, m: Member, now: real): seq<Member> {
    ZKeepTop(ZAtLeast(ZAdd(z, m), Cutoff(c, now)), c.max)
  }

  /** What `get_history` makes of the reply. */
  function Read(c: Limits, z: seq<Member>, now: real): seq<Entry> {
    Entries(Log(Reversed(ZRevRange(z, Cutoff(c, now), c.max))))
  }

  lemma TrimIsEnd(c: Limits, z: seq<Member>, now: real) returns (k: nat)
    requires c.Valid() && ByScore(z)
    ensures k <= |z| && ZKeepTop(ZAtLeast(z, Cutoff(c, now)), c.max) == z[k..]
    ensures forall i :: 0 <= i < |z| ==> (i >= k <==> |z| - i <= c.max && c.Fresh(z[i].score, now))
  {
    var f := 0;
    if c.ttl > 0.0 { f := BelowIsStretch(z, now - c.ttl); }
    assert ZAtLeast(z, Cutoff(c, now)) == z[f..];
    k := if |z| - f > c.max then |z| - c.max else f;
  }

  predicate Readable(c: Limits, all: seq<Member>, i: nat, now: real)
    requires i < |all|
  {
    |all| - i <= c.max && c.Fresh(all[i].score, now)
  }

  lemma GoneFurther(c: Limits, all: seq<Member>, k: nat, l: nat, now: real)
    requires Gone(c, all, k, now) && l <= |all| && forall i: nat :: k <= i < l ==> !Readable(c, all, i, now)
    ensures Gone(c, all, l, now)
  {
    forall i: nat | i < l ensures |all| - i > c.max || !c.Fresh(all[i].score, now) {
      if k <= i { assert !Readable(c, all, i, now); }
    }
  }

  /** What the trimming leaves of an end of the log is what can be read of it. */
  lemma TrimmedEnd(c: Limits, all: seq<Member>, k: nat, j: nat, now: real)
    requires k <= |all| && j <= |all| - k
    requires forall i :: 0 <= i < |all| - k ==>
        (i >= j <==> |all| - k - i <= c.max && c.Fresh(all[k..][i].score, now))
    ensures all[k..][j..] == all[k + j..]
    ensures forall i: nat :: k <= i < |all| ==> (i >= k + j <==> Readable(c, all, i, now))
  {
    forall i: nat | k <= i < |all| ensures i >= k + j <==> Readable(c, all, i, now) {
      assert all[k..][i - k] == all[i];
    }
  }

  /** Pruning while writing takes away only what can no longer be read. */
  lemma WriteKeepsEnd(c: Limits, all: seq<Member>, k: nat, before: real, m: Member, now: real) returns (l: nat)
    requires c.Valid() && InOrder(all + [m]) && Gone(c, all, k, before) && before <= now
    ensures l <= |all| + 1 && Write(c, all[k..], m, now) == (all + [m])[l..] && Gone(c, all + [m], l, now)
  {
    var more := all + [m];
    assert all[k..] + [m] == more[k..];
    ZAddAtEnd(all[k..], m);
    var j := TrimIsEnd(c, more[k..], now);
    l := k + j;
    TrimmedEnd(c, more, k, j, now);
    GoneFurther(c, more, k, l, now);
  }

  /** What can be read begins at the same entry, whatever was pruned before. */
  lemma SameStart(c: Limits, all: seq<Member>, k: nat, before: real, now: real, from: nat, j: nat)
    requires Gone(c, all, k, before) && before <= now && from <= |all| && j <= |all| - k
    requires forall i: nat :: i < |all| ==> (i >= from <==> Readable(c, all, i, now))
    requires forall i: nat :: k <= i < |all| ==> (i >= k + j <==> Readable(c, all, i, now))
    ensures k + j == from
  {
    if k + j < |all| { assert Readable(c, all, k + j, now); }
    if k + j > 0 { assert !Readable(c, all, k + j - 1, now); }
  }

  lemma EntriesOfEnd(all: seq<Member>, k: nat)
    requires k <= |all|
    ensures Entries(Log(all[k..])) == Entries(Log(all))[k..]
  {
    assert Log(all[k..]) == Log(all)[k..];
    EntriesSlice(Log(all), k);
  }

  lemma ReadIsTop(c: Limits, z: seq<Member>, now: real)
    ensures Read(c, z, now) == Entries(Log(ZKeepTop(ZAtLeast(z, Cutoff(c, now)), c.max)))
  {
    ReverseOfTop(z, Cutoff(c, now), c.max);
  }

  lemma ReadFrom(c: Limits, all: seq<Member>, k: nat, now: real) returns (from: nat)
    requires c.Valid() && k <= |all| && ByScore(all)
    ensures k <= from <= |all| && Read(c, all[k..], now) == Entries(Log(all))[from..]
    ensures forall i: nat :: k <= i < |all| ==> (i >= from <==> Readable(c, all, i, now))
  {
    ReadIsTop(c, all[k..], now);
    var j := TrimIsEnd(c, all[k..], now);
    from := k + j;
    TrimmedEnd(c, all, k, j, now);
    EntriesOfEnd(all, from);
  }

  lemma CurrentFrom(c: Limits, all: seq<Member>, now: real) returns (from: nat)
    requires c.Valid() && ByScore(all)
    ensures from <= |all| && Current(c, Log(all), now) == Entries(Log(all))[from..]
    ensures forall i: nat :: i < |all| ==> (i >= from <==> Readable(c, all, i, now))
  {
    var f := FirstFresh(c, all, now);
    CurrentIsEnd(c, all, now, f);
    from := if |all| - f > c.max then |all| - c.max else f;
  }

  /** Reading the sorted set is reading the log. */
  lemma ReadIsCurrent(c: Limits, all: seq<Member>, k: nat, before: real, now: real)
    requires c.Valid() && ByScore(all) && Gone(c, all, k, before) && before <= now
    ensures Read(c, all[k..], now) == Current(c, Log(all), now)
  {
    var read := ReadFrom(c, all, k, now);
    var from := CurrentFrom(c, all, now);
    SameStart(c, all, k, before, now, from, read - k);
  }
}
