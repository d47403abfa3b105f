/**
  The two backends: deques in this process, and sorted sets in Redis with an
  index of names and an expiry of whole keys.  Both answer the same question.
*/
module HistoryStores {
  import opened Options
  import opened Windows
  import opened HistoryLog

  datatype Name = Name(text: string)

  // ------------------------------------------------------------ the answer

  /** The histories asked for that hold something: of *names* when given, else of every probe. */
  ghost function Answer(c: Limits, logs: map<Name, seq<Stamped>>, names: Option<set<Name>>, now: real)
    : map<Name, seq<Entry>>
  {
    map n | n in logs && (names.None? || n in names.value) && Current(c, logs[n], now) != [] :: Current(c, logs[n], now)
  }

  // ------------------------------------------------------------ in this process

  function Ats(log: seq<Stamped>): seq<real> {
    seq(|log|, i requires 0 <= i < |log| => log[i].at)
  }

  /** The comprehension of `get_history` over the two parallel deques. */
  function Unexpired(c: Limits, entries: seq<Entry>, times: seq<real>, now: real): seq<Entry>
    requires |entries| == |times|
  {
    if entries == [] then []
    else if now - times[0] <= c.ttl then [entries[0]] + Unexpired(c, entries[1..], times[1..], now)
    else Unexpired(c, entries[1..], times[1..], now)
  }

  lemma {:induction false} UnexpiredIsFresh(c: Limits, log: seq<Stamped>, now: real)
    requires c.ttl > 0.0
    ensures Unexpired(c, Entries(log), Ats(log), now) == Entries(FreshOnly(c, log, now))
    decreases |log|
  {
    if log != [] {
      UnexpiredIsFresh(c, log[1..], now);
      assert Entries(log)[1..] == Entries(log[1..]) && Ats(log)[1..] == Ats(log[1..]);
      assert c.Fresh(log[0].at, now) ==>
          Entries([log[0]] + FreshOnly(c, log[1..], now)) == [log[0].entry] + Entries(FreshOnly(c, log[1..], now));
    }
  }

  lemma FreshForever(c: Limits, log: seq<Stamped>, now: real)
    requires c.ttl == 0.0
    ensures FreshOnly(c, log, now) == log
  {
    FreshIsStretch(c, log, now, 0);
  }

  /** The two deques of one probe. */
  ghost predicate Holds(max: nat, h: seq<Entry>, t: seq<real>, log: seq<Stamped>) {
    h == Entries(Last(log, max)) && t == Ats(Last(log, max))
  }

  lemma EntriesPush(w: seq<Stamped>, max: nat, x: Stamped)
    requires max > 0 && |w| <= max
    ensures Entries(Push(w, max, x)) == Push(Entries(w), max, x.entry)
  {
  }

  lemma AtsPush(w: seq<Stamped>, max: nat, x: Stamped)
    requires max > 0 && |w| <= max
    ensures Ats(Push(w, max, x)) == Push(Ats(w), max, x.at)
  {
  }

  lemma HoldsMore(max: nat, h: seq<Entry>, t: seq<real>, log: seq<Stamped>, x: Stamped)
    requires max > 0 && Holds(max, h, t, log)
    ensures |h| <= max && |t| <= max && Holds(max, Push(h, max, x.entry), Push(t, max, x.at), log + [x])
  {
    PushIsLast(log, max, x);
    EntriesPush(Last(log, max), max, x);
    AtsPush(Last(log, max), max, x);
  }

  lemma HoldsLess(max: nat, h: seq<Entry>, t: seq<real>, log: seq<Stamped>, less: nat)
    requires Holds(max, h, t, log)
    ensures Holds(less, Last(h, less), Last(t, less), Last(Last(log, max), less))
  {
    var w := Last(log, max);
    assert Last(Last(w, less), less) == Last(w, less);
    assert Entries(Last(w, less)) == Last(Entries(w), less);
    assert Ats(Last(w, less)) == Last(Ats(w), less);
  }

  class InMemoryHistory {
    var limits: Limits
    var history: map<Name, seq<Entry>>
    var times: map<Name, seq<real>>
    /** What is retained of all that was appended: everything, as long as the limits stay. */
    ghost var logs: map<Name, seq<Stamped>>

    ghost predicate Parallel()
      reads this
    {
      && limits.Valid() && history.Keys == logs.Keys && times.Keys == logs.Keys
      && (forall n :: n in logs ==> Holds(limits.max, history[n], times[n], logs[n]))
    }

    constructor (limits: Limits)
      requires limits.Valid()
      ensures Parallel() && this.limits == limits && logs == map[]
    {
      this.limits, history, times, logs := limits, map[], map[], map[];
    }

    /** `append_history` of an entry already cut to size. */
    method Append(name: Name, entry: Entry, now: real)
      requires Parallel()
      modifies this
      ensures Parallel() && limits == old(limits)
      ensures logs == old(logs)[name := Get(old(logs), name).GetOr([]) + [Stamped(now, entry)]]
    {
      var h, t := Get(history, name).GetOr([]), Get(times, name).GetOr([]);
      ghost var log := Get(logs, name).GetOr([]);
      assert name !in logs ==> Holds(limits.max, [], [], []);
      HoldsMore(limits.max, h, t, log, Stamped(now, entry));
      history := history[name := Push(h, limits.max, entry)];
      times := times[name := Push(t, limits.max, now)];
      logs := logs[name := log + [Stamped(now, entry)]];
    }

    /** `get_history`. */
    method GetHistory(names: Option<set<Name>>, now: real) returns (out: map<Name, seq<Entry>>)
      requires Parallel()
      ensures out == Answer(limits, logs, names, now)
    {
      forall n | n in logs ensures Kept(n, now) == Current(limits, logs[n], now) { KeptIsCurrent(n, now); }
      out := map n | n in history && (names.None? || n in names.value) && Kept(n, now) != [] :: Kept(n, now);
    }

    function Kept(n: Name, now: real): seq<Entry>
      requires n in history && n in times && |history[n]| == |times[n]|
      reads this
    {
      if limits.ttl > 0.0 then Unexpired(limits, history[n], times[n], now) else history[n]
    }

    lemma KeptIsCurrent(n: Name, now: real)
      requires Parallel() && n in logs
      ensures n in history && n in times && |history[n]| == |times[n]|
      ensures Kept(n, now) == Current(limits, logs[n], now)
    {
      var last := Last(logs[n], limits.max);
      if limits.ttl > 0.0 { UnexpiredIsFresh(limits, last, now); } else { FreshForever(limits, last, now); }
    }

    /** `forget`: exactly the probes in *names*. */
    method Forget(names: set<Name>)
      requires Parallel()
      modifies this
      ensures Parallel() && limits == old(limits) && logs == old(logs) - names
    {
      history, times, logs := history - names, times - names, logs - names;
    }

    /** `configure`: the newest entries that still fit stay; what was evicted does not come back. */
    method Configure(limits: Limits)
      requires Parallel() && limits.Valid()
      modifies this
      ensures Parallel() && this.limits == limits
      ensures logs == map n | n in old(logs) :: Last(Last(old(logs)[n], old(this.limits.max)), limits.max)
    {
      ghost var before := this.limits.max;
      forall n | n in logs
        ensures Holds(limits.max, Last(history[n], limits.max), Last(times[n], limits.max),
                      Last(Last(logs[n], before), limits.max))
      {
        HoldsLess(before, history[n], times[n], logs[n], limits.max);
      }
      history := map n | n in history :: Last(history[n], limits.max);
      times := map n | n in times :: Last(times[n], limits.max);
      logs := map n | n in logs :: Last(Last(logs[n], before), limits.max);
      this.limits := limits;
    }
  }

  // ------------------------------------------------------------ one key of Redis

  const MARGIN: real := 60.0

  /** A sorted set and the moment at which Redis drops it, if it does. */
  datatype Stored = Stored(z: seq<Member>, expires: Option<real>)

  /** A TTL in whole milliseconds, as `PEXPIRE` wants it, with the margin; in seconds. */
  function Expiry(ttl: real): (e: real)
    ensures e > ttl
  {
    Ceil(ttl * 1000.0) as real / 1000.0 + MARGIN
  }

  function Expires(c: Limits, now: real): Option<real> { if c.ttl > 0.0 then Some(now + Expiry(c.ttl)) else None }

  predicate Expired(expires: Option<real>, now: real) { expires.Some? && now >= expires.value }

  function Live(key: Option<Stored>, now: real): seq<Member> {
    if key.None? || Expired(key.value.expires, now) then [] else key.value.z
  }

  /** The commands of `append_history` on the probe's key. */
  function AppendKey(c: Limits, key: Option<Stored>, m: Member, now: real): Stored {
    Stored(Write(c, Live(key, now), m, now), Expires(c, now))
  }

  /** A key that would be dropped holds nothing that is fresh by then. */
  ghost predicate Safe(c: Limits, all: seq<Member>, expires: Option<real>) {
    && (c.ttl == 0.0 ==> expires.None?)
    && (expires.Some? ==> forall i :: 0 <= i < |all| ==> all[i].score + c.ttl < expires.value)
  }

  /** The key holds the end of *all*, and what is missing could not be read at *now* or later. */
  ghost predicate KeyOf(c: Limits, key: Option<Stored>, all: seq<Member>, now: real) {
    && InOrder(all) && (forall i :: 0 <= i < |all| ==> all[i].score <= now)
    && (key.None? ==> all == [])
    && (key.Some? ==> Safe(c, all, key.value.expires) && EndOf(c, key.value.z, all, now))
  }

  ghost predicate EndOf(c: Limits, z: seq<Member>, all: seq<Member>, now: real) {
    |z| <= |all| && z == all[|all| - |z|..] && Gone(c, all, |all| - |z|, now)
  }

  lemma LiveIsEnd(c: Limits, key: Option<Stored>, all: seq<Member>, before: real, now: real)
    requires c.Valid() && KeyOf(c, key, all, before) && before <= now
    ensures EndOf(c, Live(key, now), all, now)
  {
    if key.Some? && Expired(key.value.expires, now) {
      assert forall i :: 0 <= i < |all| ==> !c.Fresh(all[i].score, now);
    }
  }

  lemma WriteIsEnd(c: Limits, z: seq<Member>, all: seq<Member>, m: Member, now: real)
    requires c.Valid() && EndOf(c, z, all, now) && InOrder(all + [m])
    ensures EndOf(c, Write(c, z, m, now), all + [m], now)
  {
    var l := WriteKeepsEnd(c, all, |all| - |z|, now, m, now);
  }

  lemma SafeFromNow(c: Limits, all: seq<Member>, now: real)
    requires c.Valid() && forall i :: 0 <= i < |all| ==> all[i].score <= now
    ensures Safe(c, all, Expires(c, now))
  {
  }

  lemma NoneAhead(all: seq<Member>, m: Member, before: real, now: real)
    requires (forall i :: 0 <= i < |all| ==> all[i].score <= before) && before <= now && m.score <= now
    ensures forall i :: 0 <= i < |all + [m]| ==> (all + [m])[i].score <= now
  {
  }

  lemma AppendKeyKeeps(c: Limits, key: Option<Stored>, all: seq<Member>, before: real, m: Member, now: real)
    requires c.Valid() && KeyOf(c, key, all, before) && before <= now && InOrder(all + [m]) && m.score <= now
    ensures KeyOf(c, Some(AppendKey(c, key, m, now)), all + [m], now)
  {
    LiveIsEnd(c, key, all, before, now);
    WriteIsEnd(c, Live(key, now), all, m, now);
    NoneAhead(all, m, before, now);
    SafeFromNow(c, all + [m], now);
  }

  /** What a read of the key gives is the history, whether or not the key has expired. */
  lemma ReadKeyIsCurrent(c: Limits, key: Option<Stored>, all: seq<Member>, before: real, now: real)
    requires c.Valid() && KeyOf(c, key, all, before) && before <= now
    ensures Read(c, Live(key, now), now) == Current(c, Log(all), now)
  {
    LiveIsEnd(c, key, all, before, now);
    ReadIsCurrent(c, all, |all| - |Live(key, now)|, now, now);
  }

  lemma KeyLater(c: Limits, key: Option<Stored>, all: seq<Member>, before: real, now: real)
    requires KeyOf(c, key, all, before) && before <= now
    ensures KeyOf(c, key, all, now)
  {
  }

  // ------------------------------------------------------------ the index of names

  /** `ZADD` and `ZREMRANGEBYSCORE` on the index; the order of names does not matter. */
  function Indexed(c: Limits, index: map<Name, real>, name: Name, now: real): map<Name, real> {
    var more := index[name := now];
    if c.ttl > 0.0 then map n | n in more && !(more[n] < now - c.ttl) :: more[n] else more
  }

  /** A probe that the index does not list has nothing that is fresh at *now* or later. */
  ghost predicate Listed(c: Limits, index: map<Name, real>, name: Name, all: seq<Member>, now: real) {
    forall i :: 0 <= i < |all| ==> if name in index then all[i].score <= index[name] else !c.Fresh(all[i].score, now)
  }

  lemma IndexedKeeps(c: Limits, index: map<Name, real>, written: Name, now: real, name: Name, all: seq<Member>,
                     before: real)
    requires c.Valid() && Listed(c, index, name, all, before) && before <= now
    requires forall i :: 0 <= i < |all| ==> all[i].score <= now
    ensures Listed(c, Indexed(c, index, written, now), name, all, now)
  {
  }

  lemma {:induction false} StaleIsEmpty(c: Limits, log: seq<Stamped>, now: real)
    requires forall i :: 0 <= i < |log| ==> !c.Fresh(log[i].at, now)
    ensures Current(c, log, now) == []
  {
    FreshIsStretch(c, Last(log, c.max), now, |Last(log, c.max)|);
  }

  // ------------------------------------------------------------ Redis

  /** What is stored about one probe, when *all* was appended for it up to *now*. */
  ghost predicate Keeps(c: Limits, key: Option<Stored>, index: map<Name, real>, indexExpires: Option<real>,
                        sequence: nat, name: Name, all: seq<Member>, now: real) {
    && KeyOf(c, key, all, now) && Listed(c, index, name, all, now) && Safe(c, all, indexExpires)
    && (forall i :: 0 <= i < |all| ==> all[i].number < sequence)
  }

  function LiveIndex(index: map<Name, real>, expires: Option<real>, now: real): map<Name, real> {
    if Expired(expires, now) then map[] else index
  }

  lemma LiveIndexLists(c: Limits, index: map<Name, real>, expires: Option<real>, name: Name, all: seq<Member>,
                       before: real, now: real)
    requires c.Valid() && Listed(c, index, name, all, before) && Safe(c, all, expires) && before <= now
    ensures Listed(c, LiveIndex(index, expires, now), name, all, now)
  {
  }

  /** The index of the last write lists what can be read, for every probe. */
  lemma IndexKeeps(c: Limits, key: Option<Stored>, index: map<Name, real>, expires: Option<real>, sequence: nat,
                   written: Name, name: Name, all: seq<Member>, before: real, now: real)
    requires c.Valid() && Keeps(c, key, index, expires, sequence, name, all, before) && before <= now
    ensures Keeps(c, key, Indexed(c, LiveIndex(index, expires, now), written, now), Expires(c, now), sequence, name,
                  all, now)
  {
    LiveIndexLists(c, index, expires, name, all, before, now);
    IndexedKeeps(c, LiveIndex(index, expires, now), written, now, name, all, now);
    KeyLater(c, key, all, before, now);
    SafeFromNow(c, all, now);
  }

  lemma WrittenIsListed(c: Limits, index: map<Name, real>, name: Name, all: seq<Member>, now: real)
    requires c.Valid() && forall i :: 0 <= i < |all| ==> all[i].score <= now
    ensures Listed(c, Indexed(c, index, name, now), name, all, now)
  {
  }

  lemma InOrderMore(all: seq<Member>, m: Member)
    requires InOrder(all) && m.number < Power16(TAG_WIDTH)
    requires forall i :: 0 <= i < |all| ==> all[i].score <= m.score && all[i].number < m.number
    ensures InOrder(all + [m])
  {
  }

  lemma NumbersBelow(all: seq<Member>, m: Member)
    requires forall i :: 0 <= i < |all| ==> all[i].number < m.number
    ensures forall i :: 0 <= i < |all + [m]| ==> (all + [m])[i].number < m.number + 1
  {
  }

  /** The key and the index once an entry was appended. */
  lemma AppendKeeps(c: Limits, key: Option<Stored>, index: map<Name, real>, expires: Option<real>, sequence: nat,
                    name: Name, all: seq<Member>, before: real, at: real, entry: Entry, now: real)
    requires c.Valid() && Keeps(c, key, index, expires, sequence, name, all, before) && before <= now && at <= now
    requires sequence < Power16(TAG_WIDTH) && forall i :: 0 <= i < |all| ==> all[i].score <= at
    ensures var m := Member(at, sequence, entry);
            Keeps(c, Some(AppendKey(c, key, m, now)), Indexed(c, LiveIndex(index, expires, now), name, now),
                  Expires(c, now), sequence + 1, name, all + [m], now)
  {
    var m := Member(at, sequence, entry);
    InOrderMore(all, m);
    NumbersBelow(all, m);
    NoneAhead(all, m, before, now);
    AppendKeyKeeps(c, key, all, before, m, now);
    SafeFromNow(c, all + [m], now);
    WrittenIsListed(c, LiveIndex(index, expires, now), name, all + [m], now);
  }

  function Logs(logs: map<Name, seq<Member>>): map<Name, seq<Stamped>> {
    map n | n in logs :: Log(logs[n])
  }

  /** All that was appended for a probe and not forgotten. */
  function All(logs: map<Name, seq<Member>>, name: Name): seq<Member> {
    if name in logs then logs[name] else []
  }

  /** An append means the same to both backends' logs. */
  lemma SameAppend(logs: map<Name, seq<Member>>, name: Name, m: Member)
    ensures Logs(logs[name := All(logs, name) + [m]])
            == Logs(logs)[name := Get(Logs(logs), name).GetOr([]) + [Stamped(m.score, m.entry)]]
  {
    assert Log(All(logs, name) + [m]) == Log(All(logs, name)) + [Stamped(m.score, m.entry)];
    assert Get(Logs(logs), name).GetOr([]) == Log(All(logs, name));
  }

  /** And so does forgetting. */
  lemma SameForget(logs: map<Name, seq<Member>>, names: set<Name>)
    ensures Logs(logs - names) == Logs(logs) - names
  {
  }

  /** What Redis holds under one prefix, and the instance's own counter. */
  datatype Server = Server(
    keys: map<Name, Stored>, index: map<Name, real>, indexExpires: Option<real>, sequence: nat)

  const EMPTY := Server(map[], map[], None, 0)

  ghost predicate KeepsName(c: Limits, s: Server, name: Name, all: seq<Member>, now: real) {
    Keeps(c, Get(s.keys, name), s.index, s.indexExpires, s.sequence, name, all, now)
  }

  /** Everything of *logs* that can be read at *now* or later is there to be found. */
  ghost predicate ServerOf(c: Limits, s: Server, logs: map<Name, seq<Member>>, now: real) {
    c.Valid() && forall n :: KeepsName(c, s, n, All(logs, n), now)
  }

  /** `_index`, in the transaction of every write. */
  function IndexName(c: Limits, s: Server, name: Name, now: real): Server {
    s.(index := Indexed(c, LiveIndex(s.index, s.indexExpires, now), name, now), indexExpires := Expires(c, now))
  }

  function Appended(c: Limits, s: Server, name: Name, at: real, entry: Entry, now: real): Server {
    var m := Member(at, s.sequence, entry);
    IndexName(c, s.(keys := s.keys[name := AppendKey(c, Get(s.keys, name), m, now)], sequence := s.sequence + 1),
              name, now)
  }

  /** With a TTL there is an expiry, at most the TTL and a little over a minute after *last*. */
  ghost predicate ExpiresBy(c: Limits, expires: Option<real>, last: real) {
    c.ttl > 0.0 ==> expires.Some? && expires.value <= last + c.ttl + 60.001
  }

  /**
    The store does not grow without limit: no key holds more than *max* members,
    each expires, and so does the index, which lists only names written within
    the TTL before the last write.
  */
  ghost predicate Bounded(c: Limits, s: Server, last: real) {
    && (forall n :: n in s.keys ==> |s.keys[n].z| <= c.max && ExpiresBy(c, s.keys[n].expires, last))
    && (s.index != map[] ==> ExpiresBy(c, s.indexExpires, last))
    && (c.ttl > 0.0 ==> forall n :: n in s.index ==> s.index[n] >= last - c.ttl)
  }

  lemma ExpiresSoon(c: Limits, now: real)
    requires c.Valid()
    ensures ExpiresBy(c, Expires(c, now), now)
  {
  }

  lemma IndexNameBounded(c: Limits, s: Server, name: Name, before: real, now: real)
    requires c.Valid() && Bounded(c, s, before) && before <= now
    ensures Bounded(c, IndexName(c, s, name, now), now)
  {
    ExpiresSoon(c, now);
  }

  lemma AppendedBounded(c: Limits, s: Server, name: Name, at: real, entry: Entry, before: real, now: real)
    requires c.Valid() && Bounded(c, s, before) && before <= now
    ensures Bounded(c, Appended(c, s, name, at, entry, now), now)
  {
    ExpiresSoon(c, now);
    var key := AppendKey(c, Get(s.keys, name), Member(at, s.sequence, entry), now);
    assert |key.z| <= c.max;
    var s1 := s.(keys := s.keys[name := key], sequence := s.sequence + 1);
    IndexNameBounded(c, s1.(keys := s.keys), name, before, now);
  }

  lemma ForgottenBounded(c: Limits, s: Server, names: set<Name>, last: real)
    requires Bounded(c, s, last)
    ensures Bounded(c, Forgotten(s, names), last)
  {
  }

  lemma OwnKeyKeeps(c: Limits, s: Server, all: seq<Member>, before: real, name: Name, at: real, entry: Entry, now: real)
    requires c.Valid() && KeepsName(c, s, name, all, before)
    requires before <= now && at <= now && s.sequence < Power16(TAG_WIDTH)
    requires forall i :: 0 <= i < |all| ==> all[i].score <= at
    ensures KeepsName(c, Appended(c, s, name, at, entry, now), name, all + [Member(at, s.sequence, entry)], now)
  {
    AppendKeeps(c, Get(s.keys, name), s.index, s.indexExpires, s.sequence, name, all, before, at, entry, now);
  }

  lemma OtherKeyKeeps(c: Limits, s: Server, other: Name, all: seq<Member>, before: real, name: Name, at: real,
                      entry: Entry, now: real)
    requires c.Valid() && KeepsName(c, s, other, all, before) && before <= now && other != name
    ensures KeepsName(c, Appended(c, s, name, at, entry, now), other, all, now)
  {
    IndexKeeps(c, Get(s.keys, other), s.index, s.indexExpires, s.sequence, name, other, all, before, now);
  }

  lemma AppendedKeeps(c: Limits, s: Server, logs: map<Name, seq<Member>>, before: real, name: Name, at: real,
                      entry: Entry, now: real)
    requires ServerOf(c, s, logs, before) && before <= now && at <= now && s.sequence < Power16(TAG_WIDTH)
    requires forall i :: 0 <= i < |All(logs, name)| ==> All(logs, name)[i].score <= at
    ensures ServerOf(c, Appended(c, s, name, at, entry, now),
                     logs[name := All(logs, name) + [Member(at, s.sequence, entry)]], now)
  {
    var t := Appended(c, s, name, at, entry, now);
    var more := logs[name := All(logs, name) + [Member(at, s.sequence, entry)]];
    forall n ensures KeepsName(c, t, n, All(more, n), now) {
      assert KeepsName(c, s, n, All(logs, n), before);
      if n == name {
        OwnKeyKeeps(c, s, All(logs, n), before, name, at, entry, now);
      } else {
        OtherKeyKeeps(c, s, n, All(logs, n), before, name, at, entry, now);
      }
    }
  }

  lemma IndexNameKeeps(c: Limits, s: Server, logs: map<Name, seq<Member>>, before: real, name: Name, now: real)
    requires ServerOf(c, s, logs, before) && before <= now
    ensures ServerOf(c, IndexName(c, s, name, now), logs, now)
  {
    forall n ensures KeepsName(c, IndexName(c, s, name, now), n, All(logs, n), now) {
      assert KeepsName(c, s, n, All(logs, n), before);
      IndexKeeps(c, Get(s.keys, n), s.index, s.indexExpires, s.sequence, name, n, All(logs, n), before, now);
    }
  }

  /** The names that `get_history` reads: those asked for, or those the index lists as written within the TTL. */
  function Selected(c: Limits, s: Server, names: Option<set<Name>>, now: real): set<Name> {
    if names.Some? then names.value
    else
      var live := LiveIndex(s.index, s.indexExpires, now);
      set n | n in live && (c.ttl > 0.0 ==> live[n] >= now - c.ttl)
  }

  function ReadName(c: Limits, s: Server, name: Name, now: real): seq<Entry> {
    Read(c, Live(Get(s.keys, name), now), now)
  }

  /** A probe that is not selected for all has no history that could be read. */
  lemma UnselectedIsEmpty(c: Limits, s: Server, all: seq<Member>, before: real, name: Name, now: real)
    requires c.Valid() && KeepsName(c, s, name, all, before) && before <= now && name !in Selected(c, s, None, now)
    ensures Current(c, Log(all), now) == []
  {
    LiveIndexLists(c, s.index, s.indexExpires, name, all, before, now);
    StaleIsEmpty(c, Log(all), now);
  }

  lemma ReadNameIsCurrent(c: Limits, s: Server, all: seq<Member>, before: real, name: Name, now: real)
    requires c.Valid() && KeepsName(c, s, name, all, before) && before <= now
    ensures ReadName(c, s, name, now) == Current(c, Log(all), now)
  {
    ReadKeyIsCurrent(c, Get(s.keys, name), all, before, now);
  }

  function Forgotten(s: Server, names: set<Name>): Server {
    s.(keys := s.keys - names, index := s.index - names)
  }

  lemma ForgottenKeepsName(c: Limits, s: Server, name: Name, all: seq<Member>, names: set<Name>, now: real)
    requires KeepsName(c, s, name, all, now)
    ensures KeepsName(c, Forgotten(s, names), name, if name in names then [] else all, now)
  {
  }

  lemma ForgottenKeeps(c: Limits, s: Server, logs: map<Name, seq<Member>>, names: set<Name>, now: real)
    requires ServerOf(c, s, logs, now)
    ensures ServerOf(c, Forgotten(s, names), logs - names, now)
  {
    forall n ensures KeepsName(c, Forgotten(s, names), n, All(logs - names, n), now) {
      assert KeepsName(c, s, n, All(logs, n), now);
      ForgottenKeepsName(c, s, n, All(logs, n), names, now);
    }
  }

  /** One answer, however it is asked for: each name's history, and for all names those that hold something. */
  lemma AnswerIsRead(c: Limits, s: Server, logs: map<Name, seq<Member>>, before: real, names: Option<set<Name>>,
                     name: Name, now: real)
    requires ServerOf(c, s, logs, before) && before <= now
    ensures var asked := name in logs && (names.None? || name in names.value);
            var current := Current(c, Log(All(logs, name)), now);
            && (name in Selected(c, s, names, now) && ReadName(c, s, name, now) != [] <==> asked && current != [])
            && ReadName(c, s, name, now) == current
  {
    assert KeepsName(c, s, name, All(logs, name), before);
    ReadNameIsCurrent(c, s, All(logs, name), before, name, now);
    if names.None? && name !in Selected(c, s, None, now) {
      UnselectedIsEmpty(c, s, All(logs, name), before, name, now);
    }
    if name !in logs { StaleIsEmpty(c, Log([]), now); }
  }

  class RedisHistory {
    const limits: Limits
    var keys: map<Name, Stored>
    var index: map<Name, real>
    var indexExpires: Option<real>
    var sequence: nat
    /** Everything appended and not forgotten, and the moment of the last command. */
    ghost var logs: map<Name, seq<Member>>
    ghost var last: real

    function View(): Server
      reads this
    {
      Server(keys, index, indexExpires, sequence)
    }

    ghost predicate Valid()
      reads this
    {
      ServerOf(limits, View(), logs, last) && Bounded(limits, View(), last)
    }

    constructor (limits: Limits)
      requires limits.Valid()
      ensures Valid() && this.limits == limits && logs == map[] && last == 0.0 && sequence == 0
    {
      this.limits, keys, index, indexExpires, sequence := limits, map[], map[], None, 0;
      logs, last := map[], 0.0;
    }

    /** `_index`, in the transaction of every write. */
    method IndexWrite(name: Name, now: real)
      modifies this`index, this`indexExpires
      ensures View() == IndexName(limits, old(View()), name, now)
    {
      if Expired(indexExpires, now) { index := map[]; }
      index := index[name := now];
      if limits.ttl > 0.0 {
        index := map n | n in index && !(index[n] < now - limits.ttl) :: index[n];
        indexExpires := Some(now + Expiry(limits.ttl));
      } else {
        indexExpires := None;
      }
    }

    /** `set_latest`, as far as the index goes. */
    method SetLatest(name: Name, now: real)
      requires Valid() && last <= now
      modifies this
      ensures Valid() && last == now && sequence == old(sequence) && logs == old(logs)
    {
      IndexNameKeeps(limits, View(), logs, last, name, now);
      IndexNameBounded(limits, View(), name, last, now);
      IndexWrite(name, now);
      last := now;
    }

    /** The transaction: the probe's key, and the index. */
    method Transact(name: Name, at: real, entry: Entry, now: real)
      modifies this`keys, this`sequence, this`index, this`indexExpires
      ensures View() == Appended(limits, old(View()), name, at, entry, now)
    {
      var m := Member(at, sequence, entry);
      keys, sequence := keys[name := AppendKey(limits, Get(keys, name), m, now)], sequence + 1;
      IndexWrite(name, now);
    }

    /** `append_history` of an entry already cut to size: *at* is when it was checked, *now* when it is written. */
    method Append(name: Name, at: real, entry: Entry, now: real)
      requires Valid() && last <= now && at <= now && sequence < Power16(TAG_WIDTH)
      requires forall i :: 0 <= i < |All(logs, name)| ==> All(logs, name)[i].score <= at
      modifies this
      ensures Valid() && last == now && sequence == old(sequence) + 1
      ensures logs == old(logs)[name := All(old(logs), name) + [Member(at, old(sequence), entry)]]
    {
      AppendedKeeps(limits, View(), logs, last, name, at, entry, now);
      AppendedBounded(limits, View(), name, at, entry, last, now);
      logs := logs[name := All(logs, name) + [Member(at, sequence, entry)]];
      Transact(name, at, entry, now);
      last := now;
    }

    /** `get_history`. */
    method GetHistory(names: Option<set<Name>>, now: real) returns (out: map<Name, seq<Entry>>)
      requires Valid() && last <= now
      ensures out == Answer(limits, Logs(logs), names, now)
    {
      var selected := Selected(limits, View(), names, now);
      out := map n | n in selected && ReadName(limits, View(), n, now) != [] :: ReadName(limits, View(), n, now);
      forall n ensures Get(out, n) == Get(Answer(limits, Logs(logs), names, now), n) {
        AnswerIsRead(limits, View(), logs, last, names, n, now);
      }
      SameMap(out, Answer(limits, Logs(logs), names, now));
    }

    /** `forget`: exactly the probes in *names*. */
    method Forget(names: set<Name>)
      requires Valid()
      modifies this
      ensures Valid() && last == old(last) && sequence == old(sequence) && logs == old(logs) - names
    {
      ForgottenKeeps(limits, View(), logs, names, last);
      ForgottenBounded(limits, View(), names, last);
      keys, index := keys - names, index - names;
      logs := logs - names;
    }
  }
}
