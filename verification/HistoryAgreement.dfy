/** Both backends under the same writes: whatever is asked, they answer alike. */
module HistoryAgreement {
  import opened Options
  import opened HistoryLog
  import opened HistoryStores

  /** A write to either backend at the moment *now*; *at* is the time an entry is filed under. */
  datatype Command =
    | AppendEntry(name: Name, entry: Entry, at: real, now: real)
    | KeepLatest(name: Name, now: real)
    | ForgetNames(names: set<Name>, now: real)

  /** What is appended and not forgotten. */
  ghost function Written(ws: seq<Command>): map<Name, seq<Stamped>> {
    if ws == [] then map[]
    else
      var logs := Written(ws[..|ws| - 1]);
      match ws[|ws| - 1]
      case AppendEntry(name, entry, at, _) => logs[name := Get(logs, name).GetOr([]) + [Stamped(at, entry)]]
      case KeepLatest(_, _) => logs
      case ForgetNames(names, _) => logs - names
  }

  function Appends(ws: seq<Command>): nat {
    if ws == [] then 0 else Appends(ws[..|ws| - 1]) + if ws[|ws| - 1].AppendEntry? then 1 else 0
  }

  lemma {:induction false} AppendsGrow(ws: seq<Command>, n: nat)
    requires n <= |ws|
    ensures Appends(ws[..n]) <= Appends(ws)
    decreases |ws|
  {
    if n < |ws| {
      AppendsGrow(ws[..|ws| - 1], n);
      assert ws[..|ws| - 1][..n] == ws[..n];
    } else {
      assert ws[..n] == ws;
    }
  }

  /** The clock does not go back, and entries of one probe are appended in the order of their times. */
  ghost predicate Timely(ws: seq<Command>) {
    && (forall i :: 0 <= i < |ws| ==> ws[i].now >= 0.0 && (ws[i].AppendEntry? ==> ws[i].at <= ws[i].now))
    && (forall i, j :: 0 <= i < j < |ws| ==> ws[i].now <= ws[j].now)
    && (forall i, j :: 0 <= i < j < |ws| && ws[i].AppendEntry? && ws[j].AppendEntry? && ws[i].name == ws[j].name ==>
          ws[i].at <= ws[j].at)
  }

  lemma {:induction false} WrittenUpTo(ws: seq<Command>, name: Name, at: real)
    requires forall i :: 0 <= i < |ws| && ws[i].AppendEntry? && ws[i].name == name ==> ws[i].at <= at
    ensures var log := Get(Written(ws), name).GetOr([]); forall k :: 0 <= k < |log| ==> log[k].at <= at
    decreases |ws|
  {
    if ws != [] {
      var before, w := ws[..|ws| - 1], ws[|ws| - 1];
      WrittenUpTo(before, name, at);
      if w.AppendEntry? && w.name == name {
        assert w.at <= at;
        assert Written(ws)[name] == Get(Written(before), name).GetOr([]) + [Stamped(w.at, w.entry)];
      } else {
        assert Get(Written(ws), name).GetOr([]) in {[], Get(Written(before), name).GetOr([])};
      }
    }
  }

  lemma LogOfAll(logs: map<Name, seq<Member>>, name: Name)
    ensures Get(Logs(logs), name).GetOr([]) == Log(All(logs, name))
  {
  }

  lemma InOrderSoFar(ws: seq<Command>, i: nat, logs: map<Name, seq<Member>>)
    requires Timely(ws) && i < |ws| && ws[i].AppendEntry? && Logs(logs) == Written(ws[..i])
    ensures forall k :: 0 <= k < |All(logs, ws[i].name)| ==> All(logs, ws[i].name)[k].score <= ws[i].at
  {
    var all := All(logs, ws[i].name);
    WrittenUpTo(ws[..i], ws[i].name, ws[i].at);
    LogOfAll(logs, ws[i].name);
    forall k | 0 <= k < |all| ensures all[k].score <= ws[i].at { assert Log(all)[k].at == all[k].score; }
  }

  /** What the next write adds. */
  lemma WrittenNext(ws: seq<Command>, i: nat)
    requires i < |ws|
    ensures var logs := Written(ws[..i]);
            Written(ws[..i + 1])
            == match ws[i]
               case AppendEntry(name, entry, at, _) => logs[name := Get(logs, name).GetOr([]) + [Stamped(at, entry)]]
               case KeepLatest(_, _) => logs
               case ForgetNames(names, _) => logs - names
    ensures Appends(ws[..i + 1]) == Appends(ws[..i]) + if ws[i].AppendEntry? then 1 else 0
    ensures Appends(ws[..i + 1]) <= Appends(ws)
  {
    assert ws[..i + 1][..i] == ws[..i];
    AppendsGrow(ws, i + 1);
  }

  /** The *i*th write, to both. */
  method WriteBoth(memory: InMemoryHistory, redis: RedisHistory, ws: seq<Command>, i: nat)
    requires Timely(ws) && i < |ws| && Appends(ws) <= Power16(TAG_WIDTH)
    requires memory.Parallel() && memory.logs == Written(ws[..i])
    requires redis.Valid() && Logs(redis.logs) == Written(ws[..i])
    requires redis.sequence == Appends(ws[..i]) && redis.last <= ws[i].now
    modifies memory, redis
    ensures memory.Parallel() && memory.limits == old(memory.limits) && memory.logs == Written(ws[..i + 1])
    ensures redis.Valid() && Logs(redis.logs) == Written(ws[..i + 1])
    ensures redis.sequence == Appends(ws[..i + 1]) && redis.last <= ws[i].now
  {
    WrittenNext(ws, i);
    match ws[i]
    case AppendEntry(name, entry, at, now) =>
      InOrderSoFar(ws, i, redis.logs);
      SameAppend(redis.logs, name, Member(at, redis.sequence, entry));
      memory.Append(name, entry, at);
      redis.Append(name, at, entry, now);
    case KeepLatest(name, now) =>
      redis.SetLatest(name, now);
    case ForgetNames(names, _) =>
      SameForget(redis.logs, names);
      memory.Forget(names);
      redis.Forget(names);
  }

  /** The moment of the latest of the first *i* writes. */
  function Moment(ws: seq<Command>, i: nat): real
    requires i <= |ws|
  {
    if i == 0 then 0.0 else ws[i - 1].now
  }

  lemma MomentsGrow(ws: seq<Command>, i: nat)
    requires Timely(ws) && i < |ws|
    ensures Moment(ws, i) <= ws[i].now == Moment(ws, i + 1)
  {
  }

  /** All of them, from two empty backends. */
  method WriteAll(limits: Limits, ws: seq<Command>) returns (memory: InMemoryHistory, redis: RedisHistory)
    requires limits.Valid() && Timely(ws) && Appends(ws) <= Power16(TAG_WIDTH)
    ensures memory.Parallel() && memory.limits == limits && memory.logs == Written(ws)
    ensures redis.Valid() && redis.limits == limits && Logs(redis.logs) == Written(ws)
    ensures redis.last <= Moment(ws, |ws|)
    ensures fresh(memory) && fresh(redis)
  {
    memory := new InMemoryHistory(limits);
    redis := new RedisHistory(limits);
    for i := 0 to |ws|
      invariant memory.Parallel() && memory.limits == limits && memory.logs == Written(ws[..i])
      invariant redis.Valid() && redis.limits == limits && Logs(redis.logs) == Written(ws[..i])
      invariant redis.sequence == Appends(ws[..i]) && redis.last <= Moment(ws, i)
      invariant fresh(memory) && fresh(redis)
    {
      MomentsGrow(ws, i);
      WriteBoth(memory, redis, ws, i);
    }
    assert ws[..|ws|] == ws;
  }

  /**
    Both backends answer alike, and as the writes say: after any writes, with
    the same times, whoever is asked for and whenever that is.
  */
  method SameAnswers(limits: Limits, ws: seq<Command>, names: Option<set<Name>>, now: real)
    returns (mine: map<Name, seq<Entry>>, theirs: map<Name, seq<Entry>>)
    requires limits.Valid() && Timely(ws) && Appends(ws) <= Power16(TAG_WIDTH)
    requires now >= 0.0 && forall i :: 0 <= i < |ws| ==> ws[i].now <= now
    ensures mine == theirs == Answer(limits, Written(ws), names, now)
  {
    var memory, redis := WriteAll(limits, ws);
    mine := memory.GetHistory(names, now);
    theirs := redis.GetHistory(names, now);
  }
}
