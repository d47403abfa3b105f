/**
  Background storage writes.  Each key has at most one writer task; a writer
  takes unwritten items until there are none and then unregisters itself.  A
  probe keeps only its newest unwritten result, the alert log its newest 256
  records.  Each event is one synchronous stretch of the event loop.
*/
module Writers {
  import opened Options

  datatype Name = Name(text: string)

  /** A probe's results, or the one log of alert records. */
  datatype Key = Results(probe: Name) | AlertLog

  /** The *number*th item submitted under its key. */
  datatype Item = Item(number: nat, payload: int)

  /** A task waits to start, waits for a write, or is done. */
  datatype Stage = Created | Writing(item: Item) | Done

  datatype Task = Task(key: Key, stage: Stage) {
    predicate Live() { !stage.Done? }
  }

  const MAX_UNWRITTEN_ALERTS := 256

  /** How many unwritten items a key keeps: a probe's newest result, the newest alert records. */
  function Capacity(k: Key): nat {
    if k.AlertLog? then MAX_UNWRITTEN_ALERTS else 1
  }

  /** What is unwritten under a key, oldest first, and three histories: submitted, attempted, dropped. */
  datatype Channel = Channel(unwritten: seq<Item>, submitted: seq<int>, attempted: seq<Item>, dropped: nat)

  const EMPTY := Channel([], [], [], 0)

  /** *stranded* is a history: the keys whose writer was cancelled since their last submission. */
  datatype State = State(
    channels: map<Key, Channel>,
    writers: map<Key, nat>,
    tasks: seq<Task>,
    stranded: set<Key>)

  const INITIAL := State(map[], map[], [], {})

  datatype Event =
    | Submit(key: Key, payload: int)
    | Advance(task: nat)
    | Cancel(task: nat)

  // ------------------------------------------------------------ steps

  function Of(s: State, k: Key): Channel {
    Get(s.channels, k).GetOr(EMPTY)
  }

  /** Beyond *capacity* the new item pushes out the oldest one. */
  function Push(c: Channel, capacity: nat, payload: int): Channel
    requires capacity > 0
  {
    var item := Item(|c.submitted|, payload);
    var c1 := c.(submitted := c.submitted + [payload]);
    if |c.unwritten| < capacity then c1.(unwritten := c.unwritten + [item])
    else c1.(unwritten := c.unwritten[1..] + [item], dropped := c.dropped + 1)
  }

  function Pop(c: Channel): Channel
    requires c.unwritten != []
  {
    c.(unwritten := c.unwritten[1..], attempted := c.attempted + [c.unwritten[0]])
  }

  function Add(s: State, k: Key, payload: int): State {
    s.(channels := s.channels[k := Push(Of(s, k), Capacity(k), payload)], stranded := s.stranded - {k})
  }

  /** A writer is started unless the registered one is still at work. */
  function WithWriter(s: State, k: Key): State {
    if k in s.writers && s.writers[k] < |s.tasks| && s.tasks[s.writers[k]].Live() then s
    else s.(writers := s.writers[k := |s.tasks|], tasks := s.tasks + [Task(k, Created)])
  }

  function Ended(s: State, t: nat, unregister: bool): State
    requires t < |s.tasks|
  {
    var k := s.tasks[t].key;
    s.(tasks := s.tasks[t := Task(k, Done)], writers := if unregister then s.writers - {k} else s.writers)
  }

  /** The writer's loop from a resumption to its next wait or its end; finding nothing it ends in the same stretch. */
  function Loop(s: State, t: nat): State
    requires t < |s.tasks|
  {
    var k := s.tasks[t].key;
    var c := Of(s, k);
    if c.unwritten == [] then Ended(s, t, true)
    else s.(channels := s.channels[k := Pop(c)], tasks := s.tasks[t := Task(k, Writing(c.unwritten[0]))])
  }

  predicate Enabled(s: State, e: Event) {
    match e
    case Submit(_, _) => true
    case Advance(t) => t < |s.tasks| && s.tasks[t].Live()
    case Cancel(t) => t < |s.tasks| && s.tasks[t].Live()
  }

  /** A task cancelled before it started never reaches the `finally` that unregisters it. */
  function Apply(s: State, e: Event): State {
    if !Enabled(s, e) then s else
    match e
    case Submit(k, payload) => WithWriter(Add(s, k, payload), k)
    case Advance(t) => Loop(s, t)
    case Cancel(t) => Ended(s, t, !s.tasks[t].stage.Created?).(stranded := s.stranded + {s.tasks[t].key})
  }

  function Run(es: seq<Event>): State {
    if es == [] then INITIAL else Apply(Run(es[..|es| - 1]), es[|es| - 1])
  }

  // ------------------------------------------------------------ invariant

  ghost predicate Increasing(items: seq<Item>) {
    forall i, j :: 0 <= i < j < |items| ==> items[i].number < items[j].number
  }

  /** The items are among those submitted, each under its own number. */
  ghost predicate Among(items: seq<Item>, submitted: seq<int>) {
    forall i :: 0 <= i < |items| ==> items[i].number < |submitted| && items[i].payload == submitted[items[i].number]
  }

  /** The items are the submissions from number *first* on. */
  ghost predicate Stretch(items: seq<Item>, first: int) {
    forall i :: 0 <= i < |items| ==> items[i].number == first + i
  }

  /**
    What is unwritten is the newest stretch of what was submitted; attempted
    writes come before it, in the order submitted, and the last one attempted
    is the last submitted once nothing is unwritten.
  */
  ghost predicate ChannelInv(c: Channel) {
    var done := |c.submitted| - |c.unwritten|;
    && Among(c.attempted, c.submitted) && Among(c.unwritten, c.submitted)
    && Increasing(c.attempted) && Stretch(c.unwritten, done)
    && (c.attempted != [] ==> c.attempted[|c.attempted| - 1].number < done)
    && (c.submitted != [] && c.unwritten == [] ==>
          c.attempted != [] && c.attempted[|c.attempted| - 1].number == |c.submitted| - 1)
    && |c.attempted| + c.dropped + |c.unwritten| == |c.submitted|
  }

  ghost predicate ChannelsInv(s: State) {
    forall k :: ChannelInv(Of(s, k)) && |Of(s, k).unwritten| <= Capacity(k)
  }

  ghost predicate Waiting(s: State, k: Key) {
    Of(s, k).unwritten != []
  }

  /** The writer registered for *k* is at work. */
  ghost predicate Served(s: State, k: Key) {
    k in s.writers && s.writers[k] < |s.tasks| && s.tasks[s.writers[k]] == Task(k, s.tasks[s.writers[k]].stage)
    && s.tasks[s.writers[k]].Live()
  }

  /** A key's live writer is the registered one, cancellations or not. */
  ghost predicate OwnWriters(s: State) {
    && (forall k :: k in s.writers ==> s.writers[k] < |s.tasks| && s.tasks[s.writers[k]].key == k)
    && (forall t :: 0 <= t < |s.tasks| && s.tasks[t].Live() ==> Get(s.writers, s.tasks[t].key) == Some(t))
  }

  /** What is unwritten has its writer exactly if none was cancelled since the last submission. */
  ghost predicate ServedUnlessStranded(s: State) {
    forall k :: (k in s.stranded ==> !Served(s, k)) && (Waiting(s, k) && k !in s.stranded ==> Served(s, k))
  }

  ghost predicate WritersInv(s: State) {
    OwnWriters(s) && ServedUnlessStranded(s)
  }

  ghost predicate Inv(s: State) {
    ChannelsInv(s) && WritersInv(s)
  }

  /** The new item goes after the unwritten ones, the oldest of which makes room for it when there are too many. */
  lemma PushShape(c: Channel, capacity: nat, payload: int)
    requires capacity > 0 && |c.unwritten| <= capacity
    ensures var d := Push(c, capacity, payload);
            var kept := if |c.unwritten| < capacity then c.unwritten else c.unwritten[1..];
            && d.unwritten == kept + [Item(|c.submitted|, payload)] && d.submitted == c.submitted + [payload]
            && d.attempted == c.attempted && d.dropped == c.dropped + |c.unwritten| - |kept|
  {
  }

  lemma StretchPush(items: seq<Item>, first: int, item: Item)
    requires Stretch(items, first) && item.number == first + |items|
    ensures Stretch(items + [item], first)
    ensures items != [] ==> Stretch(items[1..] + [item], first + 1)
  {
  }

  lemma AmongPush(items: seq<Item>, submitted: seq<int>, payload: int)
    requires Among(items, submitted)
    ensures Among(items, submitted + [payload])
    ensures Among(items + [Item(|submitted|, payload)], submitted + [payload])
    ensures items != [] ==> Among(items[1..] + [Item(|submitted|, payload)], submitted + [payload])
  {
  }

  lemma PushKeeps(c: Channel, capacity: nat, payload: int)
    requires ChannelInv(c) && |c.unwritten| <= capacity && capacity > 0
    ensures ChannelInv(Push(c, capacity, payload)) && |Push(c, capacity, payload).unwritten| <= capacity
  {
    var item := Item(|c.submitted|, payload);
    PushShape(c, capacity, payload);
    AmongPush(c.attempted, c.submitted, payload);
    AmongPush(c.unwritten, c.submitted, payload);
    StretchPush(c.unwritten, |c.submitted| - |c.unwritten|, item);
  }

  lemma {:induction false} PopKeeps(c: Channel)
    requires ChannelInv(c) && c.unwritten != []
    ensures ChannelInv(Pop(c))
  {
  }

  /** Channels are independent of one another. */
  lemma {:induction false} ChannelKeeps(s: State, k: Key, c: Channel)
    requires ChannelsInv(s) && ChannelInv(c) && |c.unwritten| <= Capacity(k)
    ensures ChannelsInv(s.(channels := s.channels[k := c]))
  {
    var t := s.(channels := s.channels[k := c]);
    forall j ensures ChannelInv(Of(t, j)) && |Of(t, j).unwritten| <= Capacity(j) {
      assert Of(t, j) == if j == k then c else Of(s, j);
    }
  }

  lemma WithWriterOwns(s: State, k: Key)
    requires OwnWriters(s)
    ensures OwnWriters(WithWriter(s, k)) && Served(WithWriter(s, k), k)
    ensures forall j :: j != k ==> (Served(WithWriter(s, k), j) <==> Served(s, j))
  {
  }

  lemma SubmitKeepsWriters(s: State, k: Key, payload: int)
    requires WritersInv(s)
    ensures WritersInv(Apply(s, Submit(k, payload)))
  {
    var v, u := Add(s, k, payload), Apply(s, Submit(k, payload));
    WithWriterOwns(v, k);
    forall j ensures (j in u.stranded ==> !Served(u, j)) && (Waiting(u, j) && j !in u.stranded ==> Served(u, j)) {
      if j != k { assert (Waiting(u, j) <==> Waiting(s, j)) && (Served(v, j) <==> Served(s, j)); }
    }
  }

  lemma AdvanceKeepsWriters(s: State, t: nat)
    requires WritersInv(s) && t < |s.tasks| && s.tasks[t].Live()
    ensures WritersInv(Loop(s, t))
  {
    var u, k := Loop(s, t), s.tasks[t].key;
    assert Served(s, k);
    assert OwnWriters(u);
    forall j ensures (j in u.stranded ==> !Served(u, j)) && (Waiting(u, j) && j !in u.stranded ==> Served(u, j)) {
      if j != k { assert (Waiting(u, j) <==> Waiting(s, j)) && (Served(u, j) <==> Served(s, j)); }
    }
  }

  lemma CancelKeepsWriters(s: State, t: nat)
    requires WritersInv(s) && t < |s.tasks| && s.tasks[t].Live()
    ensures WritersInv(Apply(s, Cancel(t)))
  {
    var u, k := Apply(s, Cancel(t)), s.tasks[t].key;
    assert OwnWriters(u);
    forall j ensures (j in u.stranded ==> !Served(u, j)) && (Waiting(u, j) && j !in u.stranded ==> Served(u, j)) {
      if j != k { assert (Waiting(u, j) <==> Waiting(s, j)) && (Served(u, j) <==> Served(s, j)); }
    }
  }

  lemma SubmitKeepsChannels(s: State, k: Key, payload: int)
    requires ChannelsInv(s)
    ensures ChannelsInv(Apply(s, Submit(k, payload)))
  {
    var c := Push(Of(s, k), Capacity(k), payload);
    PushKeeps(Of(s, k), Capacity(k), payload);
    ChannelKeeps(s, k, c);
    SameChannels(s.(channels := s.channels[k := c]), Apply(s, Submit(k, payload)));
  }

  lemma SubmitKeeps(s: State, k: Key, payload: int)
    requires Inv(s)
    ensures Inv(Apply(s, Submit(k, payload)))
  {
    SubmitKeepsChannels(s, k, payload);
    SubmitKeepsWriters(s, k, payload);
  }

  lemma AdvanceKeeps(s: State, t: nat)
    requires Inv(s) && t < |s.tasks| && s.tasks[t].Live()
    ensures Inv(Loop(s, t))
  {
    var u, k := Loop(s, t), s.tasks[t].key;
    if Waiting(s, k) {
      PopKeeps(Of(s, k));
      ChannelKeeps(s, k, Pop(Of(s, k)));
      SameChannels(s.(channels := s.channels[k := Pop(Of(s, k))]), u);
    } else {
      SameChannels(s, u);
    }
    AdvanceKeepsWriters(s, t);
  }

  lemma SameChannels(s: State, t: State)
    requires ChannelsInv(s) && s.channels == t.channels
    ensures ChannelsInv(t)
  {
    assert forall j :: Of(t, j) == Of(s, j);
  }

  lemma CancelKeeps(s: State, t: nat)
    requires Inv(s) && t < |s.tasks| && s.tasks[t].Live()
    ensures Inv(Apply(s, Cancel(t)))
  {
    CancelKeepsWriters(s, t);
    SameChannels(s, Apply(s, Cancel(t)));
  }

  lemma ApplyKeepsInv(s: State, e: Event)
    requires Inv(s)
    ensures Inv(Apply(s, e))
  {
    if Enabled(s, e) {
      match e
      case Submit(k, payload) => SubmitKeeps(s, k, payload);
      case Advance(t) => AdvanceKeeps(s, t);
      case Cancel(t) => CancelKeeps(s, t);
    }
  }

  lemma {:induction false} RunKeepsInv(es: seq<Event>)
    ensures Inv(Run(es))
    decreases |es|
  {
    if es != [] {
      RunKeepsInv(es[..|es| - 1]);
      ApplyKeepsInv(Run(es[..|es| - 1]), es[|es| - 1]);
    }
  }

  // ------------------------------------------------------------ what it gives

  /** In the run *es* a writer of *k* was cancelled and nothing submitted under *k* since. */
  predicate CancelledSince(es: seq<Event>, k: Key) {
    es != []
    && var before := es[..|es| - 1];
       match es[|es| - 1]
       case Submit(j, _) => j != k && CancelledSince(before, k)
       case Cancel(t) =>
         var s := Run(before);
         (t < |s.tasks| && s.tasks[t].Live() && s.tasks[t].key == k) || CancelledSince(before, k)
       case Advance(_) => CancelledSince(before, k)
  }

  lemma {:induction false} StrandedIff(es: seq<Event>, k: Key)
    ensures k in Run(es).stranded <==> CancelledSince(es, k)
    decreases |es|
  {
    if es != [] { StrandedIff(es[..|es| - 1], k); }
  }

  /**
    No wake-up is lost: an unwritten item has a live writer, the registered one
    and no other, if and only if none of its key was cancelled since the last
    submission.  Other keys' cancellations do not matter.
  */
  lemma NoLostWakeUp(es: seq<Event>, k: Key)
    ensures var s := Run(es);
            && (Waiting(s, k) ==> (Served(s, k) <==> !CancelledSince(es, k)))
            && forall t :: 0 <= t < |s.tasks| && s.tasks[t].Live() && s.tasks[t].key == k ==>
                 Get(s.writers, k) == Some(t)
  {
    RunKeepsInv(es);
    StrandedIff(es, k);
  }

  /** Attempted writes are submitted items in the order submitted, and each item dropped made room for a newer one. */
  lemma AttemptedInOrder(es: seq<Event>, k: Key)
    ensures var c := Of(Run(es), k);
            && Increasing(c.attempted) && Among(c.attempted, c.submitted) && |c.unwritten| <= Capacity(k)
            && |c.attempted| + c.dropped + |c.unwritten| == |c.submitted|
  {
    RunKeepsInv(es);
  }

  /** What was submitted under *k*, in order. */
  function Submitted(es: seq<Event>, k: Key): seq<int> {
    if es == [] then []
    else
      var e := es[|es| - 1];
      Submitted(es[..|es| - 1], k) + if e.Submit? && e.key == k then [e.payload] else []
  }

  /** A channel is moved by submissions under its key and by its writer, one item at a time. */
  lemma ChannelMoves(s: State, e: Event, k: Key)
    ensures var c, d := Of(s, k), Of(Apply(s, e), k);
            d == if e.Submit? && e.key == k then Push(c, Capacity(k), e.payload)
                 else if e.Advance? && Enabled(s, e) && s.tasks[e.task].key == k && c.unwritten != [] then Pop(c)
                 else c
  {
  }

  /** Every item was attempted, is unwritten, or was pushed out by as many newer ones as the key keeps. */
  ghost predicate KeepsWhatFits(c: Channel, capacity: nat) {
    forall j: nat :: j < |c.submitted| - |c.unwritten| ==> HasNumber(c.attempted, j) || j + capacity < |c.submitted|
  }

  predicate HasNumber(items: seq<Item>, j: nat) {
    exists i :: 0 <= i < |items| && items[i].number == j
  }

  lemma PushKeepsWhatFits(c: Channel, capacity: nat, payload: int)
    requires KeepsWhatFits(c, capacity) && capacity > 0 && |c.unwritten| <= capacity
    ensures KeepsWhatFits(Push(c, capacity, payload), capacity)
  {
    var d := Push(c, capacity, payload);
    forall j: nat | j < |d.submitted| - |d.unwritten|
      ensures HasNumber(d.attempted, j) || j + capacity < |d.submitted|
    {
      if j < |c.submitted| - |c.unwritten| { assert HasNumber(c.attempted, j) || j + capacity < |c.submitted|; }
    }
  }

  lemma PopKeepsWhatFits(c: Channel, capacity: nat)
    requires KeepsWhatFits(c, capacity) && ChannelInv(c) && c.unwritten != []
    ensures KeepsWhatFits(Pop(c), capacity)
  {
    var d := Pop(c);
    forall j: nat | j < |d.submitted| - |d.unwritten|
      ensures HasNumber(d.attempted, j) || j + capacity < |d.submitted|
    {
      if j < |c.submitted| - |c.unwritten| {
        if HasNumber(c.attempted, j) {
          var i :| 0 <= i < |c.attempted| && c.attempted[i].number == j;
          assert d.attempted[i].number == j;
        }
      } else {
        assert d.attempted[|c.attempted|].number == j;
      }
    }
  }

  /**
    Over every run each submission is accounted for: it was attempted, it is
    still unwritten, or it was pushed out, which takes 256 newer alert records
    or, for a result, one newer result of its probe.
  */
  lemma {:induction false} DroppedOnlyForNewer(es: seq<Event>, k: Key, j: nat)
    requires j < |Submitted(es, k)|
    ensures var c := Of(Run(es), k);
            && c.submitted == Submitted(es, k)
            && (HasNumber(c.attempted, j) || HasNumber(c.unwritten, j)
                || j + (if k.AlertLog? then 256 else 1) < |Submitted(es, k)|)
  {
    EverythingFits(es, k);
    RunKeepsInv(es);
    var c := Of(Run(es), k);
    assert ChannelInv(c);
    if j >= |c.submitted| - |c.unwritten| { assert c.unwritten[j - (|c.submitted| - |c.unwritten|)].number == j; }
  }

  lemma {:induction false} EverythingFits(es: seq<Event>, k: Key)
    ensures Of(Run(es), k).submitted == Submitted(es, k) && KeepsWhatFits(Of(Run(es), k), Capacity(k))
    decreases |es|
  {
    if es != [] {
      var s, e := Run(es[..|es| - 1]), es[|es| - 1];
      EverythingFits(es[..|es| - 1], k);
      assert ChannelInv(Of(s, k)) && |Of(s, k).unwritten| <= Capacity(k) by { RunKeepsInv(es[..|es| - 1]); }
      ChannelMoves(s, e, k);
      if e.Submit? && e.key == k {
        PushKeepsWhatFits(Of(s, k), Capacity(k), e.payload);
      } else if Of(s, k).unwritten != [] {
        PopKeepsWhatFits(Of(s, k), Capacity(k));
      }
    }
  }

  /** The newest result is never dropped: it is unwritten or was the last attempted. */
  lemma NewestIsKept(es: seq<Event>, k: Key)
    requires Of(Run(es), k).submitted != []
    ensures var c := Of(Run(es), k);
            var all := c.attempted + c.unwritten;
            all != [] && all[|all| - 1] == Item(|c.submitted| - 1, c.submitted[|c.submitted| - 1])
  {
    RunKeepsInv(es);
  }

  /**
    Flushing waits until no writer is registered.  Then the last submission of
    every key was attempted last, unless its writer was cancelled since, and no
    writer is at work.
  */
  lemma FlushedMeansAttempted(es: seq<Event>, k: Key)
    requires Run(es).writers == map[] && !CancelledSince(es, k)
    ensures var c := Of(Run(es), k);
            && c.unwritten == []
            && (c.submitted != [] ==>
                  c.attempted != []
                  && c.attempted[|c.attempted| - 1] == Item(|c.submitted| - 1, c.submitted[|c.submitted| - 1]))
    ensures forall t :: 0 <= t < |Run(es).tasks| ==> !Run(es).tasks[t].Live()
  {
    RunKeepsInv(es);
    NoLostWakeUp(es, k);
    assert Waiting(Run(es), k) ==> Served(Run(es), k);
    assert ChannelInv(Of(Run(es), k));
  }

  /** The writer registered for *k* has ended without unregistering. */
  predicate DeadEntry(s: State, k: Key) {
    k in s.writers && s.writers[k] < |s.tasks| && !s.tasks[s.writers[k]].Live()
  }

  /** In the run *es* a writer of *k* was cancelled before it started and nothing submitted under *k* since. */
  predicate CancelledEarly(es: seq<Event>, k: Key) {
    es != []
    && var before := es[..|es| - 1];
       match es[|es| - 1]
       case Submit(j, _) => j != k && CancelledEarly(before, k)
       case Cancel(t) =>
         var s := Run(before);
         || (t < |s.tasks| && s.tasks[t] == Task(k, Created))
         || CancelledEarly(before, k)
       case Advance(_) => CancelledEarly(before, k)
  }

  lemma SubmitRevives(s: State, k: Key, payload: int, j: Key)
    requires OwnWriters(s)
    ensures DeadEntry(Apply(s, Submit(k, payload)), j) <==> j != k && DeadEntry(s, j)
  {
  }

  lemma AdvanceLeavesDead(s: State, t: nat, k: Key)
    requires OwnWriters(s)
    ensures DeadEntry(Apply(s, Advance(t)), k) <==> DeadEntry(s, k)
  {
  }

  /**
    A key's entry outlives its writer if and only if one was cancelled before it
    started and nothing was submitted under the key since.  Until then flushing,
    which waits until there is no entry, does not end.
  */
  lemma {:induction false} DeadEntryIff(es: seq<Event>, k: Key)
    ensures DeadEntry(Run(es), k) <==> CancelledEarly(es, k)
    ensures CancelledEarly(es, k) ==> Run(es).writers != map[]
    decreases |es|
  {
    if es != [] {
      var before, e := es[..|es| - 1], es[|es| - 1];
      DeadEntryIff(before, k);
      assert OwnWriters(Run(before)) by { RunKeepsInv(before); }
      match e
      case Submit(j, payload) => SubmitRevives(Run(before), j, payload, k);
      case Advance(t) => AdvanceLeavesDead(Run(before), t, k);
      case Cancel(_) =>
    }
  }

  /** Every entry is that of a live writer or of one cancelled early, so flushing waits for nothing else. */
  lemma EntryIsLiveOrDead(es: seq<Event>, k: Key)
    requires k in Run(es).writers
    ensures Served(Run(es), k) <==> !CancelledEarly(es, k)
  {
    RunKeepsInv(es);
    DeadEntryIff(es, k);
  }

  /** A writer cancelled before it starts leaves an item nobody will write and an entry nobody will remove. */
  lemma {:induction false} CancelledEarlyStrands(k: Key, payload: int)
    ensures var s := Run([Submit(k, payload), Cancel(0)]);
            Waiting(s, k) && DeadEntry(s, k) && forall t :: 0 <= t < |s.tasks| ==> !s.tasks[t].Live()
  {
    var es := [Submit(k, payload), Cancel(0)];
    assert es[..1] == [Submit(k, payload)] && es[..1][..0] == [];
    assert Run(es[..1]) == Apply(INITIAL, Submit(k, payload));
    assert Run(es) == Apply(Run(es[..1]), Cancel(0));
  }

  // ------------------------------------------------------------ flushing

  /** Bounds how often a task can still move: once for each unwritten item of its key, and to its end. */
  function Weight(s: State, t: nat): nat
    requires t < |s.tasks|
  {
    if s.tasks[t].Live() then 1 + |Of(s, s.tasks[t].key).unwritten| else 0
  }

  function Unfinished(s: State, n: nat): nat
    requires n <= |s.tasks|
  {
    if n == 0 then 0 else Unfinished(s, n - 1) + Weight(s, n - 1)
  }

  lemma {:induction false} OneTaskMoved(s: State, u: State, n: nat, t: nat)
    requires n <= |s.tasks| == |u.tasks| && t < |s.tasks|
    requires forall j :: 0 <= j < |s.tasks| && j != t ==> Weight(u, j) == Weight(s, j)
    ensures Unfinished(u, n) + (if t < n then Weight(s, t) else 0)
            == Unfinished(s, n) + (if t < n then Weight(u, t) else 0)
  {
    if n > 0 { OneTaskMoved(s, u, n - 1, t); }
  }

  lemma AdvanceMovesOne(s: State, t: nat)
    requires OwnWriters(s) && t < |s.tasks| && s.tasks[t].Live()
    ensures var u := Loop(s, t);
            && |u.tasks| == |s.tasks| && Weight(u, t) < Weight(s, t)
            && forall j :: 0 <= j < |s.tasks| && j != t ==> Weight(u, j) == Weight(s, j)
  {
    var u := Loop(s, t);
    forall j | 0 <= j < |s.tasks| && j != t ensures Weight(u, j) == Weight(s, j) {
      assert s.tasks[j].Live() ==> s.tasks[j].key != s.tasks[t].key;
    }
  }

  /** Each move of a writer, without a new submission, leaves fewer to make. */
  lemma AdvanceFinishes(s: State, t: nat)
    requires OwnWriters(s) && t < |s.tasks| && s.tasks[t].Live()
    ensures var u := Loop(s, t); |u.tasks| == |s.tasks| && Unfinished(u, |u.tasks|) < Unfinished(s, |s.tasks|)
  {
    AdvanceMovesOne(s, t);
    OneTaskMoved(s, Loop(s, t), |s.tasks|, t);
  }

  function RunOn(s: State, more: seq<Event>): State
    decreases |more|
  {
    if more == [] then s else RunOn(Apply(s, more[0]), more[1..])
  }

  lemma {:induction false} RunGoesOn(es: seq<Event>, more: seq<Event>)
    ensures Run(es + more) == RunOn(Run(es), more)
    decreases |more|
  {
    if more == [] {
      assert es + more == es;
    } else {
      assert (es + [more[0]])[..|es|] == es;
      RunGoesOn(es + [more[0]], more[1..]);
      assert es + more == (es + [more[0]]) + more[1..];
    }
  }

  /** All of *more* are moves of writers at work. */
  ghost predicate OnlyWriters(s: State, more: seq<Event>)
    decreases |more|
  {
    more != [] ==> more[0].Advance? && Enabled(s, more[0]) && OnlyWriters(Apply(s, more[0]), more[1..])
  }

  predicate AllDone(s: State) {
    forall t :: 0 <= t < |s.tasks| ==> !s.tasks[t].Live()
  }

  /** Without new submissions the writers move at most *Unfinished* times, in whatever order. */
  lemma {:induction false} WritersFinish(s: State, more: seq<Event>)
    requires WritersInv(s) && OnlyWriters(s, more)
    ensures |more| <= Unfinished(s, |s.tasks|)
    decreases |more|
  {
    if more != [] {
      AdvanceFinishes(s, more[0].task);
      AdvanceKeepsWriters(s, more[0].task);
      WritersFinish(Apply(s, more[0]), more[1..]);
    }
  }

  /** They finish, and leave the entries of those cancelled early as they are. */
  lemma {:induction false} CanFinish(s: State) returns (more: seq<Event>)
    requires WritersInv(s)
    ensures var u := RunOn(s, more);
            && OnlyWriters(s, more) && AllDone(u) && WritersInv(u)
            && forall k :: DeadEntry(u, k) <==> DeadEntry(s, k)
    decreases Unfinished(s, |s.tasks|)
  {
    if AllDone(s) {
      more := [];
    } else {
      var t :| 0 <= t < |s.tasks| && s.tasks[t].Live();
      AdvanceFinishes(s, t);
      AdvanceKeepsWriters(s, t);
      forall k ensures DeadEntry(Loop(s, t), k) <==> DeadEntry(s, k) { AdvanceLeavesDead(s, t, k); }
      var rest := CanFinish(Loop(s, t));
      more := [Advance(t)] + rest;
      assert more[1..] == rest;
    }
  }

  /** With no writer at work the table is empty exactly if no entry outlived its writer. */
  lemma DoneMeansEmpty(s: State)
    requires OwnWriters(s) && AllDone(s)
    ensures s.writers == map[] <==> forall k :: !DeadEntry(s, k)
  {
    if s.writers != map[] {
      var k :| k in s.writers;
      assert DeadEntry(s, k);
    }
  }

  /**
    From any moment on, without new submissions, the writers finish within
    *Unfinished* moves.  Then no writer is registered, which is what a flush
    waits for, if and only if none was cancelled before it started with nothing
    submitted under its key since.
  */
  lemma FlushEnds(es: seq<Event>) returns (more: seq<Event>)
    ensures OnlyWriters(Run(es), more) && |more| <= Unfinished(Run(es), |Run(es).tasks|) && AllDone(Run(es + more))
    ensures Run(es + more).writers == map[] <==> forall k :: !CancelledEarly(es, k)
  {
    assert WritersInv(Run(es)) by { RunKeepsInv(es); }
    more := CanFinish(Run(es));
    WritersFinish(Run(es), more);
    RunGoesOn(es, more);
    var s := Run(es + more);
    DoneMeansEmpty(s);
    if s.writers == map[] {
      forall k ensures !CancelledEarly(es, k) {
        assert !DeadEntry(s, k);
        DeadEntryIff(es, k);
      }
    } else {
      var k :| DeadEntry(s, k);
      DeadEntryIff(es, k);
      assert CancelledEarly(es, k);
    }
  }

  // ------------------------------------------------------------ the registry's own methods

  class Background {
    var unwritten: map<Key, Item>
    var unwrittenAlerts: seq<Item>
    var writers: map<Key, nat>
    ghost var tasks: seq<Task>
    ghost var channels: map<Key, Channel>
    ghost var stranded: set<Key>

    ghost function View(): State
      reads this
    {
      State(channels, writers, tasks, stranded)
    }

    /** The dictionary and the deque hold what the channels say is unwritten. */
    ghost predicate Valid()
      reads this
    {
      && (forall k :: k in unwritten ==> k.Results?)
      && (forall k: Key :: k.Results? ==> Of(View(), k).unwritten == if k in unwritten then [unwritten[k]] else [])
      && Of(View(), AlertLog).unwritten == unwrittenAlerts
      && |unwrittenAlerts| <= MAX_UNWRITTEN_ALERTS
      && (forall k :: k in writers ==> writers[k] < |tasks|)
    }

    constructor ()
      ensures Valid() && View() == INITIAL
    {
      unwritten, unwrittenAlerts, writers := map[], [], map[];
      tasks, channels, stranded := [], map[], {};
    }

    /** `_start_writer`: *live* is whether the registered task is still at work, *newTask* the one created otherwise. */
    method StartWriter(k: Key, live: bool, newTask: nat)
      requires Valid() && newTask == |tasks|
      requires live <==> k in writers && tasks[writers[k]].Live()
      modifies this`writers, this`tasks
      ensures Valid() && View() == WithWriter(old(View()), k)
    {
      if !live {
        writers, tasks := writers[k := newTask], tasks + [Task(k, Created)];
      }
    }

    /** `_store_result` for a backend written in the background. */
    method StoreResult(k: Key, result: Item, live: bool, newTask: nat)
      requires Valid() && k.Results? && newTask == |tasks| && result.number == |Of(View(), k).submitted|
      requires live <==> k in writers && tasks[writers[k]].Live()
      modifies this
      ensures Valid() && View() == Apply(old(View()), Submit(k, result.payload))
    {
      unwritten := unwritten[k := result];
      channels, stranded := channels[k := Push(Of(View(), k), Capacity(k), result.payload)], stranded - {k};
      StartWriter(k, live, newTask);
    }

    /** `_store_alert`: the deque drops its oldest record when it is full. */
    method StoreAlert(alert: Item, live: bool, newTask: nat)
      requires Valid() && newTask == |tasks| && alert.number == |Of(View(), AlertLog).submitted|
      requires live <==> AlertLog in writers && tasks[writers[AlertLog]].Live()
      modifies this
      ensures Valid() && View() == Apply(old(View()), Submit(AlertLog, alert.payload))
    {
      if |unwrittenAlerts| == MAX_UNWRITTEN_ALERTS {
        unwrittenAlerts := unwrittenAlerts[1..];
      }
      unwrittenAlerts := unwrittenAlerts + [alert];
      channels := channels[AlertLog := Push(Of(View(), AlertLog), Capacity(AlertLog), alert.payload)];
      stranded := stranded - {AlertLog};
      StartWriter(AlertLog, live, newTask);
    }

    /** `_drain_results` from one resumption to its next wait (an item to write) or its end. */
    method DrainResults(k: Key, ghost task: nat) returns (next: Option<Item>)
      requires Valid() && k.Results? && task < |tasks| && tasks[task].key == k && tasks[task].Live()
      modifies this
      ensures Valid() && View() == Apply(old(View()), Advance(task))
      ensures next == if k in old(unwritten) then Some(old(unwritten)[k]) else None
    {
      if k in unwritten {
        next := Some(unwritten[k]);
        unwritten := unwritten - {k};
        channels := channels[k := Pop(Of(View(), k))];
        tasks := tasks[task := Task(k, Writing(next.value))];
      } else {
        next := None;
        writers := writers - {k};
        tasks := tasks[task := Task(k, Done)];
      }
    }

    /** `_drain_alerts`, the same for the alert log. */
    method DrainAlerts(ghost task: nat) returns (next: Option<Item>)
      requires Valid() && task < |tasks| && tasks[task].key == AlertLog && tasks[task].Live()
      modifies this
      ensures Valid() && View() == Apply(old(View()), Advance(task))
      ensures next == if old(unwrittenAlerts) != [] then Some(old(unwrittenAlerts)[0]) else None
    {
      if unwrittenAlerts != [] {
        next := Some(unwrittenAlerts[0]);
        unwrittenAlerts := unwrittenAlerts[1..];
        channels := channels[AlertLog := Pop(Of(View(), AlertLog))];
        tasks := tasks[task := Task(AlertLog, Writing(next.value))];
      } else {
        next := None;
        writers := writers - {AlertLog};
        tasks := tasks[task := Task(AlertLog, Done)];
      }
    }
  }
}
