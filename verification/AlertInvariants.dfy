/** What every step of the alert pipeline keeps, and the lemmas that it does. */
module AlertInvariants {
  import opened Options
  import opened AlertPipeline

  // ------------------------------------------------------------ histories

  /** The alerts of *log* about probe *n*, in order. */
  function Of(log: seq<Sent>, n: Name): (r: seq<Sent>)
    ensures forall i :: 0 <= i < |r| ==> r[i].alert.probe == n
  {
    if log == [] then []
    else
      var last := log[|log| - 1];
      Of(log[..|log| - 1], n) + (if last.alert.probe == n then [last] else [])
  }

  lemma OfAppend(log: seq<Sent>, x: Sent, n: Name)
    ensures Of(log + [x], n) == Of(log, n) + (if x.alert.probe == n then [x] else [])
  {
    assert (log + [x])[..|log|] == log;
  }

  /** Each alert changes the status, starting from the one before it, and HEALTHY comes first. */
  ghost predicate Chain(h: seq<Sent>) {
    && (forall i :: 0 <= i < |h| ==> h[i].alert.before != h[i].alert.after)
    && (h != [] ==> h[0].alert.before == Healthy)
    && (forall i, j :: 0 <= i < j < |h| && j == i + 1 ==> h[j].alert.before == h[i].alert.after)
  }

  ghost predicate Spaced(h: seq<Sent>, interval: real) {
    forall i, j :: 0 <= i < j < |h| && j == i + 1 ==> h[j].at - h[i].at >= interval
  }

  /** The alerts among the queued items, in order. */
  function Alerts(queue: seq<Option<Alert>>): seq<Alert> {
    if queue == [] then []
    else (if queue[0].Some? then [queue[0].value] else []) + Alerts(queue[1..])
  }

  lemma {:induction false} AlertsAppend(queue: seq<Option<Alert>>, x: Option<Alert>)
    ensures Alerts(queue + [x]) == Alerts(queue) + (if x.Some? then [x.value] else [])
    decreases |queue|
  {
    if queue == [] {
      assert queue + [x] == [x];
    } else {
      var rest := queue[1..];
      var head, tail := if queue[0].Some? then [queue[0].value] else [], if x.Some? then [x.value] else [];
      AlertsAppend(rest, x);
      assert (queue + [x])[1..] == rest + [x];
      assert head + (Alerts(rest) + tail) == (head + Alerts(rest)) + tail;
    }
  }

  function Stripped(log: seq<Sent>): (r: seq<Alert>)
    ensures |r| == |log|
    ensures forall i :: 0 <= i < |log| ==> r[i] == log[i].alert
  {
    seq(|log|, i requires 0 <= i < |log| => log[i].alert)
  }

  // ------------------------------------------------------------ invariant

  /** What holds of one probe: its history and what the registry remembers of it. */
  ghost predicate ProbeInv(c: Config, clock: real, b: Book, n: Name) {
    var h := Of(b.log, n);
    && Chain(h)
    && Spaced(h, c.minInterval)
    && Announced(b, n) == (if h == [] then Healthy else h[|h| - 1].alert.after)
    && (n in b.lastSent <==> h != [])
    && (h != [] ==> b.lastSent[n] == h[|h| - 1].at && h[|h| - 1].at <= clock)
    && Ripe(c, clock, b, n)
    && (n in b.pending || n in b.firing ==> n in b.states)
  }

  ghost predicate ProbesInv(c: Config, registered: set<Name>, clock: real, b: Book) {
    forall n :: n in registered ==> ProbeInv(c, clock, b, n)
  }

  /** A marker falls due exactly one interval after the probe's last alert. */
  ghost predicate MarkersExact(c: Config, b: Book) {
    forall n :: n in b.pending ==> n in b.lastSent && b.pending[n] == b.lastSent[n] + c.minInterval
  }

  ghost predicate FiringInv(b: Book) {
    forall n :: n in b.firing ==>
      var f := b.firing[n];
      && (n in b.states ==> b.states[n] == f.status)
      && (f.transition.Some? ==> f.transition.value.probe == n && f.transition.value.after == f.status)
  }

  /** A probe whose alerters are behind has a marker, or was refused by a full queue, silenced or cut off. */
  ghost predicate Accounted(c: Config, b: Book, n: Name) {
    c.hasAlerters && n in b.states ==>
      Announced(b, n) == b.states[n] || n in b.pending || n in b.refused || n in b.muted || n in b.cut
  }

  /** An alert refused by a full queue was not too soon, and time only moves on. */
  ghost predicate Ripe(c: Config, clock: real, b: Book, n: Name) {
    n in b.refused && n in b.lastSent ==> clock - b.lastSent[n] >= c.minInterval
  }

  /** The same of every probe not being checked right now, except *n*. */
  ghost predicate CoveredBut(c: Config, b: Book, n: Option<Name>) {
    forall p :: p !in b.firing && n != Some(p) ==> Accounted(c, b, p)
  }

  ghost predicate BookInv(c: Config, registered: set<Name>, clock: real, b: Book, but: Option<Name>) {
    ProbesInv(c, registered, clock, b) && MarkersExact(c, b) && FiringInv(b) && CoveredBut(c, b, but)
  }

  /** What was taken followed by what is queued is exactly what was ever queued. */
  ghost predicate Fifo(l: Line, log: seq<Sent>) {
    l.taken + Alerts(l.queue) == Stripped(log) && |l.queue| <= QUEUE_SIZE
  }

  /** A waiting worker has something to take or wakes before every marker falls due. */
  ghost predicate Awake(l: Line, pending: map<Name, real>) {
    l.worker.Waiting? && l.queue == [] ==>
      forall n :: n in pending ==> l.worker.until.Some? && l.worker.until.value <= pending[n]
  }

  /** Until the first shutdown, whatever needs the worker finds it there. */
  ghost predicate Attended(l: Line, pending: map<Name, real>) {
    !l.everShutDown ==> !l.shuttingDown && (pending != map[] || l.queue != [] ==> !l.worker.Absent?)
  }

  ghost predicate LineInv(l: Line, b: Book) {
    Fifo(l, b.log) && Awake(l, b.pending) && Attended(l, b.pending)
  }

  /** The invariant, with *but* excused from being accounted for in the middle of a step. */
  ghost predicate InvBut(c: Config, registered: set<Name>, s: State, but: Option<Name>) {
    c.Valid() && BookInv(c, registered, s.clock, s.book, but) && LineInv(s.line, s.book)
  }

  ghost predicate Inv(c: Config, registered: set<Name>, s: State) {
    InvBut(c, registered, s, None)
  }

  // ------------------------------------------------------------ the line keeps its invariant

  lemma {:induction false} WakeKeeps(l: Line, log: seq<Sent>)
    requires Fifo(l, log)
    ensures Fifo(Wake(l), log) && Wake(l).queue != []
  {
    AlertsAppend(l.queue, None);
    assert Alerts(l.queue) + [] == Alerts(l.queue);
  }

  lemma {:induction false} PutKeeps(l: Line, log: seq<Sent>, x: Sent)
    requires Fifo(l, log) && |l.queue| < QUEUE_SIZE
    ensures Fifo(Put(l, x.alert), log + [x])
  {
    AlertsAppend(l.queue, Some(x.alert));
    assert Stripped(log + [x]) == Stripped(log) + [x.alert];
    assert l.taken + (Alerts(l.queue) + [x.alert]) == (l.taken + Alerts(l.queue)) + [x.alert];
  }

  lemma {:induction false} TakeKeeps(l: Line, log: seq<Sent>)
    requires Fifo(l, log) && l.queue != []
    ensures Fifo(Take(l), log)
  {
    var rest := Alerts(l.queue[1..]);
    if l.queue[0].Some? {
      assert l.taken + ([l.queue[0].value] + rest) == (l.taken + [l.queue[0].value]) + rest;
    } else {
      assert [] + rest == rest;
    }
  }

  // ------------------------------------------------------------ the outcomes of a send keep the invariant

  lemma SettleKeeps(c: Config, registered: set<Name>, s: State, n: Name)
    requires InvBut(c, registered, s, Some(n))
    requires n in s.book.states ==> s.book.states[n] == Announced(s.book, n)
    ensures Inv(c, registered, s.(book := Settle(s.book, n)))
  {
    var t := Settle(s.book, n);
    forall p | p !in t.firing ensures Accounted(c, t, p) { assert p != n ==> Accounted(c, s.book, p); }
    forall p | p in registered ensures ProbeInv(c, s.clock, t, p) { assert ProbeInv(c, s.clock, s.book, p); }
  }

  lemma ClearKeeps(c: Config, registered: set<Name>, s: State, n: Name)
    requires InvBut(c, registered, s, Some(n)) && n in s.book.pending
    ensures Inv(c, registered, s.(book := Clear(s.book, n)))
  {
    var t := Clear(s.book, n);
    forall p | p !in t.firing ensures Accounted(c, t, p) { assert p != n ==> Accounted(c, s.book, p); }
    forall p | p in registered ensures ProbeInv(c, s.clock, t, p) { assert ProbeInv(c, s.clock, s.book, p); }
  }

  lemma HoldKeeps(c: Config, registered: set<Name>, s: State, n: Name)
    requires InvBut(c, registered, s, Some(n)) && n in s.book.lastSent && (n in registered ==> n in s.book.states)
    ensures Inv(c, registered, s.(book := Mark(c, s.book, n), line := Wake(s.line)))
  {
    var t := Mark(c, s.book, n);
    forall p | p !in t.firing ensures Accounted(c, t, p) { assert p != n ==> Accounted(c, s.book, p); }
    forall p | p in registered ensures ProbeInv(c, s.clock, t, p) { assert ProbeInv(c, s.clock, s.book, p); }
    WakeKeeps(s.line, s.book.log);
  }

  lemma RefuseKeeps(c: Config, registered: set<Name>, s: State, n: Name)
    requires InvBut(c, registered, s, Some(n))
    requires n in registered && n in s.book.lastSent ==> s.clock - s.book.lastSent[n] >= c.minInterval
    ensures Inv(c, registered, s.(book := Refuse(s.book, n), line := EnsureWorker(s.line)))
  {
    var t := Refuse(s.book, n);
    forall p | p !in t.firing ensures Accounted(c, t, p) { assert p != n ==> Accounted(c, s.book, p); }
    forall p | p in registered ensures ProbeInv(c, s.clock, t, p) { assert ProbeInv(c, s.clock, s.book, p); }
  }

  lemma MuteKeeps(c: Config, registered: set<Name>, s: State, n: Name)
    requires InvBut(c, registered, s, Some(n))
    ensures Inv(c, registered, s.(book := Mute(s.book, n)))
  {
    var t := Mute(s.book, n);
    forall p | p !in t.firing ensures Accounted(c, t, p) { assert p != n ==> Accounted(c, s.book, p); }
    forall p | p in registered ensures ProbeInv(c, s.clock, t, p) { assert ProbeInv(c, s.clock, s.book, p); }
  }

  lemma {:induction false} ChainExtends(h: seq<Sent>, x: Sent, interval: real)
    requires Chain(h) && Spaced(h, interval)
    requires x.alert.before != x.alert.after
    requires x.alert.before == (if h == [] then Healthy else h[|h| - 1].alert.after)
    requires h != [] ==> x.at - h[|h| - 1].at >= interval
    ensures Chain(h + [x]) && Spaced(h + [x], interval)
  {
  }

  /** The alert queued for its own probe continues that probe's chain, far enough from the last. */
  lemma {:induction false} RecordExtends(c: Config, clock: real, b: Book, alert: Alert)
    requires c.Valid() && ProbeInv(c, clock, b, alert.probe)
    requires alert.before == Announced(b, alert.probe) != alert.after
    requires alert.probe in b.lastSent ==> clock - b.lastSent[alert.probe] >= c.minInterval
    ensures ProbeInv(c, clock, Record(b, alert, clock), alert.probe)
  {
    var h, x, t := Of(b.log, alert.probe), Sent(alert, clock), Record(b, alert, clock);
    ChainExtends(h, x, c.minInterval);
    assert Of(t.log, alert.probe) == h + [x] by { OfAppend(b.log, x, alert.probe); }
    assert Announced(t, alert.probe) == alert.after;
  }

  lemma {:induction false} RecordFrames(c: Config, clock: real, b: Book, alert: Alert, p: Name)
    requires ProbeInv(c, clock, b, p) && p != alert.probe
    ensures ProbeInv(c, clock, Record(b, alert, clock), p)
  {
    OfAppend(b.log, Sent(alert, clock), p);
  }

  lemma {:induction false} QueueKeeps(c: Config, registered: set<Name>, s: State, alert: Alert)
    requires InvBut(c, registered, s, Some(alert.probe)) && |EnsureWorker(s.line).queue| < QUEUE_SIZE
    requires alert.before == Announced(s.book, alert.probe) != alert.after
    requires alert.probe in registered && alert.probe in s.book.lastSent ==>
               s.clock - s.book.lastSent[alert.probe] >= c.minInterval
    requires alert.probe in s.book.states ==> s.book.states[alert.probe] == alert.after
    ensures Inv(c, registered, s.(book := Record(s.book, alert, s.clock), line := Put(EnsureWorker(s.line), alert)))
  {
    var b, t := s.book, Record(s.book, alert, s.clock);
    forall p | p in registered ensures ProbeInv(c, s.clock, t, p) {
      assert ProbeInv(c, s.clock, b, p);
      if p == alert.probe { RecordExtends(c, s.clock, b, alert); } else { RecordFrames(c, s.clock, b, alert, p); }
    }
    forall p | p !in t.firing ensures Accounted(c, t, p) { assert p != alert.probe ==> Accounted(c, b, p); }
    PutKeeps(EnsureWorker(s.line), b.log, Sent(alert, s.clock));
  }

  // ------------------------------------------------------------ every step keeps the invariant

  lemma SendKeeps(c: Config, registered: set<Name>, s: State, n: Name, status: Status,
                  transition: Option<Alert>, due: bool)
    requires InvBut(c, registered, s, Some(n))
    requires transition.Some? ==> transition.value.probe == n && transition.value.after == status
    requires due && n in s.book.lastSent ==> s.clock - s.book.lastSent[n] >= c.minInterval
    requires if n in s.book.states then s.book.states[n] == status else n !in registered
    ensures Inv(c, registered, Send(c, s, n, status, transition, due))
  {
    var sent, l := Announced(s.book, n), EnsureWorker(s.line);
    if sent == status {
      SettleKeeps(c, registered, s, n);
    } else if !due && TooSoon(c, s, n) {
      if n in s.book.pending { ClearKeeps(c, registered, s, n); } else { HoldKeeps(c, registered, s, n); }
    } else if |l.queue| >= QUEUE_SIZE {
      assert n in registered ==> ProbeInv(c, s.clock, s.book, n);
      RefuseKeeps(c, registered, s, n);
    } else {
      assert n in registered ==> ProbeInv(c, s.clock, s.book, n);
      QueueKeeps(c, registered, s, RecordFor(sent, n, status, transition));
    }
  }

  lemma FireBeginKeeps(c: Config, registered: set<Name>, s: State, n: Name, status: Status)
    requires Inv(c, registered, s)
    ensures Inv(c, registered, FireBegin(s, n, status))
  {
    var t := FireBegin(s, n, status);
    forall p | p in registered ensures ProbeInv(c, t.clock, t.book, p) { assert ProbeInv(c, s.clock, s.book, p); }
    forall p | p !in t.book.firing ensures Accounted(c, t.book, p) { assert Accounted(c, s.book, p); }
  }

  lemma FiredKeeps(c: Config, registered: set<Name>, s: State, n: Name)
    requires Inv(c, registered, s)
    ensures InvBut(c, registered, s.(book := Fired(s.book, n)), Some(n))
  {
    var t := Fired(s.book, n);
    forall p | p in registered ensures ProbeInv(c, s.clock, t, p) { assert ProbeInv(c, s.clock, s.book, p); }
    forall p | p !in t.firing && p != n ensures Accounted(c, t, p) { assert Accounted(c, s.book, p); }
  }

  lemma CutOffKeeps(c: Config, registered: set<Name>, s: State, n: Name)
    requires Inv(c, registered, s)
    ensures Inv(c, registered, s.(book := CutOff(s.book, n)))
  {
    var t := CutOff(s.book, n);
    forall p | p in registered ensures ProbeInv(c, s.clock, t, p) { assert ProbeInv(c, s.clock, s.book, p); }
    forall p | p !in t.firing ensures Accounted(c, t, p) { assert p != n ==> Accounted(c, s.book, p); }
  }

  lemma FireEndKeeps(c: Config, registered: set<Name>, s: State, n: Name)
    requires Inv(c, registered, s) && n in s.book.firing
    ensures Inv(c, registered, FireEnd(c, s, n))
  {
    var f, s1 := s.book.firing[n], s.(book := Fired(s.book, n));
    FiredKeeps(c, registered, s, n);
    assert n in registered ==> ProbeInv(c, s.clock, s.book, n);
    if c.hasAlerters && !f.silenced {
      SendKeeps(c, registered, s1, n, f.status, f.transition, false);
    } else {
      MuteKeeps(c, registered, s1, n);
    }
  }

  lemma UnmarkKeeps(c: Config, registered: set<Name>, s: State, n: Name)
    requires Inv(c, registered, s)
    ensures InvBut(c, registered, s.(book := s.book.(pending := s.book.pending - {n})), Some(n))
  {
    var t := s.book.(pending := s.book.pending - {n});
    forall p | p in registered ensures ProbeInv(c, s.clock, t, p) { assert ProbeInv(c, s.clock, s.book, p); }
    forall p | p !in t.firing && p != n ensures Accounted(c, t, p) { assert Accounted(c, s.book, p); }
  }

  lemma SendIfDueKeeps(c: Config, registered: set<Name>, s: State, n: Name)
    requires Inv(c, registered, s)
    ensures Inv(c, registered, SendIfDue(c, s, n))
  {
    if n in s.book.pending && s.book.pending[n] <= s.clock {
      var s1 := s.(book := s.book.(pending := s.book.pending - {n}));
      UnmarkKeeps(c, registered, s, n);
      if n in s.book.states && c.hasAlerters && s.maintenance.None? {
        SendKeeps(c, registered, s1, n, s.book.states[n], None, true);
      } else {
        MuteKeeps(c, registered, s1, n);
      }
    }
  }

  lemma {:induction false} DuePassKeeps(c: Config, registered: set<Name>, s: State, order: seq<Name>)
    requires Inv(c, registered, s)
    ensures Inv(c, registered, DuePass(c, s, order))
    decreases |order|
  {
    if order != [] {
      SendIfDueKeeps(c, registered, s, order[0]);
      DuePassKeeps(c, registered, SendIfDue(c, s, order[0]), order[1..]);
    }
  }

  lemma LoopTopKeeps(c: Config, registered: set<Name>, s: State, order: seq<Name>)
    requires Inv(c, registered, s) && !s.line.worker.Absent?
    ensures Inv(c, registered, LoopTop(c, s, order))
  {
    var s1 := if s.book.pending == map[] then s else Lapse(s);
    var s2 := s1.(line := s1.line.(worker := Busy));
    assert Inv(c, registered, s2);
    DuePassKeeps(c, registered, s2, order);
  }

  lemma ForgetKeeps(c: Config, registered: set<Name>, s: State, names: set<Name>)
    requires Inv(c, registered, s) && names !! registered
    ensures Inv(c, registered, s.(book := Forget(s.book, names)))
  {
    var t := Forget(s.book, names);
    forall p | p in registered ensures ProbeInv(c, s.clock, t, p) { assert ProbeInv(c, s.clock, s.book, p); }
    forall p | p !in t.firing ensures Accounted(c, t, p) { assert Accounted(c, s.book, p); }
  }

  lemma TickKeeps(c: Config, registered: set<Name>, s: State, elapsed: real)
    requires Inv(c, registered, s) && elapsed >= 0.0
    ensures Inv(c, registered, s.(clock := s.clock + elapsed))
  {
    var t := s.clock + elapsed;
    forall p | p in registered ensures ProbeInv(c, t, s.book, p) { assert ProbeInv(c, s.clock, s.book, p); }
  }

  lemma ApplyKeeps(c: Config, registered: set<Name>, s: State, e: Event)
    requires Inv(c, registered, s)
    ensures Inv(c, registered, Apply(c, registered, s, e))
  {
    if Enabled(registered, s, e) {
      match e
      case CheckBegins(n, status) => FireBeginKeeps(c, registered, s, n, status);
      case CheckEnds(n) => FireEndKeeps(c, registered, s, n);
      case CheckCut(n) => CutOffKeeps(c, registered, s, n);
      case NoDataCheck =>
      case MaintenanceOn(until) =>
      case MaintenanceOff =>
      case Tick(d) => TickKeeps(c, registered, s, d);
      case WorkerLoops(order) => LoopTopKeeps(c, registered, s, order);
      case WorkerTakes => TakeKeeps(s.line, s.book.log);
      case Unregister(names) => ForgetKeeps(c, registered, s, names);
      case _ =>
    }
  }

  /** The invariant holds after every run. */
  lemma {:induction false} RunKeeps(c: Config, registered: set<Name>, s: State, es: seq<Event>)
    requires Inv(c, registered, s)
    ensures Inv(c, registered, Run(c, registered, s, es))
    decreases |es|
  {
    if es != [] {
      RunKeeps(c, registered, s, es[..|es| - 1]);
      ApplyKeeps(c, registered, Run(c, registered, s, es[..|es| - 1]), es[|es| - 1]);
    }
  }

  lemma RunKeepsInv(c: Config, registered: set<Name>, es: seq<Event>)
    requires c.Valid()
    ensures Inv(c, registered, Run(c, registered, Initial(), es))
  {
    RunKeeps(c, registered, Initial(), es);
  }
}
