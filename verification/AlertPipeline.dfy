/**
  The alert pipeline of the registry: state changes found by checks, flap
  limiting with pending markers, maintenance suppression, a bounded queue and
  the worker that drains it.

  The event loop switches tasks only at an `await`, so every step below is one
  synchronous stretch of the source.  A check is two of them, because storing
  the record and running callbacks may suspend in between.
*/
module AlertPipeline {
  import opened Options

  datatype Name = Name(text: string)

  /** A status that can be announced; NO_DATA never is. */
  datatype Status = Healthy | Degraded | Unhealthy

  datatype Alert = Alert(probe: Name, before: Status, after: Status)

  /** An alert and the moment it was queued. */
  datatype Sent = Sent(alert: Alert, at: real)

  /** A check between its two stretches: what the first one decided. */
  datatype Firing = Firing(status: Status, transition: Option<Alert>, silenced: bool)

  /** The alert worker: no live task, between two waits, or waiting until a moment (or for good). */
  datatype Worker = Absent | Busy | Waiting(until: Option<real>)

  datatype Config = Config(minInterval: real, hasAlerters: bool) {
    predicate Valid() { minInterval >= 0.0 }
  }

  const QUEUE_SIZE := 256

  /**
    What the registry remembers per probe.  The last four fields are histories
    that no step reads: every alert queued, and the probes whose last alert a
    full queue refused, that maintenance silenced last, or whose last check was
    cut off before its second stretch.
  */
  datatype Book = Book(
    states: map<Name, Status>,
    alerted: map<Name, Status>,
    lastSent: map<Name, real>,
    pending: map<Name, real>,
    firing: map<Name, Firing>,
    log: seq<Sent>,
    refused: set<Name>,
    muted: set<Name>,
    cut: set<Name>)

  /** The queue and its worker; *taken* and *everShutDown* are histories. */
  datatype Line = Line(
    queue: seq<Option<Alert>>,
    worker: Worker,
    shuttingDown: bool,
    taken: seq<Alert>,
    everShutDown: bool)

  datatype State = State(clock: real, maintenance: Option<Option<real>>, book: Book, line: Line)

  function Initial(): State {
    State(0.0, None, Book(map[], map[], map[], map[], map[], [], {}, {}, {}), Line([], Absent, false, [], false))
  }

  // ------------------------------------------------------------ the queue and its worker

  function EnsureWorker(l: Line): Line {
    if !l.shuttingDown && l.worker.Absent? then l.(worker := Busy) else l
  }

  /** Queue a `None`, which only makes the worker look at the markers again. */
  function Wake(l: Line): Line {
    var l1 := EnsureWorker(l);
    if |l1.queue| < QUEUE_SIZE then l1.(queue := l1.queue + [None]) else l1
  }

  function Put(l: Line, alert: Alert): Line {
    l.(queue := l.queue + [Some(alert)])
  }

  /** The worker takes the head of the queue; a `None` only woke it. */
  function Take(l: Line): Line
    requires l.queue != []
  {
    l.(queue := l.queue[1..], worker := Busy,
       taken := if l.queue[0].Some? then l.taken + [l.queue[0].value] else l.taken)
  }

  // ------------------------------------------------------------ the book

  /** The status alerters last received; HEALTHY before the first alert. */
  function Announced(b: Book, n: Name): Status {
    Get(b.alerted, n).GetOr(Healthy)
  }

  /** No refusal, silencing or interruption is outstanding for *n* any more. */
  function Clear(b: Book, n: Name): Book {
    b.(refused := b.refused - {n}, muted := b.muted - {n}, cut := b.cut - {n})
  }

  /** Alerters already know the status: a flap that needs no alert. */
  function Settle(b: Book, n: Name): Book {
    Clear(b, n).(pending := b.pending - {n})
  }

  /** A marker falls due one interval after the probe's last alert. */
  function Mark(c: Config, b: Book, n: Name): Book
    requires n in b.lastSent
  {
    Clear(b, n).(pending := b.pending[n := b.lastSent[n] + c.minInterval])
  }

  /** The queue is full: nothing is remembered, so the next check tries again. */
  function Refuse(b: Book, n: Name): Book {
    b.(refused := b.refused + {n}, muted := b.muted - {n}, cut := b.cut - {n})
  }

  /** Only a queued alert advances what alerters were sent and when. */
  function Record(b: Book, alert: Alert, now: real): Book {
    var n := alert.probe;
    Settle(b, n).(
      log := b.log + [Sent(alert, now)],
      alerted := b.alerted[n := alert.after],
      lastSent := b.lastSent[n := now])
  }

  /** A change from what alerters last saw, built from *transition* when that starts there. */
  function RecordFor(sent: Status, n: Name, status: Status, transition: Option<Alert>): Alert {
    if transition.Some? && transition.value.before == sent then transition.value else Alert(n, sent, status)
  }

  // ------------------------------------------------------------ steps

  /** Maintenance whose end has passed is cleared by the first read. */
  function Lapse(s: State): State {
    if s.maintenance.Some? && s.maintenance.value.Some? && s.clock >= s.maintenance.value.value
    then s.(maintenance := None)
    else s
  }

  /** True while a further alert for *n* would come too soon after the last one. */
  predicate TooSoon(c: Config, s: State, n: Name) {
    c.minInterval > 0.0 && n in s.book.lastSent && s.clock - s.book.lastSent[n] < c.minInterval
  }

  function Send(c: Config, s: State, n: Name, status: Status, transition: Option<Alert>, due: bool): State {
    var sent := Announced(s.book, n);
    if sent == status then s.(book := Settle(s.book, n))
    else if !due && TooSoon(c, s, n) then
      if n in s.book.pending then s.(book := Clear(s.book, n))
      else s.(book := Mark(c, s.book, n), line := Wake(s.line))
    else
      var l := EnsureWorker(s.line);
      if |l.queue| >= QUEUE_SIZE then s.(book := Refuse(s.book, n), line := l)
      else
        var alert := RecordFor(sent, n, status, transition);
        s.(book := Record(s.book, alert, s.clock), line := Put(l, alert))
  }

  /** First stretch of a check that has a status: note it and decide whether alerters may hear of it. */
  function FireBegin(s: State, n: Name, status: Status): State {
    var s1 := Lapse(s);
    var before := Get(s.book.states, n).GetOr(Healthy);
    var transition := if before != status then Some(Alert(n, before, status)) else None;
    var firing := Firing(status, transition, s1.maintenance.Some?);
    s1.(book := s.book.(states := s.book.states[n := status], firing := s.book.firing[n := firing]))
  }

  /** The check of *n* is over. */
  function Fired(b: Book, n: Name): Book {
    b.(firing := b.firing - {n})
  }

  function Mute(b: Book, n: Name): Book {
    b.(muted := b.muted + {n}, cut := b.cut - {n})
  }

  /** The run of *n* is cancelled between its stretches: nobody hears of the status it noted. */
  function CutOff(b: Book, n: Name): Book {
    Fired(b, n).(cut := b.cut + {n})
  }

  /** Second stretch: hand the status to the alerters unless maintenance was on at the first. */
  function FireEnd(c: Config, s: State, n: Name): State
    requires n in s.book.firing
  {
    var f := s.book.firing[n];
    var s1 := s.(book := Fired(s.book, n));
    if c.hasAlerters && !f.silenced then Send(c, s1, n, f.status, f.transition, false)
    else s1.(book := Mute(s1.book, n))
  }

  /** One marker of the due pass: gone, and its probe's current status sent unless maintenance is on. */
  function SendIfDue(c: Config, s: State, n: Name): State {
    if n !in s.book.pending || s.book.pending[n] > s.clock then s
    else
      var s1 := s.(book := s.book.(pending := s.book.pending - {n}));
      if n in s.book.states && c.hasAlerters && s.maintenance.None?
      then Send(c, s1, n, s.book.states[n], None, true)
      else s1.(book := Mute(s1.book, n))
  }

  /** The due pass visits the markers in *order*, the dictionary's own at run time. */
  function DuePass(c: Config, s: State, order: seq<Name>): State
    decreases |order|
  {
    if order == [] then s else DuePass(c, SendIfDue(c, s, order[0]), order[1..])
  }

  /** *until* is the smallest value of *m*, or nothing when *m* is empty. */
  ghost predicate Earliest(m: map<Name, real>, until: Option<real>) {
    && (until.None? <==> m == map[])
    && (until.Some? ==> (exists k :: k in m && m[k] == until.value) && forall k :: k in m ==> until.value <= m[k])
  }

  lemma {:induction false} EarliestExists(m: map<Name, real>) returns (until: Option<real>)
    ensures Earliest(m, until)
    decreases |m|
  {
    if m == map[] {
      until := None;
    } else {
      var k :| k in m;
      var rest := m - {k};
      assert m.Keys == rest.Keys + {k};
      until := EarliestExists(rest);
      if until.None? || m[k] <= until.value {
        assert forall j :: j in m ==> j == k || j in rest;
        until := Some(m[k]);
      } else {
        var j :| j in rest && rest[j] == until.value;
        assert j in m && m[j] == until.value;
      }
    }
  }

  ghost function EarliestOf(m: map<Name, real>): (until: Option<real>)
    ensures Earliest(m, until)
  {
    assert exists u :: Earliest(m, u) by { var u := EarliestExists(m); assert Earliest(m, u); }
    var u :| Earliest(m, u);
    u
  }

  /** Top of the worker's loop: the due pass, which reads maintenance only when a marker is pending. */
  function Awaken(c: Config, s: State, order: seq<Name>): State {
    var s1 := if s.book.pending == map[] then s else Lapse(s);
    DuePass(c, s1.(line := s1.line.(worker := Busy)), order)
  }

  /** Then wait for the queue until the earliest marker. */
  ghost function LoopTop(c: Config, s: State, order: seq<Name>): State {
    var s1 := Awaken(c, s, order);
    s1.(line := s1.line.(worker := Waiting(EarliestOf(s1.book.pending))))
  }

  function Forget(b: Book, names: set<Name>): Book {
    b.(states := b.states - names, alerted := b.alerted - names,
       lastSent := b.lastSent - names, pending := b.pending - names)
  }

  datatype Event =
    | CheckBegins(name: Name, status: Status)
    | CheckEnds(ended: Name)
    | CheckCut(cancelled: Name)
    | NoDataCheck
    | MaintenanceOn(until: Option<real>)
    | MaintenanceOff
    | Tick(elapsed: real)
    | WorkerLoops(order: seq<Name>)
    | WorkerTakes
    | Unregister(names: set<Name>)
    | ShutdownBegins
    | DrainBegins
    | WorkerStops
    | Restart

  /**
    When an event can happen.  *registered* are the probes registered for the
    whole run; only others are ever forgotten.  One run of a probe is in flight
    at a time, so a check begins only when the previous one has ended or was cut
    off.  A shutdown sets its flag, lets a worker drain the queue and stops it.
  */
  predicate Enabled(registered: set<Name>, s: State, e: Event) {
    match e
    case CheckBegins(n, _) => n !in s.book.firing
    case CheckEnds(n) => n in s.book.firing
    case CheckCut(n) => n in s.book.firing
    case Tick(d) => d >= 0.0
    case WorkerLoops(order) =>
      && (forall n :: n in s.book.pending ==> n in order)
      && (s.line.worker.Busy?
          || (s.line.worker.Waiting? && s.line.worker.until.Some? && s.line.worker.until.value <= s.clock))
    case WorkerTakes => s.line.worker.Waiting? && s.line.queue != []
    case Unregister(names) => names !! registered
    case DrainBegins => s.line.shuttingDown && s.line.queue != []
    case WorkerStops => s.line.shuttingDown
    case _ => true
  }

  /** The effect of an event; one that cannot happen changes nothing. */
  ghost function Apply(c: Config, registered: set<Name>, s: State, e: Event): State {
    if !Enabled(registered, s, e) then s else
    match e
    case CheckBegins(n, status) => FireBegin(s, n, status)
    case CheckEnds(n) => FireEnd(c, s, n)
    case CheckCut(n) => s.(book := CutOff(s.book, n))
    case NoDataCheck => Lapse(s)
    case MaintenanceOn(until) => s.(maintenance := Some(until))
    case MaintenanceOff => s.(maintenance := None)
    case Tick(d) => s.(clock := s.clock + d)
    case WorkerLoops(order) => LoopTop(c, s, order)
    case WorkerTakes => s.(line := Take(s.line))
    case Unregister(names) => s.(book := Forget(s.book, names))
    case ShutdownBegins => s.(line := s.line.(shuttingDown := true, everShutDown := true))
    case DrainBegins => s.(line := if s.line.worker.Absent? then s.line.(worker := Busy) else s.line)
    case WorkerStops => s.(line := s.line.(worker := Absent))
    case Restart => s.(line := s.line.(shuttingDown := false))
  }

  /** The state after the events *es*, starting from *s*. */
  ghost function Run(c: Config, registered: set<Name>, s: State, es: seq<Event>): State {
    if es == [] then s
    else Apply(c, registered, Run(c, registered, s, es[..|es| - 1]), es[|es| - 1])
  }
}
