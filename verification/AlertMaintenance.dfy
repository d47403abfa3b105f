/**
  What the events alone say: what the clock reads, when maintenance is on, what
  each check found and what went before it.  From that it follows who is heard:
  alerts come from checks that began outside maintenance and from due passes
  outside it, and from nothing else.
*/
module AlertMaintenance {
  import opened Options
  import opened AlertPipeline
  import opened AlertInvariants
  import opened AlertTheorems

  // ------------------------------------------------------------ read off the events

  function Clock(es: seq<Event>): real {
    if es == [] then 0.0
    else
      var e := es[|es| - 1];
      Clock(es[..|es| - 1]) + if e.Tick? && e.elapsed >= 0.0 then e.elapsed else 0.0
  }

  /** The maintenance last switched on, unless it was switched off since. */
  function Switched(es: seq<Event>): Option<Option<real>> {
    if es == [] then None
    else
      match es[|es| - 1]
      case MaintenanceOn(until) => Some(until)
      case MaintenanceOff => None
      case _ => Switched(es[..|es| - 1])
  }

  /** It is on for good, or until its end. */
  predicate InMaintenance(es: seq<Event>) {
    Switched(es).Some? && (Switched(es).value.None? || Clock(es) < Switched(es).value.value)
  }

  /** A check of *n* in flight: the status before it, the one it found, and whether it began in maintenance. */
  datatype Found = Found(before: Status, status: Status, inMaintenance: bool)

  /** The status that the latest check of *n* found, unless *n* was forgotten since. */
  function Noted(registered: set<Name>, es: seq<Event>, n: Name): Option<Status> {
    if es == [] then None
    else
      var past := es[..|es| - 1];
      match es[|es| - 1]
      case CheckBegins(m, status) =>
        if m == n && InFlight(registered, past, n).None? then Some(status) else Noted(registered, past, n)
      case Unregister(names) => if names !! registered && n in names then None else Noted(registered, past, n)
      case _ => Noted(registered, past, n)
  }

  /** A check of *n* begins when none is in flight, and is until it ends or is cut off. */
  function InFlight(registered: set<Name>, es: seq<Event>, n: Name): Option<Found> {
    if es == [] then None
    else
      var past := es[..|es| - 1];
      match es[|es| - 1]
      case CheckBegins(m, status) =>
        if m == n && InFlight(registered, past, n).None?
        then Some(Found(Noted(registered, past, n).GetOr(Healthy), status, InMaintenance(past)))
        else InFlight(registered, past, n)
      case CheckEnds(m) => if m == n then None else InFlight(registered, past, n)
      case CheckCut(m) => if m == n then None else InFlight(registered, past, n)
      case _ => InFlight(registered, past, n)
  }

  // ------------------------------------------------------------ the registry agrees

  /** What is remembered of a check in flight: its status, the change it is, if any, and if it is silenced. */
  function FiringOf(n: Name, f: Found): Firing {
    Firing(f.status, if f.before == f.status then None else Some(Alert(n, f.before, f.status)), f.inMaintenance)
  }

  lemma {:induction false} DuePassLeaves(c: Config, s: State, order: seq<Name>)
    ensures var t := DuePass(c, s, order);
            && t.clock == s.clock && t.maintenance == s.maintenance
            && t.book.states == s.book.states && t.book.firing == s.book.firing
    decreases |order|
  {
    if order != [] {
      SendIfDueLine(c, s, order[0]);
      DuePassLeaves(c, SendIfDue(c, s, order[0]), order[1..]);
    }
  }

  /** Whether maintenance was on at its last reading is only remembered, never made up. */
  ghost predicate Agrees(registered: set<Name>, s: State, es: seq<Event>, n: Name) {
    && s.clock == Clock(es)
    && (s.maintenance == Switched(es) || (s.maintenance.None? && !InMaintenance(es)))
    && Get(s.book.states, n) == Noted(registered, es, n)
    && Get(s.book.firing, n) == (match InFlight(registered, es, n)
                                 case None => None
                                 case Some(f) => Some(FiringOf(n, f)))
  }

  lemma FireEndLeaves(c: Config, s: State, m: Name)
    requires m in s.book.firing
    ensures var t := FireEnd(c, s, m);
            && t.clock == s.clock && t.maintenance == s.maintenance
            && t.book.states == s.book.states && t.book.firing == s.book.firing - {m}
  {
    var f := s.book.firing[m];
    SendLine(c, s.(book := Fired(s.book, m)), m, f.status, f.transition, false);
  }

  lemma LoopTopLeaves(c: Config, s: State, order: seq<Name>)
    ensures var t := LoopTop(c, s, order);
            && t.clock == s.clock && t.book.states == s.book.states && t.book.firing == s.book.firing
            && (t.maintenance == s.maintenance || t.maintenance == Lapse(s).maintenance)
  {
    var s1 := if s.book.pending == map[] then s else Lapse(s);
    DuePassLeaves(c, s1.(line := s1.line.(worker := Busy)), order);
  }

  lemma StepAgrees(c: Config, registered: set<Name>, s: State, es: seq<Event>, e: Event, n: Name)
    requires Agrees(registered, s, es, n)
    ensures Agrees(registered, Apply(c, registered, s, e), es + [e], n)
  {
    assert (es + [e])[..|es|] == es;
    if Enabled(registered, s, e) {
      match e
      case CheckEnds(m) => FireEndLeaves(c, s, m);
      case WorkerLoops(order) => LoopTopLeaves(c, s, order);
      case _ =>
    }
  }

  /**
    Over every run, from the events alone: the clock, the status of each probe,
    what each check in flight found and which change that is, and that it is
    silenced if and only if it began in maintenance.  Maintenance reads as on
    exactly while it is.
  */
  lemma {:induction false} EventsTell(c: Config, registered: set<Name>, es: seq<Event>, n: Name)
    ensures var s := Run(c, registered, Initial(), es);
            && s.clock == Clock(es) && (Lapse(s).maintenance.Some? <==> InMaintenance(es))
            && Get(s.book.states, n) == Noted(registered, es, n)
            && (match InFlight(registered, es, n)
                case None => n !in s.book.firing
                case Some(f) =>
                  && n in s.book.firing && s.book.firing[n].status == f.status
                  && (s.book.firing[n].silenced <==> f.inMaintenance)
                  && s.book.firing[n].transition
                     == if f.before == f.status then None else Some(Alert(n, f.before, f.status)))
  {
    RunAgrees(c, registered, es, n);
  }

  lemma {:induction false} RunAgrees(c: Config, registered: set<Name>, es: seq<Event>, n: Name)
    ensures Agrees(registered, Run(c, registered, Initial(), es), es, n)
    decreases |es|
  {
    if es != [] {
      var past, e := es[..|es| - 1], es[|es| - 1];
      RunAgrees(c, registered, past, n);
      StepAgrees(c, registered, Run(c, registered, Initial(), past), past, e, n);
      assert past + [e] == es;
    }
  }

  // ------------------------------------------------------------ who is heard

  /** The end of a check of *n* that began outside maintenance. */
  ghost predicate Heard(registered: set<Name>, es: seq<Event>, e: Event, n: Name) {
    && e == CheckEnds(n) && InFlight(registered, es, n).Some? && !InFlight(registered, es, n).value.inMaintenance
  }

  lemma SendAddsOne(c: Config, s: State, n: Name, status: Status, transition: Option<Alert>, due: bool)
    ensures var t, x := Send(c, s, n, status, transition, due), RecordFor(Announced(s.book, n), n, status, transition);
            t.book.log == s.book.log || t.book.log == s.book.log + [Sent(x, s.clock)]
  {
  }

  /** A send ends in one way only. */
  lemma SendLeavesOne(c: Config, s: State, n: Name, status: Status, transition: Option<Alert>)
    requires transition.Some? ==> transition.value.after == status && transition.value.probe == n
    ensures var t := Send(c, s, n, status, transition, false);
            && (Announced(t.book, n) == status && n !in t.book.refused ==> n !in t.book.pending)
            && (n in t.book.refused ==>
                  Announced(t.book, n) != status && Get(t.book.pending, n) == Get(s.book.pending, n))
  {
  }

  lemma SendLog(c: Config, s: State, n: Name, status: Status, transition: Option<Alert>, due: bool, p: Name)
    requires p != n && (transition.Some? ==> transition.value.probe == n)
    ensures Of(Send(c, s, n, status, transition, due).book.log, p) == Of(s.book.log, p)
  {
    SendAddsOne(c, s, n, status, transition, due);
    OfAppend(s.book.log, Sent(RecordFor(Announced(s.book, n), n, status, transition), s.clock), p);
  }

  lemma {:induction false} SilentPass(c: Config, s: State, order: seq<Name>)
    requires s.maintenance.Some? || !c.hasAlerters
    ensures DuePass(c, s, order).book.log == s.book.log
    decreases |order|
  {
    if order != [] {
      SendIfDueLine(c, s, order[0]);
      SilentPass(c, SendIfDue(c, s, order[0]), order[1..]);
    }
  }

  /**
    After any run, an event adds an alert of *n* only if there are alerters and
    it is the end of a check of *n* that began outside maintenance, or a due
    pass outside maintenance.
  */
  lemma OnlyHeardChecksSend(c: Config, registered: set<Name>, es: seq<Event>, e: Event, n: Name)
    requires c.Valid()
    ensures var s := Run(c, registered, Initial(), es);
            Of(Apply(c, registered, s, e).book.log, n) != Of(s.book.log, n) ==>
              c.hasAlerters && (Heard(registered, es, e, n) || (e.WorkerLoops? && !InMaintenance(es)))
  {
    var s := Run(c, registered, Initial(), es);
    RunKeepsInv(c, registered, es);
    EventsTell(c, registered, es, n);
    if Enabled(registered, s, e) {
      match e
      case CheckEnds(m) =>
        if m != n {
          var f := s.book.firing[m];
          SendLog(c, s.(book := Fired(s.book, m)), m, f.status, f.transition, false, n);
        }
      case WorkerLoops(order) =>
        if s.book.pending == map[] {
          NothingPending(c, s.(line := s.line.(worker := Busy)), order);
        } else if InMaintenance(es) || !c.hasAlerters {
          SilentPass(c, Lapse(s).(line := s.line.(worker := Busy)), order);
        }
      case _ =>
    }
  }

  lemma {:induction false} NothingPending(c: Config, s: State, order: seq<Name>)
    requires s.book.pending == map[]
    ensures DuePass(c, s, order) == s
    decreases |order|
  {
    if order != [] { NothingPending(c, s, order[1..]); }
  }

  /**
    And such a check is heard: whenever it began, after the end of a window
    too, its status ends up announced with nothing outstanding, held back behind
    a marker because the last alert is too recent, or refused by a full queue,
    which leaves a marker as it was.
  */
  lemma HeardCheckSettles(c: Config, registered: set<Name>, es: seq<Event>, n: Name)
    requires c.Valid() && c.hasAlerters && Heard(registered, es, CheckEnds(n), n)
    ensures var s, t := Run(c, registered, Initial(), es), Run(c, registered, Initial(), es + [CheckEnds(n)]);
            || (Announced(t.book, n) == InFlight(registered, es, n).value.status
                && n !in t.book.pending && n !in t.book.refused)
            || (n in t.book.pending && n in t.book.lastSent && n !in t.book.refused
                && t.book.pending[n] == t.book.lastSent[n] + c.minInterval > Clock(es))
            || (n in t.book.refused && |t.line.queue| >= QUEUE_SIZE && Get(t.book.pending, n) == Get(s.book.pending, n))
  {
    RunKeepsInv(c, registered, es);
    EventsTell(c, registered, es, n);
    var s := Run(c, registered, Initial(), es);
    CheckSettles(c, registered, s, n);
    SendLeavesOne(c, s.(book := Fired(s.book, n)), n, s.book.firing[n].status, s.book.firing[n].transition);
    RunKeepsInv(c, registered, es + [CheckEnds(n)]);
    assert (es + [CheckEnds(n)])[..|es|] == es;
  }

  /**
    So is a due pass: outside maintenance it announces the status last found of
    each probe whose marker is due, unless the queue is full; in maintenance it
    drops the marker and nothing is sent.
  */
  lemma DuePassHeard(c: Config, registered: set<Name>, es: seq<Event>, order: seq<Name>, n: Name)
    requires c.Valid() && c.hasAlerters && n in registered
    requires var s := Run(c, registered, Initial(), es);
             Enabled(registered, s, WorkerLoops(order)) && n in s.book.pending && s.book.pending[n] <= Clock(es)
    ensures var s, t := Run(c, registered, Initial(), es), Run(c, registered, Initial(), es + [WorkerLoops(order)]);
            && n !in t.book.pending
            && (InMaintenance(es) ==> t.book.log == s.book.log)
            && (!InMaintenance(es) ==>
                  || Some(Announced(t.book, n)) == Noted(registered, es, n)
                  || (n in t.book.refused && |t.line.queue| >= QUEUE_SIZE))
  {
    var s := Run(c, registered, Initial(), es);
    assert (es + [WorkerLoops(order)])[..|es|] == es;
    RunKeepsInv(c, registered, es);
    assert ProbeInv(c, s.clock, s.book, n);
    EventsTell(c, registered, es, n);
    var s1 := Lapse(s).(line := s.line.(worker := Busy));
    if InMaintenance(es) {
      SilentPass(c, s1, order);
      DuePassDrops(c, s1, order, n);
    } else {
      DuePassSettles(c, s1, order, n);
    }
  }

  lemma {:induction false} DuePassDrops(c: Config, s: State, order: seq<Name>, n: Name)
    requires s.maintenance.Some? && (n in s.book.pending ==> s.book.pending[n] <= s.clock)
    ensures n in order || n !in s.book.pending ==> n !in DuePass(c, s, order).book.pending
    decreases |order|
  {
    if order != [] {
      SendIfDueLine(c, s, order[0]);
      DuePassDrops(c, SendIfDue(c, s, order[0]), order[1..], n);
    }
  }
}
