/** What the alert pipeline promises over all its runs. */
module AlertTheorems {
  import opened Options
  import opened AlertPipeline
  import opened AlertInvariants

  // ------------------------------------------------------------ what the invariant gives

  /** The alerts queued for a registered probe form a chain from HEALTHY, each at least one interval after the last. */
  lemma AlertsFormSpacedChain(c: Config, registered: set<Name>, es: seq<Event>, n: Name)
    requires c.Valid() && n in registered
    ensures var b := Run(c, registered, Initial(), es).book;
            var h := Of(b.log, n);
            && Chain(h) && Spaced(h, c.minInterval)
            && Announced(b, n) == (if h == [] then Healthy else h[|h| - 1].alert.after)
  {
    RunKeepsInv(c, registered, es);
    assert ProbeInv(c, Run(c, registered, Initial(), es).clock, Run(c, registered, Initial(), es).book, n);
  }

  /** The worker takes alerts exactly in the order they were queued, and none is lost on the way. */
  lemma TakenInOrder(c: Config, registered: set<Name>, es: seq<Event>)
    requires c.Valid()
    ensures var s := Run(c, registered, Initial(), es);
            && s.line.taken + Alerts(s.line.queue) == Stripped(s.book.log)
            && |s.line.queue| <= QUEUE_SIZE
  {
    RunKeepsInv(c, registered, es);
  }

  // ------------------------------------------------------------ no final state is lost

  /** The book says the same of *p* in both. */
  ghost predicate SameFor(b: Book, t: Book, p: Name) {
    && Get(b.alerted, p) == Get(t.alerted, p)
    && Get(b.states, p) == Get(t.states, p)
    && Get(b.pending, p) == Get(t.pending, p)
    && Get(b.firing, p) == Get(t.firing, p)
    && (p in b.refused <==> p in t.refused)
    && (p in b.muted <==> p in t.muted)
    && (p in b.cut <==> p in t.cut)
  }

  /** What is noted of one probe is noted of no other. */
  lemma NotesFrame(b: Book, n: Name, p: Name)
    requires p != n
    ensures SameFor(b, Settle(b, n), p) && SameFor(b, Clear(b, n), p) && SameFor(b, Refuse(b, n), p)
  {
  }

  lemma MarkFrame(c: Config, b: Book, n: Name, p: Name)
    requires p != n && n in b.lastSent
    ensures SameFor(b, Mark(c, b, n), p)
  {
  }

  lemma RecordFrame(b: Book, alert: Alert, now: real, p: Name)
    requires p != alert.probe
    ensures SameFor(b, Record(b, alert, now), p)
  {
  }

  lemma {:induction false} SendFrames(
      c: Config, s: State, n: Name, status: Status, transition: Option<Alert>, due: bool, p: Name)
    requires transition.Some? ==> transition.value.probe == n
    requires p != n
    ensures SameFor(s.book, Send(c, s, n, status, transition, due).book, p)
  {
    NotesFrame(s.book, n, p);
    if n in s.book.lastSent { MarkFrame(c, s.book, n, p); }
    RecordFrame(s.book, RecordFor(Announced(s.book, n), n, status, transition), s.clock, p);
  }

  /** What each outcome of a send notes of its own probe. */
  lemma NotesOutcome(c: Config, b: Book, n: Name)
    ensures forall x :: x in {Settle(b, n), Clear(b, n)} ==> n !in x.muted && n !in x.cut && n !in x.refused
    ensures var x := Refuse(b, n); n !in x.muted && n !in x.cut && n in x.refused
    ensures n in b.lastSent ==>
        var x := Mark(c, b, n); n !in x.muted && n !in x.cut && n !in x.refused && n in x.pending
  {
  }

  lemma RecordOutcome(b: Book, alert: Alert, now: real)
    ensures var x, n := Record(b, alert, now), alert.probe;
            n !in x.muted && n !in x.cut && n !in x.refused && Announced(x, n) == alert.after
  {
  }

  /** A send leaves its probe announced, waiting for its marker, or refused by a queue that is full. */
  lemma {:induction false} SendOutcome(
      c: Config, s: State, n: Name, status: Status, transition: Option<Alert>, due: bool)
    requires transition.Some? ==> transition.value.probe == n && transition.value.after == status
    ensures var t := Send(c, s, n, status, transition, due);
            && n !in t.book.muted && n !in t.book.cut
            && (|| Announced(t.book, n) == status
                || (!due && TooSoon(c, s, n) && n in t.book.pending)
                || n in t.book.refused)
            && (n in t.book.refused ==> |t.line.queue| >= QUEUE_SIZE)
  {
    NotesOutcome(c, s.book, n);
    RecordOutcome(s.book, RecordFor(Announced(s.book, n), n, status, transition), s.clock);
  }

  lemma {:induction false} SendLine(c: Config, s: State, n: Name, status: Status, transition: Option<Alert>, due: bool)
    ensures var t := Send(c, s, n, status, transition, due);
            && s.line.queue <= t.line.queue && t.clock == s.clock && t.maintenance == s.maintenance
            && t.book.states == s.book.states && t.book.firing == s.book.firing
            && (due && n !in s.book.pending ==> n !in t.book.pending)
  {
  }

  /** After a check that maintenance did not silence alerters know its status, a marker waits, or the queue was full. */
  lemma CheckSettles(c: Config, registered: set<Name>, s: State, n: Name)
    requires Inv(c, registered, s) && c.hasAlerters
    requires n in s.book.firing && !s.book.firing[n].silenced
    ensures var t := Apply(c, registered, s, CheckEnds(n));
            && n !in t.book.muted && n !in t.book.cut && n !in t.book.firing
            && (|| Announced(t.book, n) == s.book.firing[n].status
                || (n in t.book.pending && t.book.pending[n] == s.book.lastSent[n] + c.minInterval > s.clock)
                || (n in t.book.refused && |t.line.queue| >= QUEUE_SIZE))
  {
    var f, s1 := s.book.firing[n], s.(book := Fired(s.book, n));
    SendOutcome(c, s1, n, f.status, f.transition, false);
    SendLine(c, s1, n, f.status, f.transition, false);
    FireEndKeeps(c, registered, s, n);
    var t := Apply(c, registered, s, CheckEnds(n));
    if Announced(t.book, n) != f.status && n !in t.book.refused {
      HeldIsMarked(c, s1, n, f.status, f.transition);
    }
  }

  lemma {:induction false} HeldIsMarked(c: Config, s: State, n: Name, status: Status, transition: Option<Alert>)
    requires Announced(s.book, n) != status && TooSoon(c, s, n) && MarkersExact(c, s.book)
    ensures var t := Send(c, s, n, status, transition, false);
            n in t.book.pending && t.book.pending[n] == s.book.lastSent[n] + c.minInterval > s.clock
  {
  }

  lemma {:induction false} SendIfDueFrames(c: Config, s: State, n: Name, p: Name)
    requires p != n
    ensures SameFor(s.book, SendIfDue(c, s, n).book, p)
  {
    if n in s.book.pending && s.book.pending[n] <= s.clock {
      var s1 := s.(book := s.book.(pending := s.book.pending - {n}));
      assert SameFor(s.book, s1.book, p);
      if n in s.book.states { SendFrames(c, s1, n, s.book.states[n], None, true, p); }
    }
  }

  lemma {:induction false} SendIfDueLine(c: Config, s: State, n: Name)
    ensures var t := SendIfDue(c, s, n);
            && s.line.queue <= t.line.queue && t.clock == s.clock && t.maintenance == s.maintenance
            && t.book.states == s.book.states && t.book.firing == s.book.firing
            && !(n in t.book.pending && t.book.pending[n] <= t.clock)
  {
    if n in s.book.pending && s.book.pending[n] <= s.clock {
      var s1 := s.(book := s.book.(pending := s.book.pending - {n}));
      if n in s.book.states { SendLine(c, s1, n, s.book.states[n], None, true); }
    }
  }

  /** What a due pass leaves of *n*: if its marker was due and unsilenced, alerters know or the queue is full. */
  ghost predicate PassedOver(s: State, t: State, n: Name) {
    n in s.book.pending && s.book.pending[n] <= s.clock && n in s.book.states && s.maintenance.None? ==>
      && n !in t.book.pending && n !in t.book.muted && n !in t.book.cut
      && (Announced(t.book, n) == s.book.states[n] || n in t.book.refused)
      && (n in t.book.refused ==> |t.line.queue| >= QUEUE_SIZE)
  }

  lemma {:induction false} SendIfDuePasses(c: Config, s: State, n: Name)
    requires c.hasAlerters
    ensures PassedOver(s, SendIfDue(c, s, n), n)
  {
    if n in s.book.pending && s.book.pending[n] <= s.clock && n in s.book.states && s.maintenance.None? {
      var s1 := s.(book := s.book.(pending := s.book.pending - {n}));
      SendOutcome(c, s1, n, s.book.states[n], None, true);
      SendLine(c, s1, n, s.book.states[n], None, true);
    }
  }

  /** The due pass keeps what it leaves alone and settles each due probe among *order*. */
  lemma {:induction false} DuePassSettles(c: Config, s: State, order: seq<Name>, n: Name)
    requires c.hasAlerters
    ensures var t := DuePass(c, s, order);
            && s.line.queue <= t.line.queue && t.clock == s.clock && t.maintenance == s.maintenance
            && t.book.states == s.book.states && t.book.firing == s.book.firing
            && (n !in order || n !in s.book.pending || s.book.pending[n] > s.clock ==> SameFor(s.book, t.book, n))
            && (n in order ==> PassedOver(s, t, n))
    decreases |order|
  {
    if order != [] {
      var m, s1, rest := order[0], SendIfDue(c, s, order[0]), order[1..];
      SendIfDueLine(c, s, m);
      DuePassSettles(c, s1, rest, n);
      if m == n {
        SendIfDuePasses(c, s, n);
      } else {
        SendIfDueFrames(c, s, m, n);
        assert n in order <==> n in rest;
      }
    }
  }

  // ------------------------------------------------------------ a settled status

  /** A check without data leaves all that is remembered alone, so it does not make alerters catch up. */
  lemma NoDataLeavesBook(c: Config, registered: set<Name>, s: State)
    ensures var t := Apply(c, registered, s, NoDataCheck);
            t.book == s.book && t.line == s.line && t.clock == s.clock
  {
  }

  /** The next check after a refusal, made outside maintenance and with room in the queue, is announced. */
  lemma RefusedIsRetried(c: Config, registered: set<Name>, s: State, n: Name)
    requires Inv(c, registered, s) && c.hasAlerters && n in registered && n in s.book.refused
    requires n in s.book.firing && !s.book.firing[n].silenced && |s.line.queue| < QUEUE_SIZE
    ensures var t := Apply(c, registered, s, CheckEnds(n));
            && Announced(t.book, n) == s.book.firing[n].status
            && n !in t.book.pending && n !in t.book.refused
  {
    assert ProbeInv(c, s.clock, s.book, n);
    var f := s.book.firing[n];
    SendWhenRipe(c, s.(book := Fired(s.book, n)), n, f.status, f.transition);
  }

  lemma SendWhenRipe(c: Config, s: State, n: Name, status: Status, transition: Option<Alert>)
    requires !TooSoon(c, s, n) && |s.line.queue| < QUEUE_SIZE && n in s.book.refused
    requires transition.Some? ==> transition.value.probe == n && transition.value.after == status
    ensures var t := Send(c, s, n, status, transition, false);
            Announced(t.book, n) == status && n !in t.book.pending && n !in t.book.refused
  {
  }

  /**
    *n* has settled: alerters know its status, or a marker or a refusal is
    outstanding, no maintenance is on and none silences a check of *n* in flight.
  */
  ghost predicate Settled(s: State, n: Name) {
    && n in s.book.states && s.maintenance.None? && (n in s.book.firing ==> !s.book.firing[n].silenced)
    && (Announced(s.book, n) == s.book.states[n] || n in s.book.pending || n in s.book.refused)
  }

  /** An event that neither finds another status of *n* nor starts maintenance. */
  predicate LeavesAlone(e: Event, n: Name, status: Status) {
    !e.MaintenanceOn? && (e.CheckBegins? && e.name == n ==> e.status == status)
  }

  /** From *s* to *t* the probe *n* stays settled at its status, with no marker other than the one it had. */
  ghost predicate StaysSettled(s: State, t: State, n: Name) {
    && n in s.book.states && Settled(t, n) && t.book.states[n] == s.book.states[n]
    && (n in t.book.pending ==> n in s.book.pending && t.book.pending[n] == s.book.pending[n])
  }

  /** Alerters know the status of *n* and nothing is outstanding. */
  ghost predicate Told(s: State, n: Name) {
    && n in s.book.states && Announced(s.book, n) == s.book.states[n]
    && n !in s.book.pending && n !in s.book.refused
  }

  /** A full queue refused *n*. */
  ghost predicate MetFull(s: State, n: Name) {
    n in s.book.refused && |s.line.queue| >= QUEUE_SIZE
  }

  lemma StaysSettledOn(s: State, t: State, u: State, n: Name)
    requires StaysSettled(s, t, n) && StaysSettled(t, u, n)
    ensures StaysSettled(s, u, n)
  {
  }

  lemma LoopTopStaysSettled(c: Config, s: State, order: seq<Name>, n: Name)
    requires c.hasAlerters && Settled(s, n) && (n in s.book.pending ==> n in order)
    ensures StaysSettled(s, LoopTop(c, s, order), n)
    ensures var t := LoopTop(c, s, order);
            n !in s.book.refused && (n in s.book.pending ==> s.book.pending[n] <= s.clock) ==>
              Told(t, n) || MetFull(t, n)
  {
    DuePassSettles(c, s.(line := s.line.(worker := Busy)), order, n);
  }

  lemma OtherCheckEndStaysSettled(c: Config, s: State, m: Name, n: Name)
    requires c.hasAlerters && Settled(s, n) && m != n && m in s.book.firing && FiringInv(s.book)
    ensures StaysSettled(s, FireEnd(c, s, m), n)
  {
    var f, s1 := s.book.firing[m], s.(book := Fired(s.book, m));
    assert SameFor(s.book, s1.book, n);
    SendFrames(c, s1, m, f.status, f.transition, false, n);
    SendLine(c, s1, m, f.status, f.transition, false);
  }

  /** A check that found the settled status again: what was held back stays held back no longer than before. */
  lemma OwnCheckEndStaysSettled(c: Config, registered: set<Name>, s: State, n: Name)
    requires Inv(c, registered, s) && c.hasAlerters && n in registered && Settled(s, n) && n in s.book.firing
    ensures StaysSettled(s, FireEnd(c, s, n), n)
    ensures n in s.book.refused ==> Told(FireEnd(c, s, n), n) || MetFull(FireEnd(c, s, n), n)
  {
    var f, s1 := s.book.firing[n], s.(book := Fired(s.book, n));
    assert ProbeInv(c, s.clock, s.book, n);
    SendOutcome(c, s1, n, f.status, f.transition, false);
    SendLine(c, s1, n, f.status, f.transition, false);
    SendMarks(c, s1, n, f.status, f.transition);
  }

  /** A check keeps a marker as it is or makes one; that only when the probe has none and was not refused in time. */
  lemma SendMarks(c: Config, s: State, n: Name, status: Status, transition: Option<Alert>)
    ensures var t := Send(c, s, n, status, transition, false);
            && (n in t.book.pending && n in s.book.pending ==> t.book.pending[n] == s.book.pending[n])
            && (n in t.book.pending && n !in s.book.pending ==> TooSoon(c, s, n) && Announced(s.book, n) != status)
            && (Announced(t.book, n) == status ==> n !in t.book.pending)
  {
  }

  lemma StepStaysSettled(c: Config, registered: set<Name>, s: State, e: Event, n: Name)
    requires Inv(c, registered, s) && c.hasAlerters && n in registered && Settled(s, n)
    requires LeavesAlone(e, n, s.book.states[n])
    ensures StaysSettled(s, Apply(c, registered, s, e), n)
  {
    if Enabled(registered, s, e) {
      match e
      case CheckEnds(m) =>
        if m == n { OwnCheckEndStaysSettled(c, registered, s, n); } else { OtherCheckEndStaysSettled(c, s, m, n); }
      case WorkerLoops(order) => LoopTopStaysSettled(c, s, order, n);
      case _ => AsideStaysSettled(c, registered, s, e, n);
    }
  }

  /** Events that decide about no alert. */
  lemma AsideStaysSettled(c: Config, registered: set<Name>, s: State, e: Event, n: Name)
    requires Settled(s, n) && n in registered && LeavesAlone(e, n, s.book.states[n])
    requires Enabled(registered, s, e) && !e.CheckEnds? && !e.WorkerLoops?
    ensures StaysSettled(s, Apply(c, registered, s, e), n)
  {
  }

  lemma {:induction false} RunStaysSettled(c: Config, registered: set<Name>, s: State, es: seq<Event>, n: Name)
    requires Inv(c, registered, s) && c.hasAlerters && n in registered && Settled(s, n)
    requires forall e :: e in es ==> LeavesAlone(e, n, s.book.states[n])
    ensures StaysSettled(s, Run(c, registered, s, es), n) && Inv(c, registered, Run(c, registered, s, es))
    decreases |es|
  {
    RunKeeps(c, registered, s, es);
    if es != [] {
      var before, e := es[..|es| - 1], es[|es| - 1];
      var t := Run(c, registered, s, before);
      RunStaysSettled(c, registered, s, before, n);
      StepStaysSettled(c, registered, t, e, n);
      StaysSettledOn(s, t, Apply(c, registered, t, e), n);
    }
  }

  /**
    The step that tells the alerters, from the state before it: after a refusal
    the probe's next check, otherwise the due pass at or after its marker.
  */
  predicate Tells(registered: set<Name>, t: State, last: Event, n: Name) {
    && Enabled(registered, t, last)
    && (if n in t.book.refused then last == CheckEnds(n)
        else last.WorkerLoops? && (n in t.book.pending ==> t.book.pending[n] <= t.clock))
  }

  /**
    A settled status reaches the alerters: from any reachable state, through any
    run that finds no other status of the probe and does not start maintenance,
    however often the queue was full in it, the step that tells them makes the
    announced status equal to the current one, unless it meets a full queue; then
    the next check is such a step again.  On the way the probe stays settled and
    gets no marker other than the one it had.
  */
  lemma SettledStatusReachesAlerters(
      c: Config, registered: set<Name>, s: State, es: seq<Event>, last: Event, n: Name)
    requires Inv(c, registered, s) && c.hasAlerters && n in registered && Settled(s, n)
    requires forall e :: e in es ==> LeavesAlone(e, n, s.book.states[n])
    requires Tells(registered, Run(c, registered, s, es), last, n)
    ensures var u := Run(c, registered, s, es + [last]);
            StaysSettled(s, u, n) && (Told(u, n) || MetFull(u, n))
  {
    var all, t := es + [last], Run(c, registered, s, es);
    assert all[..|es|] == es && all[|es|] == last;
    RunStaysSettled(c, registered, s, es, n);
    if n in t.book.refused {
      OwnCheckEndStaysSettled(c, registered, t, n);
    } else {
      LoopTopStaysSettled(c, t, last.order, n);
    }
    StaysSettledOn(s, t, Apply(c, registered, t, last), n);
  }
}
