/**
  When the alert worker is there.  It lives from the first alert to the first
  shutdown; after a restart exactly some checks bring it back.
*/
module AlertWorker {
  import opened Options
  import opened AlertPipeline
  import opened AlertInvariants

  /** Once a marker is due a live worker can move: it never waits past a marker with nothing to take. */
  lemma DueMarkerNeverSleptPast(c: Config, registered: set<Name>, es: seq<Event>, n: Name, order: seq<Name>)
    requires c.Valid()
    requires var s := Run(c, registered, Initial(), es);
             && n in s.book.pending && s.book.pending[n] <= s.clock && !s.line.worker.Absent?
             && (forall p :: p in s.book.pending ==> p in order)
    ensures var s := Run(c, registered, Initial(), es);
            Enabled(registered, s, WorkerTakes) || Enabled(registered, s, WorkerLoops(order))
  {
    RunKeepsInv(c, registered, es);
  }

  /** And it sleeps no less: after its due pass it waits for the earliest marker left, or for good without one. */
  lemma SleepsUntilEarliest(c: Config, registered: set<Name>, s: State, order: seq<Name>)
    requires Enabled(registered, s, WorkerLoops(order))
    ensures var t := Apply(c, registered, s, WorkerLoops(order));
            && t.line.worker.Waiting?
            && (t.line.worker.until.None? <==> t.book.pending == map[])
            && (t.line.worker.until.Some? ==>
                  && (exists n :: n in t.book.pending && t.book.pending[n] == t.line.worker.until.value)
                  && (forall n :: n in t.book.pending ==> t.line.worker.until.value <= t.book.pending[n]))
  {
  }

  /** Until the first shutdown a marker or a queued item always has a live worker. */
  lemma MarkersAreAttended(c: Config, registered: set<Name>, es: seq<Event>)
    requires c.Valid()
    ensures var s := Run(c, registered, Initial(), es);
            s.line.worker.Absent? && (s.book.pending != map[] || s.line.queue != []) ==> s.line.everShutDown
  {
    RunKeepsInv(c, registered, es);
  }

  // ------------------------------------------------------------ after a restart

  /**
    The end of a check that brings a worker: maintenance does not silence it, it
    changes what alerters were sent, and it is not held back behind a marker
    that is already there.
  */
  ghost predicate Starts(c: Config, s: State, e: Event) {
    && e.CheckEnds? && e.ended in s.book.firing
    && var n, f := e.ended, s.book.firing[e.ended];
       && c.hasAlerters && !f.silenced && Announced(s.book, n) != f.status
       && !(TooSoon(c, s, n) && n in s.book.pending)
  }

  /** The queue is as it was, and only markers that were there wait. */
  ghost predicate OnlyLeftovers(s: State, t: State) {
    && t.line.queue == s.line.queue
    && forall n :: n in t.book.pending ==> n in s.book.pending && t.book.pending[n] == s.book.pending[n]
  }

  /** Such a check, and nothing else, starts a worker where none is. */
  lemma WorkerStartsIff(c: Config, registered: set<Name>, s: State, e: Event)
    requires s.line.worker.Absent? && !s.line.shuttingDown && e != ShutdownBegins
    ensures var t := Apply(c, registered, s, e);
            && (t.line.worker.Absent? <==> !Starts(c, s, e)) && !t.line.shuttingDown
            && (t.line.worker.Absent? ==> OnlyLeftovers(s, t))
  {
  }

  /** During a shutdown only its drain brings a worker, and only for what is queued. */
  lemma ShutdownStartsIff(c: Config, registered: set<Name>, s: State, e: Event)
    requires s.line.worker.Absent? && s.line.shuttingDown
    ensures var t := Apply(c, registered, s, e);
            && (t.line.worker.Absent? <==> !(e.DrainBegins? && s.line.queue != []))
            && (t.line.shuttingDown <==> e != Restart)
  {
  }

  /** A live worker goes on until a shutdown stops it. */
  lemma WorkerGoesOn(c: Config, registered: set<Name>, s: State, e: Event)
    requires !s.line.worker.Absent? && !s.line.shuttingDown && e != ShutdownBegins
    ensures var t := Apply(c, registered, s, e); !t.line.worker.Absent? && !t.line.shuttingDown
  {
    if Enabled(registered, s, e) {
      match e
      case CheckEnds(n) =>
      case WorkerLoops(order) =>
        var s1 := if s.book.pending == map[] then s else Lapse(s);
        DuePassFlag(c, s1.(line := s1.line.(worker := Busy)), order);
      case _ =>
    }
  }

  lemma {:induction false} DuePassFlag(c: Config, s: State, order: seq<Name>)
    ensures DuePass(c, s, order).line.shuttingDown == s.line.shuttingDown
    decreases |order|
  {
    if order != [] { DuePassFlag(c, SendIfDue(c, s, order[0]), order[1..]); }
  }

  /** No event of a run from *s* is a check that brings a worker. */
  ghost predicate NoneStarts(c: Config, registered: set<Name>, s: State, es: seq<Event>) {
    es == []
    || (&& NoneStarts(c, registered, s, es[..|es| - 1])
        && !Starts(c, Run(c, registered, s, es[..|es| - 1]), es[|es| - 1]))
  }

  /**
    In a lifespan that starts without a worker there is none exactly as long as
    no check has brought one.  Until then only what was left over waits.
  */
  lemma {:induction false} AbsentUntilStarted(c: Config, registered: set<Name>, s: State, es: seq<Event>)
    requires s.line.worker.Absent? && !s.line.shuttingDown && ShutdownBegins !in es
    ensures var t := Run(c, registered, s, es);
            && !t.line.shuttingDown
            && (t.line.worker.Absent? <==> NoneStarts(c, registered, s, es))
            && (t.line.worker.Absent? ==> OnlyLeftovers(s, t))
    decreases |es|
  {
    if es != [] {
      var before, e := es[..|es| - 1], es[|es| - 1];
      var t := Run(c, registered, s, before);
      AbsentUntilStarted(c, registered, s, before);
      if t.line.worker.Absent? {
        WorkerStartsIff(c, registered, t, e);
      } else {
        WorkerGoesOn(c, registered, t, e);
      }
    }
  }

  /**
    So it is after any run that ended with a shutdown, drained or not, and a
    restart: what waits is attended exactly if a check has brought a worker since.
  */
  lemma AttendedAfterRestart(c: Config, registered: set<Name>, before: seq<Event>, es: seq<Event>)
    requires Run(c, registered, Initial(), before).line.shuttingDown && ShutdownBegins !in es
    ensures var s := Run(c, registered, Initial(), before + [WorkerStops, Restart]);
            var t := Run(c, registered, s, es);
            && (t.line.worker.Absent? <==> NoneStarts(c, registered, s, es))
            && (t.line.worker.Absent? ==> OnlyLeftovers(s, t))
  {
    var b, all := Run(c, registered, Initial(), before), before + [WorkerStops, Restart];
    assert all[..|all| - 1] == before + [WorkerStops] && (before + [WorkerStops])[..|before|] == before;
    var s := Apply(c, registered, Apply(c, registered, b, WorkerStops), Restart);
    assert Run(c, registered, Initial(), all) == s;
    AbsentUntilStarted(c, registered, s, es);
  }

  // ------------------------------------------------------------ where the worker is missing

  const DB := Name("db")

  /** A failure, a recovery held back by flap limiting, and a new lifespan with another change. */
  const RESTARTED: seq<Event> := [
    CheckBegins(DB, Unhealthy), CheckEnds(DB), CheckBegins(DB, Healthy), CheckEnds(DB),
    ShutdownBegins, WorkerStops, Restart, CheckBegins(DB, Degraded), CheckEnds(DB)]

  ghost function After(k: nat): State
    requires k <= 9
  {
    if k == 0 then Initial() else Apply(Config(10.0, true), {DB}, After(k - 1), RESTARTED[k - 1])
  }

  lemma {:induction false} AfterIsRun(k: nat)
    requires k <= 9
    ensures After(k) == Run(Config(10.0, true), {DB}, Initial(), RESTARTED[..k])
  {
    if k > 0 {
      AfterIsRun(k - 1);
      assert RESTARTED[..k][..k - 1] == RESTARTED[..k - 1];
    }
  }

  /** The failure is announced at once. */
  lemma {:induction false} FailureAnnounced()
    ensures var s := After(2);
            && s.clock == 0.0 && s.maintenance.None? && !s.line.shuttingDown
            && s.book.states == map[DB := Unhealthy] && s.book.alerted == map[DB := Unhealthy]
            && s.book.lastSent == map[DB := 0.0] && s.book.pending == map[] && s.book.firing == map[]
  {
    assert After(1) == FireBegin(Initial(), DB, Unhealthy);
  }

  /** And the recovery held back behind a marker. */
  lemma {:induction false} MarkerBeforeRestart()
    ensures var s := After(4);
            && s.clock == 0.0 && s.maintenance.None? && !s.line.shuttingDown
            && s.book.states == map[DB := Healthy] && s.book.alerted == map[DB := Unhealthy]
            && s.book.lastSent == map[DB := 0.0] && s.book.pending == map[DB := 10.0] && DB !in s.book.firing
  {
    FailureAnnounced();
    var s3 := After(3);
    assert s3 == FireBegin(After(2), DB, Healthy);
    assert TooSoon(Config(10.0, true), s3, DB);
  }

  lemma {:induction false} AfterStep(k: nat)
    requires k < 9
    ensures After(k + 1) == Apply(Config(10.0, true), {DB}, After(k), RESTARTED[k])
  {
  }

  /** Nothing of the book is lost by a restart, but the worker is. */
  lemma RestartKeepsBook(c: Config, registered: set<Name>, s: State)
    ensures var flagged := Apply(c, registered, s, ShutdownBegins);
            var t := Apply(c, registered, Apply(c, registered, flagged, WorkerStops), Restart);
            t.book == s.book && t.clock == s.clock && t.maintenance == s.maintenance
            && t.line.worker.Absent? && !t.line.shuttingDown
  {
  }

  /** The new lifespan starts with the book of the old one and no worker. */
  lemma {:induction false} Restarted()
    ensures After(7).book == After(4).book && After(7).clock == After(4).clock
    ensures After(7).maintenance == After(4).maintenance
    ensures After(7).line.worker.Absent? && !After(7).line.shuttingDown
  {
    AfterStep(4);
    AfterStep(5);
    AfterStep(6);
    RestartKeepsBook(Config(10.0, true), {DB}, After(4));
  }

  /** Its first check finds another change and is held back behind the old marker. */
  lemma {:induction false} HeldBackAgain(s: State)
    requires s.clock == 0.0 && s.maintenance.None? && DB !in s.book.firing
    requires s.book.states == map[DB := Healthy] && s.book.alerted == map[DB := Unhealthy]
    requires s.book.lastSent == map[DB := 0.0] && s.book.pending == map[DB := 10.0]
    ensures var c := Config(10.0, true);
            var t := Apply(c, {DB}, Apply(c, {DB}, s, CheckBegins(DB, Degraded)), CheckEnds(DB));
            && t.line == s.line && DB in t.book.pending
            && Get(t.book.states, DB) == Some(Degraded) && Announced(t.book, DB) == Unhealthy
  {
    var s1 := FireBegin(s, DB, Degraded);
    assert s1.book.firing[DB] == Firing(Degraded, Some(Alert(DB, Healthy, Degraded)), false);
    var s2 := s1.(book := Fired(s1.book, DB));
    assert TooSoon(Config(10.0, true), s2, DB) && DB in s2.book.pending && Announced(s2.book, DB) == Unhealthy;
  }

  /**
    A marker left over from before a restart keeps its probe's next check from
    waking the worker, so the new lifespan starts none: the marker then waits
    for a check instead of for its due time.
  */
  lemma {:induction false} RestartLeavesMarkerUnattended()
    ensures var s := Run(Config(10.0, true), {DB}, Initial(), RESTARTED);
            && DB in s.book.pending && s.line.worker.Absent? && !s.line.shuttingDown
            && Get(s.book.states, DB) == Some(Degraded) && Announced(s.book, DB) == Unhealthy
  {
    MarkerBeforeRestart();
    Restarted();
    AfterStep(7);
    AfterStep(8);
    HeldBackAgain(After(7));
    AfterIsRun(9);
    assert RESTARTED[..9] == RESTARTED;
  }
}
