/**
  How runs and checks end, told from the events: a run records its result once
  unless it was interrupted before it had one, it can move until it is finished,
  and a check is tracked exactly from when its run gave it up until its callback.
*/
module CheckOutcomes {
  import opened Options
  import opened CheckRuns

  function After(es: seq<Event>): State {
    RunAll(INITIAL, es)
  }

  /** An event with which *r* itself goes on. */
  predicate GoesOn(e: Event, r: nat) {
    (e.Starts? || e.Returns? || e.Deadline? || e.GraceEnds? || e.GivesUp? || e.Recorded?) && e.run == r
  }

  /** Apart from asking and forgetting, an event at most moves runs from stage to stage. */
  lemma RunsFrame(s: State, e: Event, r: nat)
    requires !e.Ask? && !e.ForgetRun?
    ensures var t := Apply(s, e);
            && t.inflight == s.inflight && |t.runs| == |s.runs|
            && (r < |s.runs| ==> t.runs[r].(stage := s.runs[r].stage) == s.runs[r])
            && (r < |s.runs| && !((GoesOn(e, r) || e == Interrupt(r)) && Enabled(s, e)) ==> t.runs[r] == s.runs[r])
  {
  }

  // ------------------------------------------------------------ a run and its result

  /**
    An event that ends the run *r* without a result: it is cancelled before it
    begins or while its timed check runs or unwinds, or its untimed check lets
    the cancellation through.
  */
  predicate StopsEarly(s: State, e: Event, r: nat) {
    && Enabled(s, e) && r < |s.runs|
    && var run := s.runs[r];
       || (e == Interrupt(r) && (run.stage.Created? || run.stage.Unwinding? || (run.stage.Checking? && run.timed)))
       || e == GivesUp(r)
  }

  /** In the run of events *es* that happened to *r*. */
  predicate StoppedEarly(es: seq<Event>, r: nat) {
    es != [] && (StopsEarly(After(es[..|es| - 1]), es[|es| - 1], r) || StoppedEarly(es[..|es| - 1], r))
  }

  predicate HasResult(s: State, r: nat) {
    r < |s.runs| && s.runs[r].stage.Recording?
  }

  /** At some moment of *es* the run *r* had a result to record. */
  predicate HadResult(es: seq<Event>, r: nat) {
    es != [] && (HasResult(After(es), r) || HadResult(es[..|es| - 1], r))
  }

  /** The run *r* was interrupted while it recorded. */
  predicate CutWhileRecording(es: seq<Event>, r: nat) {
    es != []
    && ((es[|es| - 1] == Interrupt(r) && HasResult(After(es[..|es| - 1]), r)) || CutWhileRecording(es[..|es| - 1], r))
  }

  /** How often *r* recorded a result. */
  function Recordings(es: seq<Event>, r: nat): nat {
    if es == [] then 0
    else
      var past, e := es[..|es| - 1], es[|es| - 1];
      Recordings(past, r) + if e == Recorded(r) && Enabled(After(past), e) then 1 else 0
  }

  /**
    What the stage of *r* says of its past: whether it was stopped early, had a
    result, was cut while recording it, how often it recorded, and whether an
    interruption came for it.
  */
  ghost predicate Remembers(s: State, r: nat, early: bool, result: bool, cut: bool, count: nat, interrupt: bool) {
    && (early || cut ==> interrupt) && (cut ==> result)
    && if r >= |s.runs| then !early && !result && count == 0
       else
         match s.runs[r].stage
         case Created => !early && !result && count == 0
         case Checking(_, interrupted) =>
           !early && !result && count == 0 && (interrupted ==> interrupt && !s.runs[r].timed)
         case Unwinding(_, interrupted) => (interrupted <==> early) && !result && count == 0
         case Recording => !early && result && !cut && count == 0
         case Finished => (result <==> !early) && count == if result && !cut then 1 else 0
  }

  lemma StepRemembers(s: State, e: Event, r: nat, early: bool, result: bool, cut: bool, count: nat, interrupt: bool)
    requires Remembers(s, r, early, result, cut, count, interrupt)
    ensures Remembers(Apply(s, e), r, early || StopsEarly(s, e, r), result || HasResult(Apply(s, e), r),
                      cut || (e == Interrupt(r) && HasResult(s, r)),
                      count + (if e == Recorded(r) && Enabled(s, e) then 1 else 0), interrupt || e == Interrupt(r))
  {
    if !e.Ask? && !e.ForgetRun? { RunsFrame(s, e, r); }
  }

  lemma {:induction false} RunRemembers(es: seq<Event>, r: nat)
    ensures Remembers(After(es), r, StoppedEarly(es, r), HadResult(es, r), CutWhileRecording(es, r), Recordings(es, r),
                      Interrupt(r) in es)
    decreases |es|
  {
    if es != [] {
      var past, e := es[..|es| - 1], es[|es| - 1];
      RunRemembers(past, r);
      assert es == past + [e];
      StepRemembers(After(past), e, r, StoppedEarly(past, r), HadResult(past, r), CutWhileRecording(past, r),
                    Recordings(past, r), Interrupt(r) in past);
    }
  }

  /**
    Over every run of events: a finished run had a result if and only if it was
    not stopped before it had one, and recorded it, once, if and only if it was
    not cut while doing so either.  So one that nobody interrupted recorded
    exactly once, and none ever does twice.
  */
  lemma RunOutcome(es: seq<Event>, r: nat)
    requires r < |After(es).runs|
    ensures After(es).runs[r].stage.Finished? ==> (HadResult(es, r) <==> !StoppedEarly(es, r))
    ensures After(es).runs[r].stage.Finished? ==>
        Recordings(es, r) == if !StoppedEarly(es, r) && !CutWhileRecording(es, r) then 1 else 0
    ensures !After(es).runs[r].stage.Finished? ==> Recordings(es, r) == 0
    ensures After(es).runs[r].stage.Finished? && Interrupt(r) !in es ==> Recordings(es, r) == 1
  {
    RunRemembers(es, r);
  }

  // ------------------------------------------------------------ a run can move until it is finished

  /** How many stages are still ahead, at most. */
  function Ahead(stage: Stage): nat {
    match stage
    case Created => 4
    case Checking(_, _) => 3
    case Unwinding(_, _) => 2
    case Recording => 1
    case Finished => 0
  }

  /** No event sets a run back, and each event of its own brings it on. */
  lemma RunMovesOn(s: State, e: Event, r: nat)
    requires r < |s.runs|
    ensures var t := Apply(s, e);
            && r < |t.runs| && t.runs[r].probe == s.runs[r].probe && t.runs[r].timed == s.runs[r].timed
            && Ahead(t.runs[r].stage) <= Ahead(s.runs[r].stage)
            && (Enabled(s, e) && GoesOn(e, r) ==> Ahead(t.runs[r].stage) < Ahead(s.runs[r].stage))
  {
    if !e.Ask? && !e.ForgetRun? { RunsFrame(s, e, r); }
  }

  /** An unfinished run can go on, unless it waits without a time limit for a check that is still live. */
  lemma UnfinishedCanGoOn(es: seq<Event>, r: nat)
    requires r < |After(es).runs| && !After(es).runs[r].stage.Finished?
    ensures var s := After(es);
            || (exists e :: GoesOn(e, r) && Enabled(s, e))
            || (&& s.runs[r].stage.Checking? && !s.runs[r].timed
                && s.runs[r].stage.check < |s.checks| && s.checks[s.runs[r].stage.check].live)
  {
    RunKeepsInv(es);
    var s := After(es);
    assert RunInv(s, r);
    match s.runs[r].stage
    case Created => assert Enabled(s, Starts(r, false)) && GoesOn(Starts(r, false), r);
    case Checking(c, _) =>
      assert s.runs[r].stage.Holds(c);
      if !s.checks[c].live {
        assert Enabled(s, Returns(r)) && GoesOn(Returns(r), r);
      } else if s.runs[r].timed {
        assert Enabled(s, Deadline(r)) && GoesOn(Deadline(r), r);
      }
    case Unwinding(c, _) =>
      assert s.runs[r].stage.Holds(c);
      assert Enabled(s, GraceEnds(r)) && GoesOn(GraceEnds(r), r);
    case Recording => assert Enabled(s, Recorded(r)) && GoesOn(Recorded(r), r);
  }

  // ------------------------------------------------------------ the two tables

  /** The run *r* was forgotten: its callback ran. */
  predicate Forgotten(es: seq<Event>, r: nat) {
    es != []
    && ((es[|es| - 1] == ForgetRun(r) && Enabled(After(es[..|es| - 1]), es[|es| - 1])) || Forgotten(es[..|es| - 1], r))
  }

  /** A run is in flight for its probe, so that callers join it, from when it was asked for until it is forgotten. */
  lemma {:induction false} InFlightUntilForgotten(es: seq<Event>, r: nat)
    ensures r < |After(es).runs| ==>
        (Get(After(es).inflight, After(es).runs[r].probe) == Some(r) <==> !Forgotten(es, r))
    ensures r >= |After(es).runs| ==> !Forgotten(es, r)
    decreases |es|
  {
    if es != [] {
      var past, e := es[..|es| - 1], es[|es| - 1];
      InFlightUntilForgotten(past, r);
      assert MapsInv(After(past)) by { RunKeepsInv(past); }
      FlightStep(After(past), e, r);
    }
  }

  lemma FlightStep(s: State, e: Event, r: nat)
    requires MapsInv(s)
    ensures var t := Apply(s, e);
            && |s.runs| <= |t.runs| <= |s.runs| + 1
            && (r < |s.runs| ==>
                  (Get(t.inflight, t.runs[r].probe) == Some(r)
                   <==> Get(s.inflight, s.runs[r].probe) == Some(r) && !(e == ForgetRun(r) && Enabled(s, e))))
            && (r >= |s.runs| ==> !(e == ForgetRun(r) && Enabled(s, e)))
            && (r == |s.runs| < |t.runs| ==> Get(t.inflight, t.runs[r].probe) == Some(r))
  {
    if !e.Ask? && !e.ForgetRun? { RunsFrame(s, e, r); }
  }

  /** A run is started exactly for a probe without one in flight, as it was asked for. */
  lemma AskStartsIff(s: State, e: Event)
    ensures var t := Apply(s, e);
            if e.Ask? && e.probe !in s.inflight
            then |t.runs| == |s.runs| + 1 && t.runs[|s.runs|] == Run(e.probe, e.timed, Created)
            else |t.runs| == |s.runs|
  {
  }

  /** The check *c* stopped. */
  predicate Stopped(es: seq<Event>, c: nat) {
    es != []
    && ((es[|es| - 1] == CheckStops(c) && Enabled(After(es[..|es| - 1]), es[|es| - 1])) || Stopped(es[..|es| - 1], c))
  }

  /** A check is live until it stops, whatever its run does meanwhile. */
  lemma {:induction false} LiveUntilStopped(es: seq<Event>, c: nat)
    ensures if c < |After(es).checks| then After(es).checks[c].live <==> !Stopped(es, c) else !Stopped(es, c)
    decreases |es|
  {
    if es != [] { LiveUntilStopped(es[..|es| - 1], c); }
  }

  /** The run waiting for *c* stops waiting while *c* lives: its grace ends, or it is cancelled again. */
  predicate GivesUpOn(s: State, e: Event, c: nat) {
    && Enabled(s, e) && (e.GraceEnds? || e.Interrupt?)
    && s.runs[e.run].stage.Unwinding? && s.runs[e.run].stage.check == c && c < |s.checks| && s.checks[c].live
  }

  /** In the run of events *es* the check *c* was given up, and its callback has not run since. */
  predicate GivenUp(es: seq<Event>, c: nat) {
    es != []
    && var s, e := After(es[..|es| - 1]), es[|es| - 1];
       GivesUpOn(s, e, c) || (GivenUp(es[..|es| - 1], c) && !(e == ForgetCheck(c) && Enabled(s, e)))
  }

  /** A check is tracked, and keeps its probe from being checked, if and only if it was given up while it lived. */
  lemma {:induction false} TrackedIff(es: seq<Event>, c: nat)
    ensures var s := After(es);
            if c < |s.checks| then Get(s.abandoned, s.checks[c].probe) == Some(c) <==> GivenUp(es, c)
            else !GivenUp(es, c)
    decreases |es|
  {
    if es != [] {
      var past, e := es[..|es| - 1], es[|es| - 1];
      TrackedIff(past, c);
      assert Inv(After(past)) by { RunKeepsInv(past); }
      TrackStep(After(past), e, c);
    }
  }

  lemma TrackStep(s: State, e: Event, c: nat)
    requires Inv(s)
    ensures var t := Apply(s, e);
            && |s.checks| <= |t.checks|
            && (c < |s.checks| ==> t.checks[c].probe == s.checks[c].probe)
            && (c < |s.checks| ==>
                  (Get(t.abandoned, s.checks[c].probe) == Some(c)
                   <==> GivesUpOn(s, e, c)
                        || (Get(s.abandoned, s.checks[c].probe) == Some(c) && !(e == ForgetCheck(c) && Enabled(s, e)))))
            && (|s.checks| <= c < |t.checks| ==> Get(t.abandoned, t.checks[c].probe) != Some(c))
  {
    if Enabled(s, e) && (e.GraceEnds? || e.Interrupt?) && s.runs[e.run].stage.Unwinding? {
      assert RunInv(s, e.run) && s.runs[e.run].stage.Holds(s.runs[e.run].stage.check);
    }
  }

  /** A check starts exactly when a run begins past the breaker and no check of its probe is tracked. */
  lemma CheckStartsIff(es: seq<Event>, e: Event)
    ensures var s, t := After(es), Apply(After(es), e);
            if e.Starts? && Enabled(s, e) && !e.circuitOpen
               && (forall c: nat :: c < |s.checks| && s.checks[c].probe == s.runs[e.run].probe ==> !GivenUp(es, c))
            then t.checks == s.checks + [Check(s.runs[e.run].probe, e.run, true)]
            else |t.checks| == |s.checks|
  {
    RunKeepsInv(es);
    var s := After(es);
    if e.Starts? && Enabled(s, e) {
      var p := s.runs[e.run].probe;
      if p in s.abandoned {
        TrackedIff(es, s.abandoned[p]);
      } else {
        forall c: nat | c < |s.checks| && s.checks[c].probe == p ensures !GivenUp(es, c) { TrackedIff(es, c); }
      }
    }
  }
}
