/**
  Running a probe's check: callers share the run in flight, a timed check is
  cancelled at its deadline and given a bounded grace to unwind, and a check
  that ignores cancellation is tracked until it stops.

  Runs and checks are numbered in the order they start.  Each event is one
  synchronous stretch of the event loop, a callback scheduled by a finished
  task included.
*/
module CheckRuns {
  import opened Options

  datatype Probe = Probe(id: nat)

  /**
    A run is created, waits for its check or for a cancelled one to unwind,
    records its result, and is finished.  *interrupted* is whether its own task
    was cancelled meanwhile.
  */
  datatype Stage =
    | Created
    | Checking(check: nat, interrupted: bool)
    | Unwinding(check: nat, interrupted: bool)
    | Recording
    | Finished
  {
    /** The check this stage is waiting for. */
    predicate Holds(c: nat) {
      (Checking? && check == c) || (Unwinding? && check == c)
    }
  }

  datatype Run = Run(probe: Probe, timed: bool, stage: Stage)

  datatype Check = Check(probe: Probe, run: nat, live: bool)

  /** *watched* are the checks whose end will call back to take them off *abandoned*. */
  datatype State = State(
    inflight: map<Probe, nat>,
    abandoned: map<Probe, nat>,
    runs: seq<Run>,
    checks: seq<Check>,
    watched: set<nat>)

  const INITIAL := State(map[], map[], [], [], {})

  datatype Event =
    | Ask(probe: Probe, timed: bool)
    | Starts(run: nat, circuitOpen: bool)
    | CheckStops(check: nat)
    | Returns(run: nat)
    | Deadline(run: nat)
    | Interrupt(run: nat)
    | GraceEnds(run: nat)
    | GivesUp(run: nat)
    | Recorded(run: nat)
    | ForgetRun(run: nat)
    | ForgetCheck(check: nat)

  // ------------------------------------------------------------ steps

  function At(s: State, r: nat, stage: Stage): State
    requires r < |s.runs|
  {
    s.(runs := s.runs[r := s.runs[r].(stage := stage)])
  }

  /** Join the run in flight, or start one. */
  function SharedRun(s: State, p: Probe, timed: bool): State {
    if p in s.inflight then s
    else s.(runs := s.runs + [Run(p, timed, Created)], inflight := s.inflight[p := |s.runs|])
  }

  /** The run begins: an open circuit or a check still running from before means no new check. */
  function Begin(s: State, r: nat, circuitOpen: bool): State
    requires r < |s.runs|
  {
    var p := s.runs[r].probe;
    if circuitOpen || p in s.abandoned then At(s, r, Recording)
    else At(s, r, Checking(|s.checks|, false)).(checks := s.checks + [Check(p, r, true)])
  }

  /** The end of the wait for a cancelled check: one that did not stop is tracked as abandoned. */
  function EndUnwinding(s: State, r: nat): State
    requires r < |s.runs| && s.runs[r].stage.Unwinding? && s.runs[r].stage.check < |s.checks|
  {
    var stage := s.runs[r].stage;
    var s1 := At(s, r, if stage.interrupted then Finished else Recording);
    if s.checks[stage.check].live then
      s1.(abandoned := s.abandoned[s.runs[r].probe := stage.check], watched := s.watched + {stage.check})
    else s1
  }

  /**
    Cancelling the run's own task: a timed run first unwinds its check; in an
    untimed one the cancellation goes into the check, which may let it through
    when it stops (*GivesUp*) or swallow it and return a result.
  */
  function Interrupted(s: State, r: nat): State
    requires r < |s.runs| && (s.runs[r].stage.Unwinding? ==> s.runs[r].stage.check < |s.checks|)
  {
    match s.runs[r].stage
    case Created => At(s, r, Finished)
    case Checking(c, _) => At(s, r, if s.runs[r].timed then Unwinding(c, true) else Checking(c, true))
    case Unwinding(c, _) => EndUnwinding(At(s, r, Unwinding(c, true)), r)
    case Recording => At(s, r, Finished)
    case Finished => s
  }

  predicate Enabled(s: State, e: Event) {
    match e
    case Ask(_, _) => true
    case Starts(r, _) => r < |s.runs| && s.runs[r].stage.Created?
    case CheckStops(c) => c < |s.checks| && s.checks[c].live
    case Returns(r) =>
      r < |s.runs| && s.runs[r].stage.Checking? && s.runs[r].stage.check < |s.checks|
      && !s.checks[s.runs[r].stage.check].live
    case Deadline(r) =>
      r < |s.runs| && s.runs[r].timed && s.runs[r].stage.Checking? && s.runs[r].stage.check < |s.checks|
      && s.checks[s.runs[r].stage.check].live
    case Interrupt(r) => r < |s.runs| && (s.runs[r].stage.Unwinding? ==> s.runs[r].stage.check < |s.checks|)
    case GraceEnds(r) => r < |s.runs| && s.runs[r].stage.Unwinding? && s.runs[r].stage.check < |s.checks|
    case GivesUp(r) =>
      r < |s.runs| && s.runs[r].stage.Checking? && s.runs[r].stage.interrupted && s.runs[r].stage.check < |s.checks|
      && !s.checks[s.runs[r].stage.check].live
    case Recorded(r) => r < |s.runs| && s.runs[r].stage.Recording?
    case ForgetRun(r) => r < |s.runs| && s.runs[r].stage.Finished?
    case ForgetCheck(c) => c in s.watched && c < |s.checks| && !s.checks[c].live
  }

  /** The effect of an event; one that cannot happen changes nothing. */
  function Apply(s: State, e: Event): State {
    if !Enabled(s, e) then s else
    match e
    case Ask(p, timed) => SharedRun(s, p, timed)
    case Starts(r, circuitOpen) => Begin(s, r, circuitOpen)
    case CheckStops(c) => s.(checks := s.checks[c := s.checks[c].(live := false)])
    case Returns(r) => At(s, r, Recording)
    case Deadline(r) => At(s, r, Unwinding(s.runs[r].stage.check, false))
    case Interrupt(r) => Interrupted(s, r)
    case GraceEnds(r) => EndUnwinding(s, r)
    case GivesUp(r) => At(s, r, Finished)
    case Recorded(r) => At(s, r, Finished)
    case ForgetRun(r) =>
      if Get(s.inflight, s.runs[r].probe) == Some(r) then s.(inflight := s.inflight - {s.runs[r].probe}) else s
    case ForgetCheck(c) => s.(abandoned := s.abandoned - {s.checks[c].probe}, watched := s.watched - {c})
  }

  function RunAll(s: State, es: seq<Event>): State {
    if es == [] then s else Apply(RunAll(s, es[..|es| - 1]), es[|es| - 1])
  }

  // ------------------------------------------------------------ invariant

  /** A run that is not finished is the one in flight for its probe, and waits for a check of its own. */
  ghost predicate RunInv(s: State, r: nat)
    requires r < |s.runs|
  {
    var run := s.runs[r];
    && (!run.stage.Finished? ==> Get(s.inflight, run.probe) == Some(r))
    && forall c: nat :: run.stage.Holds(c) ==>
         c < |s.checks| && s.checks[c].run == r && s.checks[c].probe == run.probe && run.probe !in s.abandoned
  }

  /** A live check is the one its run waits for, or the abandoned one of its probe. */
  ghost predicate CheckInv(s: State, c: nat)
    requires c < |s.checks|
  {
    var check := s.checks[c];
    && check.run < |s.runs| && s.runs[check.run].probe == check.probe
    && !s.runs[check.run].stage.Created?
    && (check.live ==> s.runs[check.run].stage.Holds(c) || Get(s.abandoned, check.probe) == Some(c))
  }

  ghost predicate RunsInv(s: State) {
    && (forall r :: 0 <= r < |s.runs| ==> RunInv(s, r))
    && (forall c :: 0 <= c < |s.checks| ==> CheckInv(s, c))
  }

  ghost predicate MapsInv(s: State) {
    && (forall p :: p in s.inflight ==> s.inflight[p] < |s.runs| && s.runs[s.inflight[p]].probe == p)
    && (forall p :: p in s.abandoned ==>
          s.abandoned[p] < |s.checks| && s.checks[s.abandoned[p]].probe == p && s.abandoned[p] in s.watched)
    && (forall c :: c in s.watched ==> c < |s.checks| && Get(s.abandoned, s.checks[c].probe) == Some(c))
  }

  ghost predicate Inv(s: State) {
    RunsInv(s) && MapsInv(s)
  }

  // ------------------------------------------------------------ every event keeps it

  lemma AskKeeps(s: State, p: Probe, timed: bool)
    requires Inv(s)
    ensures Inv(SharedRun(s, p, timed))
  {
    var t := SharedRun(s, p, timed);
    forall r | 0 <= r < |t.runs| ensures RunInv(t, r) { assert r < |s.runs| ==> RunInv(s, r); }
    forall c | 0 <= c < |t.checks| ensures CheckInv(t, c) { assert CheckInv(s, c); }
  }

  /** A run may move on when it waits for nothing new and drops a check only if that stopped. */
  lemma AtKeeps(s: State, r: nat, stage: Stage)
    requires Inv(s) && r < |s.runs| && !stage.Created?
    requires s.runs[r].stage.Finished? ==> stage.Finished?
    requires forall c: nat :: stage.Holds(c) ==> s.runs[r].stage.Holds(c)
    requires forall c: nat :: s.runs[r].stage.Holds(c) && !stage.Holds(c) ==> c < |s.checks| && !s.checks[c].live
    ensures Inv(At(s, r, stage))
  {
    var t := At(s, r, stage);
    forall q | 0 <= q < |t.runs| ensures RunInv(t, q) { assert RunInv(s, q); }
    forall c | 0 <= c < |t.checks| ensures CheckInv(t, c) { assert CheckInv(s, c); }
  }

  lemma BeginKeeps(s: State, r: nat, circuitOpen: bool)
    requires Inv(s) && r < |s.runs| && s.runs[r].stage.Created?
    ensures Inv(Begin(s, r, circuitOpen))
  {
    var p, t := s.runs[r].probe, Begin(s, r, circuitOpen);
    if circuitOpen || p in s.abandoned {
      AtKeeps(s, r, Recording);
    } else {
      forall q | 0 <= q < |t.runs| ensures RunInv(t, q) { assert RunInv(s, q) && RunInv(s, r); }
      forall c | 0 <= c < |t.checks| ensures CheckInv(t, c) { assert c < |s.checks| ==> CheckInv(s, c); }
    }
  }

  lemma StopKeeps(s: State, c: nat)
    requires Inv(s) && c < |s.checks|
    ensures Inv(s.(checks := s.checks[c := s.checks[c].(live := false)]))
  {
    var t := s.(checks := s.checks[c := s.checks[c].(live := false)]);
    forall r | 0 <= r < |t.runs| ensures RunInv(t, r) { assert RunInv(s, r); }
    forall d | 0 <= d < |t.checks| ensures CheckInv(t, d) { assert CheckInv(s, d); }
  }

  lemma EndUnwindingKeeps(s: State, r: nat)
    requires Inv(s) && r < |s.runs| && s.runs[r].stage.Unwinding? && s.runs[r].stage.check < |s.checks|
    ensures Inv(EndUnwinding(s, r))
  {
    var t, c := EndUnwinding(s, r), s.runs[r].stage.check;
    assert RunInv(s, r) && s.runs[r].stage.Holds(c);
    if s.checks[c].live {
      forall q | 0 <= q < |t.runs| ensures RunInv(t, q) { assert RunInv(s, q); }
      forall d | 0 <= d < |t.checks| ensures CheckInv(t, d) { assert CheckInv(s, d); }
    } else {
      AtKeeps(s, r, if s.runs[r].stage.interrupted then Finished else Recording);
    }
  }

  lemma InterruptKeeps(s: State, r: nat)
    requires Inv(s) && r < |s.runs| && (s.runs[r].stage.Unwinding? ==> s.runs[r].stage.check < |s.checks|)
    ensures Inv(Interrupted(s, r))
  {
    match s.runs[r].stage
    case Created => AtKeeps(s, r, Finished);
    case Checking(c, _) => AtKeeps(s, r, if s.runs[r].timed then Unwinding(c, true) else Checking(c, true));
    case Unwinding(c, _) =>
      AtKeeps(s, r, Unwinding(c, true));
      EndUnwindingKeeps(At(s, r, Unwinding(c, true)), r);
    case Recording => AtKeeps(s, r, Finished);
    case Finished =>
  }

  lemma ForgetRunKeeps(s: State, r: nat)
    requires Inv(s) && r < |s.runs| && s.runs[r].stage.Finished?
    ensures Inv(Apply(s, ForgetRun(r)))
  {
    var t := Apply(s, ForgetRun(r));
    forall q | 0 <= q < |t.runs| ensures RunInv(t, q) { assert RunInv(s, q); }
    forall c | 0 <= c < |t.checks| ensures CheckInv(t, c) { assert CheckInv(s, c); }
  }

  lemma ForgetCheckKeeps(s: State, c: nat)
    requires Inv(s) && c in s.watched && c < |s.checks| && !s.checks[c].live
    ensures Inv(Apply(s, ForgetCheck(c)))
  {
    var t := Apply(s, ForgetCheck(c));
    forall q | 0 <= q < |t.runs| ensures RunInv(t, q) { assert RunInv(s, q); }
    forall d | 0 <= d < |t.checks| ensures CheckInv(t, d) { assert CheckInv(s, d); }
  }

  lemma ApplyKeepsInv(s: State, e: Event)
    requires Inv(s)
    ensures Inv(Apply(s, e))
  {
    if Enabled(s, e) {
      match e
      case Ask(p, timed) => AskKeeps(s, p, timed);
      case Starts(r, circuitOpen) => BeginKeeps(s, r, circuitOpen);
      case CheckStops(c) => StopKeeps(s, c);
      case Returns(r) => AtKeeps(s, r, Recording);
      case Deadline(r) => AtKeeps(s, r, Unwinding(s.runs[r].stage.check, false));
      case Interrupt(r) => InterruptKeeps(s, r);
      case GraceEnds(r) => EndUnwindingKeeps(s, r);
      case GivesUp(r) => AtKeeps(s, r, Finished);
      case Recorded(r) => AtKeeps(s, r, Finished);
      case ForgetRun(r) => ForgetRunKeeps(s, r);
      case ForgetCheck(c) => ForgetCheckKeeps(s, c);
    }
  }

  lemma {:induction false} RunKeepsInv(es: seq<Event>)
    ensures Inv(RunAll(INITIAL, es))
    decreases |es|
  {
    if es != [] {
      RunKeepsInv(es[..|es| - 1]);
      ApplyKeepsInv(RunAll(INITIAL, es[..|es| - 1]), es[|es| - 1]);
    }
  }

  // ------------------------------------------------------------ what it gives

  /** At most one check of a probe is live, whoever asks, however often runs time out or are cancelled. */
  lemma AtMostOneLiveCheck(es: seq<Event>, c: nat, d: nat)
    requires var s := RunAll(INITIAL, es);
             && c < |s.checks| && d < |s.checks| && s.checks[c].live && s.checks[d].live
             && s.checks[c].probe == s.checks[d].probe
    ensures c == d
  {
    RunKeepsInv(es);
    var s := RunAll(INITIAL, es);
    assert CheckInv(s, c) && CheckInv(s, d);
    assert RunInv(s, s.checks[c].run) && RunInv(s, s.checks[d].run);
  }

  /** At most one run of a probe is unfinished: it is the one every caller joins. */
  lemma AtMostOneRun(es: seq<Event>, r: nat, q: nat)
    requires var s := RunAll(INITIAL, es);
             && r < |s.runs| && q < |s.runs| && s.runs[r].probe == s.runs[q].probe
             && !s.runs[r].stage.Finished? && !s.runs[q].stage.Finished?
    ensures r == q && Apply(RunAll(INITIAL, es), Ask(RunAll(INITIAL, es).runs[r].probe, true)) == RunAll(INITIAL, es)
  {
    RunKeepsInv(es);
    var s := RunAll(INITIAL, es);
    assert RunInv(s, r) && RunInv(s, q);
  }

  /** Once its run has a result or is over, a check has stopped or is tracked as abandoned. */
  lemma FinishedRunAccounted(es: seq<Event>, c: nat)
    requires c < |RunAll(INITIAL, es).checks|
    ensures var s := RunAll(INITIAL, es);
            && s.checks[c].run < |s.runs|
            && (!s.runs[s.checks[c].run].stage.Holds(c) ==>
                  !s.checks[c].live || (Get(s.abandoned, s.checks[c].probe) == Some(c) && c in s.watched))
  {
    RunKeepsInv(es);
    assert CheckInv(RunAll(INITIAL, es), c);
  }

  /** The checks of *p* among *checks*. */
  function ChecksOf(checks: seq<Check>, p: Probe): seq<Check> {
    if checks == [] then []
    else ChecksOf(checks[..|checks| - 1], p)
         + (if checks[|checks| - 1].probe == p then [checks[|checks| - 1]] else [])
  }

  lemma {:induction false} ChecksOfUpdate(checks: seq<Check>, i: nat, x: Check, p: Probe)
    requires i < |checks| && checks[i].probe == x.probe != p
    ensures ChecksOf(checks[i := x], p) == ChecksOf(checks, p)
    decreases |checks|
  {
    if i < |checks| - 1 {
      ChecksOfUpdate(checks[..|checks| - 1], i, x, p);
      assert checks[i := x][..|checks| - 1] == checks[..|checks| - 1][i := x];
    } else {
      assert checks[i := x][..i] == checks[..i];
    }
  }

  /** In *t* the check *c* still runs and is tracked, and its probe has had no other check since *s*. */
  ghost predicate Blocks(s: State, t: State, c: nat)
    requires c < |s.checks|
  {
    var p := s.checks[c].probe;
    && c < |t.checks| && t.checks[c] == s.checks[c] && Get(t.abandoned, p) == Some(c)
    && ChecksOf(t.checks, p) == ChecksOf(s.checks, p)
  }

  ghost predicate Abandoned(s: State, c: nat) {
    c < |s.checks| && s.checks[c].live && Get(s.abandoned, s.checks[c].probe) == Some(c)
  }

  lemma BeginBlocked(s: State, r: nat, circuitOpen: bool, c: nat)
    requires Inv(s) && Abandoned(s, c) && r < |s.runs|
    ensures Blocks(s, Begin(s, r, circuitOpen), c)
  {
    assert (s.checks + [Check(s.runs[r].probe, r, true)])[..|s.checks|] == s.checks;
  }

  lemma OtherStopBlocked(s: State, d: nat, c: nat)
    requires Inv(s) && Abandoned(s, c) && d < |s.checks| && d != c && s.checks[d].live
    ensures Blocks(s, s.(checks := s.checks[d := s.checks[d].(live := false)]), c)
  {
    assert CheckInv(s, d) && CheckInv(s, c);
    assert RunInv(s, s.checks[d].run);
    ChecksOfUpdate(s.checks, d, s.checks[d].(live := false), s.checks[c].probe);
  }

  lemma UnwindingBlocked(s: State, r: nat, c: nat)
    requires Inv(s) && Abandoned(s, c) && r < |s.runs| && s.runs[r].stage.Unwinding?
    requires s.runs[r].stage.check < |s.checks|
    ensures Blocks(s, EndUnwinding(s, r), c)
  {
    assert RunInv(s, r);
  }

  lemma InterruptBlocked(s: State, r: nat, c: nat)
    requires Inv(s) && Abandoned(s, c) && r < |s.runs|
    requires s.runs[r].stage.Unwinding? ==> s.runs[r].stage.check < |s.checks|
    ensures Blocks(s, Interrupted(s, r), c)
  {
    assert RunInv(s, r);
  }

  /** While an abandoned check keeps running it stays tracked, and its probe gets no new check. */
  lemma StepBlocked(s: State, e: Event, c: nat)
    requires Inv(s) && Abandoned(s, c) && e != CheckStops(c)
    ensures Blocks(s, Apply(s, e), c)
  {
    if Enabled(s, e) {
      match e
      case Starts(r, circuitOpen) => BeginBlocked(s, r, circuitOpen, c);
      case CheckStops(d) => OtherStopBlocked(s, d, c);
      case Interrupt(r) => InterruptBlocked(s, r, c);
      case GraceEnds(r) => UnwindingBlocked(s, r, c);
      case _ =>
    }
  }

  /** A check that ignores cancellation blocks every new check of its probe until it stops. */
  lemma {:induction false} AbandonedCheckBlocks(s: State, es: seq<Event>, c: nat)
    requires Inv(s) && c < |s.checks| && s.checks[c].live && Get(s.abandoned, s.checks[c].probe) == Some(c)
    requires CheckStops(c) !in es
    ensures var t, p := RunAll(s, es), s.checks[c].probe;
            && Inv(t) && c < |t.checks| && t.checks[c] == s.checks[c] && Get(t.abandoned, p) == Some(c)
            && ChecksOf(t.checks, p) == ChecksOf(s.checks, p)
    decreases |es|
  {
    if es != [] {
      var t := RunAll(s, es[..|es| - 1]);
      AbandonedCheckBlocks(s, es[..|es| - 1], c);
      ApplyKeepsInv(t, es[|es| - 1]);
      StepBlocked(t, es[|es| - 1], c);
    }
  }

  /** When it has stopped, its callback lifts the block and the next run checks again. */
  lemma StoppedCheckUnblocks(s: State, c: nat, r: nat)
    requires Inv(s) && c in s.watched && !s.checks[c].live
    requires r < |s.runs| && s.runs[r].probe == s.checks[c].probe && s.runs[r].stage.Created?
    ensures var t := Apply(Apply(s, ForgetCheck(c)), Starts(r, false));
            t.runs[r].stage == Checking(|s.checks|, false) && t.checks == s.checks + [Check(s.checks[c].probe, r, true)]
  {
  }

  // ------------------------------------------------------------ the registry's own methods

  /** The registry's two tables, keyed by probe; runs and checks are tasks of the event loop. */
  class Execution {
    var inflight: map<Probe, nat>
    var abandoned: map<Probe, nat>
    ghost var runs: seq<Run>
    ghost var checks: seq<Check>
    ghost var watched: set<nat>

    ghost function View(): State
      reads this
    {
      State(inflight, abandoned, runs, checks, watched)
    }

    constructor ()
      ensures View() == INITIAL
    {
      inflight, abandoned, runs, checks, watched := map[], map[], [], [], {};
    }

    /** `_shared_run`; *newTask* is the task created when there is none. */
    method SharedRun(p: Probe, timed: bool, newTask: nat) returns (task: nat)
      requires newTask == |runs|
      modifies this
      ensures View() == Apply(old(View()), Ask(p, timed)) && Get(inflight, p) == Some(task)
    {
      if p in inflight {
        return inflight[p];
      }
      task := newTask;
      inflight := inflight[p := task];
      runs := runs + [Run(p, timed, Created)];
    }

    /** `_forget`, the callback of a finished run. */
    method Forget(p: Probe, done: nat)
      requires done < |runs| && runs[done].probe == p && runs[done].stage.Finished?
      modifies this
      ensures View() == Apply(old(View()), ForgetRun(done))
    {
      if p in inflight && inflight[p] == done {
        inflight := inflight - {p};
      }
    }

    /** `_guarded_check` up to its wait; *started* is false when the previous check is still running. */
    method GuardedCheck(p: Probe, run: nat) returns (started: bool)
      requires run < |runs| && runs[run].probe == p && runs[run].stage.Created?
      modifies this
      ensures View() == Apply(old(View()), Starts(run, false))
      ensures started <==> p !in old(abandoned)
    {
      if p in abandoned {
        runs := runs[run := runs[run].(stage := Recording)];
        return false;
      }
      checks := checks + [Check(p, run, true)];
      runs := runs[run := runs[run].(stage := Checking(|checks| - 1, false))];
      started := true;
    }

    /** The `finally` of `_cancel_check`; *stopped* is `task.done()`. */
    method EndCancel(p: Probe, run: nat, task: nat, stopped: bool)
      requires run < |runs| && task < |checks| && runs[run].probe == p
      requires runs[run].stage.Unwinding? && runs[run].stage.check == task && stopped == !checks[task].live
      modifies this
      ensures View() == Apply(old(View()), GraceEnds(run))
    {
      if !stopped {
        abandoned := abandoned[p := task];
        watched := watched + {task};
      }
      runs := runs[run := runs[run].(stage := if runs[run].stage.interrupted then Finished else Recording)];
    }

    /** The callback that takes a stopped check off the table. */
    method CheckDone(p: Probe, task: nat)
      requires task in watched && task < |checks| && !checks[task].live && checks[task].probe == p
      modifies this
      ensures View() == Apply(old(View()), ForgetCheck(task))
    {
      abandoned := abandoned - {p};
      watched := watched - {task};
    }
  }
}
