/**
  The circuit breaker of one probe: failures are counted, and at or over a
  threshold each failing check suspends the next one for a cooldown.

  Two kinds of run need care.  One that finds the check of an earlier run still
  going is answered unhealthy without calling the probe, and is counted.  One
  that is cancelled while it waits has called the probe, and is not counted.
*/
module CircuitBreaker {
  import opened Options

  datatype Settings = Settings(threshold: int, cooldown: real) {
    /** A threshold below one trips at the first failure, like one. */
    function Limit(): (r: nat)
      ensures r >= 1
    {
      if threshold < 1 then 1 else threshold
    }
  }

  /** A run past the breaker: when it started and whether it called the probe. */
  datatype Running = Running(start: real, called: bool)

  /** What the registry holds for one probe, and the run in flight. */
  datatype Circuit = Circuit(failures: nat, openUntil: Option<real>, trips: nat, checking: Option<Running>)

  /** *blocked* is whether an earlier check of the probe is still running. */
  datatype Event =
    | Request(at: real, blocked: bool)
    | Finish(at: real, passing: bool)
    | Interrupt(at: real)
    | Reset

  /** A judged run, one cancelled before it was judged, or a manual reset. */
  datatype Entry =
    | Ran(start: real, end: real, passing: bool, called: bool)
    | CutOff(start: real, end: real)
    | WasReset

  datatype State = State(circuit: Circuit, clock: real, history: seq<Entry>)

  const INITIAL := State(Circuit(0, None, 0, None), 0.0, [])

  predicate Open(c: Circuit, now: real) {
    c.openUntil.Some? && now < c.openUntil.value
  }

  /** How a judged run changes the circuit. */
  function Judge(k: Settings, c: Circuit, now: real, passing: bool): Circuit {
    if passing then c.(failures := 0, openUntil := None)
    else
      var n := c.failures + 1;
      if n >= k.threshold then Circuit(n, Some(now + k.cooldown), c.trips + 1, c.checking)
      else c.(failures := n)
  }

  /** Runs of one probe do not overlap, time only moves on, and a run that called nothing fails on the spot. */
  predicate Enabled(s: State, e: Event) {
    match e
    case Request(at, _) => at >= s.clock && s.circuit.checking.None?
    case Finish(at, passing) =>
      at >= s.clock && s.circuit.checking.Some? && (passing ==> s.circuit.checking.value.called)
    case Interrupt(at) => at >= s.clock && s.circuit.checking.Some? && s.circuit.checking.value.called
    case Reset => true
  }

  /** An open circuit answers a request from the last result; otherwise the run goes on. */
  function Apply(k: Settings, s: State, e: Event): State {
    if !Enabled(s, e) then s else
    match e
    case Request(at, blocked) =>
      if Open(s.circuit, at) then s.(clock := at)
      else s.(clock := at, circuit := s.circuit.(checking := Some(Running(at, !blocked))))
    case Finish(at, passing) =>
      var run := s.circuit.checking.value;
      State(Judge(k, s.circuit, at, passing).(checking := None), at,
            s.history + [Ran(run.start, at, passing, run.called)])
    case Interrupt(at) =>
      State(s.circuit.(checking := None), at, s.history + [CutOff(s.circuit.checking.value.start, at)])
    case Reset =>
      State(s.circuit.(failures := 0, openUntil := None), s.clock, s.history + [WasReset])
  }

  function Run(k: Settings, es: seq<Event>): State {
    if es == [] then INITIAL else Apply(k, Run(k, es[..|es| - 1]), es[|es| - 1])
  }

  // ------------------------------------------------------------ replay of the judged runs

  /** Failing runs since the last pass or reset. */
  function Failures(h: seq<Entry>): nat {
    if h == [] then 0
    else
      var before := h[..|h| - 1];
      match h[|h| - 1]
      case Ran(_, _, passing, _) => if passing then 0 else 1 + Failures(before)
      case CutOff(_, _) => Failures(before)
      case WasReset => 0
  }

  /** A run that failed as at least the *limit*th in a row suspends the next one. */
  function Suspended(k: Settings, h: seq<Entry>): Option<real> {
    if h == [] then None
    else
      match h[|h| - 1]
      case Ran(_, end, passing, _) => if !passing && Failures(h) >= k.Limit() then Some(end + k.cooldown) else None
      case CutOff(_, _) => Suspended(k, h[..|h| - 1])
      case WasReset => None
  }

  /** How often that happened. */
  function Trips(k: Settings, h: seq<Entry>): nat {
    if h == [] then 0
    else Trips(k, h[..|h| - 1]) + (if h[|h| - 1].Ran? && Failures(h) >= k.Limit() then 1 else 0)
  }

  /** The circuit that a history of runs and resets leads to. */
  function Replay(k: Settings, h: seq<Entry>): Circuit {
    Circuit(Failures(h), Suspended(k, h), Trips(k, h), None)
  }

  /** A run from *start* follows the history: it comes after every other and not while suspended. */
  ghost predicate MayStart(k: Settings, h: seq<Entry>, start: real) {
    && (forall i :: 0 <= i < |h| && !h[i].WasReset? ==> h[i].end <= start)
    && (Suspended(k, h).Some? ==> start >= Suspended(k, h).value)
  }

  /** Every entry of the history was allowed to start where it did; what called nothing failed. */
  ghost predicate Paced(k: Settings, h: seq<Entry>)
    decreases |h|
  {
    h == []
    || (var before, x := h[..|h| - 1], h[|h| - 1];
        && Paced(k, before)
        && (!x.WasReset? ==> x.start <= x.end && MayStart(k, before, x.start))
        && (x.Ran? && !x.called ==> !x.passing))
  }

  ghost predicate Inv(k: Settings, s: State) {
    && s.circuit.(checking := None) == Replay(k, s.history)
    && Paced(k, s.history) && EndedBy(s.history, s.clock)
    && (s.circuit.checking.Some? ==>
          MayStart(k, s.history, s.circuit.checking.value.start) && s.circuit.checking.value.start <= s.clock)
  }

  ghost predicate EndedBy(h: seq<Entry>, now: real) {
    forall i :: 0 <= i < |h| && !h[i].WasReset? ==> h[i].end <= now
  }

  lemma {:induction false} HistoryGrows(k: Settings, h: seq<Entry>, x: Entry, clock: real, now: real)
    requires Paced(k, h) && EndedBy(h, clock) && clock <= now && (!x.WasReset? ==> x.start <= x.end <= now)
    requires (!x.WasReset? ==> MayStart(k, h, x.start)) && (x.Ran? && !x.called ==> !x.passing)
    ensures Paced(k, h + [x]) && EndedBy(h + [x], now)
  {
    assert (h + [x])[..|h|] == h;
  }

  lemma {:induction false} ReplayGrows(k: Settings, h: seq<Entry>, x: Entry)
    ensures Failures(h + [x]) == (match x
                                  case Ran(_, _, passing, _) => if passing then 0 else 1 + Failures(h)
                                  case CutOff(_, _) => Failures(h)
                                  case WasReset => 0)
    ensures Suspended(k, h + [x]) == (match x
                                      case Ran(_, end, passing, _) =>
                                        if !passing && Failures(h + [x]) >= k.Limit() then Some(end + k.cooldown)
                                        else None
                                      case CutOff(_, _) => Suspended(k, h)
                                      case WasReset => None)
    ensures Trips(k, h + [x]) == Trips(k, h) + (if x.Ran? && Failures(h + [x]) >= k.Limit() then 1 else 0)
  {
    assert (h + [x])[..|h|] == h;
  }

  /** Below the limit nothing is suspended. */
  lemma {:induction false} SuspendedAtLimit(k: Settings, h: seq<Entry>)
    ensures Suspended(k, h).Some? ==> Failures(h) >= k.Limit()
    decreases |h|
  {
    if h != [] { SuspendedAtLimit(k, h[..|h| - 1]); }
  }

  lemma FinishKeeps(k: Settings, s: State, at: real, passing: bool)
    requires Inv(k, s) && Enabled(s, Finish(at, passing))
    ensures Inv(k, Apply(k, s, Finish(at, passing)))
  {
    var run := s.circuit.checking.value;
    var x := Ran(run.start, at, passing, run.called);
    HistoryGrows(k, s.history, x, s.clock, at);
    ReplayGrows(k, s.history, x);
    SuspendedAtLimit(k, s.history);
  }

  lemma InterruptKeeps(k: Settings, s: State, at: real)
    requires Inv(k, s) && Enabled(s, Interrupt(at))
    ensures Inv(k, Apply(k, s, Interrupt(at)))
  {
    var x := CutOff(s.circuit.checking.value.start, at);
    HistoryGrows(k, s.history, x, s.clock, at);
    ReplayGrows(k, s.history, x);
  }

  /** A reset lets a run start that could start before. */
  lemma MayStartAfterReset(k: Settings, h: seq<Entry>, start: real)
    requires MayStart(k, h, start)
    ensures MayStart(k, h + [WasReset], start)
  {
    ReplayGrows(k, h, WasReset);
  }

  /** The breaker's state is at all times the replay of the judged runs and the resets made. */
  lemma {:induction false} StateIsReplay(k: Settings, es: seq<Event>)
    ensures Inv(k, Run(k, es))
    ensures Run(k, es).circuit.(checking := None) == Replay(k, Run(k, es).history)
    decreases |es|
  {
    if es != [] {
      var s, e := Run(k, es[..|es| - 1]), es[|es| - 1];
      StateIsReplay(k, es[..|es| - 1]);
      if Enabled(s, e) {
        match e
        case Request(_, _) =>
        case Finish(at, passing) => FinishKeeps(k, s, at, passing);
        case Interrupt(at) => InterruptKeeps(k, s, at);
        case Reset =>
          HistoryGrows(k, s.history, WasReset, s.clock, s.clock);
          ReplayGrows(k, s.history, WasReset);
          if s.circuit.checking.Some? { MayStartAfterReset(k, s.history, s.circuit.checking.value.start); }
      }
    }
  }

  lemma {:induction false} PacedBefore(k: Settings, h: seq<Entry>, n: nat)
    requires Paced(k, h) && n <= |h|
    ensures Paced(k, h[..n])
    decreases |h|
  {
    if n < |h| {
      PacedBefore(k, h[..|h| - 1], n);
      assert h[..|h| - 1][..n] == h[..n];
    } else {
      assert h[..n] == h;
    }
  }

  /** What Paced says of one entry. */
  lemma PacedAt(k: Settings, h: seq<Entry>, j: nat)
    requires Paced(k, h) && j < |h| && !h[j].WasReset?
    ensures h[j].start <= h[j].end && MayStart(k, h[..j], h[j].start)
  {
    PacedBefore(k, h, j + 1);
    assert h[..j + 1][..j] == h[..j];
  }

  // ------------------------------------------------------------ when the probe is called again

  /** What ends is noted, as it ended and from when it ran, and nothing else is; then the next run can start. */
  lemma EveryEndIsNoted(k: Settings, s: State, e: Event)
    ensures var t := Apply(k, s, e);
            match e
            case Request(_, _) => t.history == s.history
            case Finish(at, passing) =>
              if !Enabled(s, e) then t == s
              else
                var run := s.circuit.checking.value;
                t.history == s.history + [Ran(run.start, at, passing, run.called)] && t.circuit.checking.None?
            case Interrupt(at) =>
              if !Enabled(s, e) then t == s
              else
                && t.history == s.history + [CutOff(s.circuit.checking.value.start, at)] && t.circuit.checking.None?
            case Reset => t.history == s.history + [WasReset] && t.circuit.checking == s.circuit.checking
  {
  }

  /** The entries after *i* hold no pass and no reset. */
  ghost predicate FailingSince(h: seq<Entry>, i: nat) {
    forall j :: i < j < |h| ==> !h[j].WasReset? && (h[j].Ran? ==> !h[j].passing)
  }

  /** The *i*th entry failed as at least the threshold-th run since a pass or reset, and neither came after it. */
  ghost predicate TripsAt(k: Settings, h: seq<Entry>, i: nat) {
    && i < |h| && h[i].Ran? && !h[i].passing && Failures(h[..i + 1]) >= k.threshold && FailingSince(h, i)
  }

  lemma {:induction false} FailuresAddUp(h: seq<Entry>, i: nat)
    requires i < |h| && FailingSince(h, i)
    ensures Failures(h) >= Failures(h[..i + 1])
    ensures i < |h| - 1 && h[|h| - 1].Ran? ==> Failures(h) > Failures(h[..i + 1])
    decreases |h|
  {
    var before := h[..|h| - 1];
    if i == |h| - 1 {
      assert h[..i + 1] == h;
    } else {
      assert before[..i + 1] == h[..i + 1];
      FailuresAddUp(before, i);
    }
  }

  lemma TripsBefore(k: Settings, h: seq<Entry>, i: nat)
    requires h != [] && i < |h| - 1 && TripsAt(k, h, i)
    ensures TripsAt(k, h[..|h| - 1], i)
  {
    assert h[..|h| - 1][..i + 1] == h[..i + 1];
  }

  /** Entries end in the order of the history. */
  lemma EndsGrow(k: Settings, h: seq<Entry>, i: nat, j: nat)
    requires Paced(k, h) && i < j < |h| && !h[i].WasReset? && !h[j].WasReset?
    ensures h[i].end <= h[j].end
  {
    PacedAt(k, h, j);
    assert h[..j][i] == h[i];
  }

  /** The suspension is that of the latest run that trips the breaker. */
  lemma {:induction false} SuspendedByLatest(k: Settings, h: seq<Entry>, t: real)
    requires Paced(k, h)
    ensures (Suspended(k, h).Some? && t < Suspended(k, h).value)
            <==> exists i: nat :: TripsAt(k, h, i) && t < h[i].end + k.cooldown
    decreases |h|
  {
    if h != [] {
      var n := |h| - 1;
      var before, x := h[..n], h[n];
      SuspendedByLatest(k, before, t);
      assert h[..n + 1] == h;
      if x.Ran? && !x.passing {
        if Failures(h) >= k.Limit() {
          assert TripsAt(k, h, n);
          forall i: nat | TripsAt(k, h, i) ensures h[i].end <= x.end { if i < n { EndsGrow(k, h, i, n); } }
        } else {
          forall i: nat | TripsAt(k, h, i) ensures false { FailuresAddUp(h, i); }
        }
      } else if x.CutOff? {
        forall i: nat | TripsAt(k, before, i) ensures TripsAt(k, h, i) { assert before[..i + 1] == h[..i + 1]; }
        forall i: nat | TripsAt(k, h, i) ensures TripsAt(k, before, i) { TripsBefore(k, h, i); }
      } else {
        forall i: nat | TripsAt(k, h, i) ensures false {}
      }
    }
  }

  /**
    After any run, when no check is in flight: a request starts a run if and
    only if no run of the history failed as at least the threshold-th since a
    pass or reset, neither came after it, and it ended less than a cooldown ago.
  */
  lemma CalledIff(k: Settings, es: seq<Event>, at: real, blocked: bool)
    requires Run(k, es).circuit.checking.None? && at >= Run(k, es).clock
    ensures var s, t := Run(k, es), Run(k, es + [Request(at, blocked)]);
            t.circuit.checking
            == if exists i: nat :: TripsAt(k, s.history, i) && at < s.history[i].end + k.cooldown then None
               else Some(Running(at, !blocked))
  {
    StateIsReplay(k, es);
    SuspendedByLatest(k, Run(k, es).history, at);
    assert (es + [Request(at, blocked)])[..|es|] == es;
  }

  // ------------------------------------------------------------ runs that called nothing

  /** The history without the runs that called nothing. */
  function Called(h: seq<Entry>): seq<Entry> {
    if h == [] then []
    else
      var x := h[|h| - 1];
      Called(h[..|h| - 1]) + (if x.Ran? && !x.called then [] else [x])
  }

  /** Runs that called nothing since the last pass or reset. */
  function Uncalled(h: seq<Entry>): nat {
    if h == [] then 0
    else
      var before := h[..|h| - 1];
      match h[|h| - 1]
      case Ran(_, _, passing, called) => if passing then 0 else (if called then 0 else 1) + Uncalled(before)
      case CutOff(_, _) => Uncalled(before)
      case WasReset => 0
  }

  lemma {:induction false} FailuresSplit(k: Settings, h: seq<Entry>)
    requires Paced(k, h)
    ensures Failures(h) == Failures(Called(h)) + Uncalled(h)
    decreases |h|
  {
    if h != [] {
      var before, x := h[..|h| - 1], h[|h| - 1];
      FailuresSplit(k, before);
      ReplayGrows(k, Called(before), x);
      assert Called(before) + [] == Called(before);
    }
  }

  /**
    The failure count is that of the checks the probe was really called for
    exactly when no run since the last pass or reset was answered without a call.
  */
  lemma CountsCallsIff(k: Settings, es: seq<Event>)
    ensures var s := Run(k, es);
            && s.circuit.failures == Failures(Called(s.history)) + Uncalled(s.history)
            && (s.circuit.failures == Failures(Called(s.history)) <==> Uncalled(s.history) == 0)
  {
    StateIsReplay(k, es);
    FailuresSplit(k, Run(k, es).history);
  }

  // ------------------------------------------------------------ how often a failing probe is called

  /** The entries *i* to *j* hold no pass and no reset. */
  ghost predicate Failing(h: seq<Entry>, i: nat, j: nat) {
    i <= j < |h| && forall q :: i <= q <= j ==> !h[q].WasReset? && (h[q].Ran? ==> !h[q].passing)
  }

  /** The judged runs among *h*. */
  function Judged(h: seq<Entry>): nat {
    if h == [] then 0 else Judged(h[..|h| - 1]) + (if h[|h| - 1].Ran? then 1 else 0)
  }

  /** The runs among *h* that called the probe. */
  function Calls(h: seq<Entry>): nat {
    if h == [] then 0
    else
      var x := h[|h| - 1];
      Calls(h[..|h| - 1]) + (if x.CutOff? || (x.Ran? && x.called) then 1 else 0)
  }

  /** Those among them that were cancelled. */
  function Cancelled(h: seq<Entry>): nat {
    if h == [] then 0 else Cancelled(h[..|h| - 1]) + (if h[|h| - 1].CutOff? then 1 else 0)
  }

  lemma {:induction false} CallsAreJudgedOrCancelled(h: seq<Entry>)
    ensures Calls(h) <= Judged(h) + Cancelled(h)
    decreases |h|
  {
    if h != [] { CallsAreJudgedOrCancelled(h[..|h| - 1]); }
  }

  lemma {:induction false} RunStep(k: Settings, es: seq<Event>, e: Event)
    ensures Run(k, es + [e]) == Apply(k, Run(k, es), e)
  {
    assert (es + [e])[..|es|] == es;
  }

  /** A run that starts when nothing is suspended and fails. */
  lemma FailedRun(k: Settings, es: seq<Event>, start: real, end: real, blocked: bool)
    requires var s := Run(k, es);
             s.circuit.checking.None? && !Open(s.circuit, start) && s.clock <= start <= end
    ensures var s, t := Run(k, es), Run(k, es + [Request(start, blocked)] + [Finish(end, false)]);
            && t.circuit == Judge(k, s.circuit, end, false) && t.clock == end
            && t.history == s.history + [Ran(start, end, false, !blocked)]
  {
    RunStep(k, es, Request(start, blocked));
    RunStep(k, es + [Request(start, blocked)], Finish(end, false));
  }

  const TWICE := Settings(2, 30.0)

  /**
    One call that hangs past its deadline, and a run that finds it still going:
    a breaker of two failures opens after a single call.
  */
  lemma OneCallTripsTwice() returns (es: seq<Event>)
    ensures var s := Run(TWICE, es);
            && s.circuit.openUntil == Some(36.0) && s.circuit.failures == 2
            && s.history == [Ran(0.0, 5.0, false, true), Ran(6.0, 6.0, false, false)]
    ensures Calls(Run(TWICE, es).history) == 1
  {
    FailedRun(TWICE, [], 0.0, 5.0, false);
    es := [] + [Request(0.0, false)] + [Finish(5.0, false)];
    FailedRun(TWICE, es, 6.0, 6.0, true);
    es := es + [Request(6.0, true)] + [Finish(6.0, false)];
    var x, y := Ran(0.0, 5.0, false, true), Ran(6.0, 6.0, false, false);
    assert [x, y][..1] == [x] && [x][..0] == [] && Calls([x]) == 1;
  }

  /** *n* cooldowns in a row. */
  function Cooldowns(n: nat, cooldown: real): (r: real) {
    if n == 0 then 0.0 else Cooldowns(n - 1, cooldown) + cooldown
  }

  lemma {:induction false} CooldownsFit(n: nat, cooldown: real, window: real)
    requires cooldown > 0.0 && Cooldowns(n, cooldown) <= window
    ensures n <= (window / cooldown).Floor
  {
    CooldownsProduct(n, cooldown);
    assert n as real <= window / cooldown;
  }

  lemma {:induction false} CooldownsProduct(n: nat, cooldown: real)
    ensures Cooldowns(n, cooldown) == n as real * cooldown
  {
    if n > 0 { CooldownsProduct(n - 1, cooldown); }
  }

  lemma {:induction false} FailuresCount(h: seq<Entry>, i: nat, j: nat)
    requires Failing(h, i, j)
    ensures Failures(h[..j + 1]) >= Judged(h[i..j + 1])
    decreases j
  {
    assert h[..j + 1][..j] == h[..j] && h[i..j + 1][..j - i] == h[i..j];
    if i < j { FailuresCount(h, i, j - 1); }
  }

  /** From the limit on, each judged run of a failing stretch puts the next one a cooldown further off. */
  lemma {:induction false} SuspensionGrows(k: Settings, h: seq<Entry>, i: nat, j: nat)
    requires Paced(k, h) && Failing(h, i, j) && h[i].Ran? && Judged(h[i..j + 1]) >= k.Limit()
    ensures Suspended(k, h[..j + 1]).Some?
    ensures Suspended(k, h[..j + 1]).value >= h[i].end + Cooldowns(Judged(h[i..j + 1]) - k.Limit() + 1, k.cooldown)
    decreases j
  {
    var r := Judged(h[i..j + 1]);
    assert h[..j + 1][..j] == h[..j] && h[i..j + 1][..j - i] == h[i..j];
    FailuresCount(h, i, j);
    PacedAt(k, h, j);
    if h[j].CutOff? {
      SuspensionGrows(k, h, i, j - 1);
    } else if r > k.Limit() {
      SuspensionGrows(k, h, i, j - 1);
    } else if i < j {
      assert h[..j][i] == h[i];
    }
  }

  /** In a stretch without pass or reset, judged runs beyond the limit are a cooldown apart. */
  lemma FailingSpread(k: Settings, h: seq<Entry>, i: nat, j: nat)
    requires Paced(k, h) && Failing(h, i, j) && h[i].Ran? && h[j].Ran? && Judged(h[i..j + 1]) > k.Limit()
    ensures h[j].start - h[i].end >= Cooldowns(Judged(h[i..j + 1]) - k.Limit(), k.cooldown)
    ensures h[i].start <= h[i].end && h[j].start <= h[j].end
  {
    assert h[i..j + 1][..j - i] == h[i..j];
    SuspensionGrows(k, h, i, j - 1);
    PacedAt(k, h, j);
    PacedAt(k, h, i);
  }

  /**
    While a probe keeps failing, any window from one judged run to another holds
    at most limit + floor(window / cooldown) of them, and so many calls besides
    the cancelled ones.
  */
  lemma FailingCallsBounded(k: Settings, es: seq<Event>, i: nat, j: nat, window: real)
    requires k.cooldown > 0.0 && window >= 0.0
    requires var h := Run(k, es).history;
             && Failing(h, i, j) && h[i].Ran? && h[j].Ran?
             && (h[j].start - h[i].start <= window || h[j].end - h[i].end <= window)
    ensures var part, bound := Run(k, es).history[i..j + 1], k.Limit() + (window / k.cooldown).Floor;
            Judged(part) <= bound && Calls(part) <= bound + Cancelled(part)
  {
    StateIsReplay(k, es);
    var h := Run(k, es).history;
    var r := Judged(h[i..j + 1]);
    CallsAreJudgedOrCancelled(h[i..j + 1]);
    if r > k.Limit() {
      FailingSpread(k, h, i, j);
      CooldownsFit(r - k.Limit(), k.cooldown, window);
    } else {
      CooldownsFit(0, k.cooldown, window);
    }
  }

  /** Cancelled runs are not bounded: the breaker never hears of them, however many there are. */
  lemma {:induction false} CancelledUnbounded(k: Settings, n: nat)
    ensures exists es :: var s := Run(k, es);
              Cancelled(s.history) == Calls(s.history) == n && s.circuit == INITIAL.circuit && s.clock == 0.0
    decreases n
  {
    if n == 0 {
      assert Run(k, []) == INITIAL;
    } else {
      CancelledUnbounded(k, n - 1);
      var es :| var s := Run(k, es);
                Cancelled(s.history) == Calls(s.history) == n - 1 && s.circuit == INITIAL.circuit && s.clock == 0.0;
      var s, more := Run(k, es), es + [Request(0.0, false)] + [Interrupt(0.0)];
      RunStep(k, es, Request(0.0, false));
      RunStep(k, es + [Request(0.0, false)], Interrupt(0.0));
      assert Run(k, more).history == s.history + [CutOff(0.0, 0.0)];
      assert Run(k, more).history[..|s.history|] == s.history;
    }
  }

  // ------------------------------------------------------------ the registry's tables

  datatype Name = Name(text: string)

  class Breaker {
    var openUntil: map<Name, real>
    var errCount: map<Name, nat>
    var trips: map<Name, nat>

    /** The circuit of *n*; whether a check is in flight is the caller's to know. */
    ghost function Of(n: Name): Circuit
      reads this
    {
      Circuit(Get(errCount, n).GetOr(0), Get(openUntil, n), Get(trips, n).GetOr(0), None)
    }

    constructor ()
      ensures forall n :: Of(n) == INITIAL.circuit
    {
      openUntil, errCount, trips := map[], map[], map[];
    }

    /** True when the probe is suspended; no clock reads below zero, so an absent entry is never open. */
    method IsOpen(n: Name, now: real) returns (open: bool)
      requires now >= 0.0
      ensures open == Open(Of(n), now)
      ensures open <==> n in openUntil && now < openUntil[n]
    {
      var until := if n in openUntil then openUntil[n] else 0.0;
      open := now < until;
    }

    method Update(k: Settings, n: Name, now: real, passing: bool)
      modifies this
      ensures Of(n) == Judge(k, old(Of(n)), now, passing)
      ensures forall m :: m != n ==> Of(m) == old(Of(m))
    {
      if passing {
        errCount, openUntil := errCount - {n}, openUntil - {n};
      } else {
        var count := (if n in errCount then errCount[n] else 0) + 1;
        errCount := errCount[n := count];
        if count >= k.threshold {
          openUntil := openUntil[n := now + k.cooldown];
          trips := trips[n := (if n in trips then trips[n] else 0) + 1];
        }
      }
    }

    method ResetCircuit(n: Name)
      modifies this
      ensures Of(n) == old(Of(n)).(failures := 0, openUntil := None)
      ensures forall m :: m != n ==> Of(m) == old(Of(m))
    {
      openUntil, errCount := openUntil - {n}, errCount - {n};
    }
  }
}
