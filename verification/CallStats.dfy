/**
  The statistics of a passive probe.  Each call updates counters by what falls
  out of a window and what comes in; the reference recounts the whole history.
*/
module CallStats {
  import opened Options
  import opened Windows

  /** The class name of an exception, or the text reported for a failed call. */
  datatype Text = Text(chars: string)

  /** One recorded call; *ticks* and *now* are the monotonic and the wall clock. */
  datatype Call = Call(
    rtt: real, error: bool, status: Option<int>, message: Option<Text>, errorType: Option<Text>,
    ticks: real, now: real)

  datatype Config = Config(windowSize: nat, statsWindow: nat, alpha: real, slow: Option<real>) {
    predicate Valid() { windowSize > 0 && statsWindow > 0 && 0.0 < alpha <= 1.0 }
  }

  /** Lifetime figures. */
  datatype Totals = Totals(
    calls: nat, errors: nat, consecutive: nat, lastRtt: Option<real>,
    average: Option<real>, least: Option<real>, most: Option<real>)

  /** What was last seen: the text of the last error and when it and the last success happened. */
  datatype Recent = Recent(status: Option<int>, error: Option<Text>, errorAt: Option<real>, successAt: Option<real>)

  /** Windows with the counters kept beside them. */
  datatype RttWindow = RttWindow(rtts: seq<real>, slow: int)

  datatype OutcomeWindow = OutcomeWindow(successes: seq<bool>, failures: int)

  datatype StatusWindow = StatusWindow(statuses: seq<int>, families: map<int, nat>)

  datatype TypeWindow = TypeWindow(types: seq<Text>, counts: map<Text, nat>)

  datatype Sliding = Sliding(
    ticks: seq<real>, rtt: RttWindow, outcome: OutcomeWindow, status: StatusWindow, errorType: TypeWindow)

  datatype Stats = Stats(totals: Totals, recent: Recent, windows: Sliding)

  const EMPTY := Sliding([], RttWindow([], 0), OutcomeWindow([], 0), StatusWindow([], map[]), TypeWindow([], map[]))

  const INITIAL := Stats(Totals(0, 0, 0, None, None, None, None), Recent(None, None, None, None), EMPTY)

  // ------------------------------------------------------------ recording

  function Ema(current: Option<real>, value: real, alpha: real): real {
    if current.None? then value else alpha * value + (1.0 - alpha) * current.value
  }

  /** The *f* of `"fxx"`; Python's division rounds down, as this does. */
  function Family(status: int): (f: int)
    ensures 100 * f <= status < 100 * (f + 1)
  {
    status / 100
  }

  function Families(statuses: seq<int>): seq<int> {
    seq(|statuses|, i requires 0 <= i < |statuses| => Family(statuses[i]))
  }

  function Failed(success: bool): bool { !success }

  function Smaller(m: Option<real>, x: real): real { if m.Some? && m.value < x then m.value else x }

  function Larger(m: Option<real>, x: real): real { if m.Some? && m.value > x then m.value else x }

  function CountTotals(alpha: real, t: Totals, call: Call): Totals {
    Totals(t.calls + 1,
           t.errors + (if call.error then 1 else 0),
           if call.error then t.consecutive + 1 else 0,
           Some(call.rtt),
           Some(Ema(t.average, call.rtt, alpha)),
           Some(Smaller(t.least, call.rtt)),
           Some(Larger(t.most, call.rtt)))
  }

  function Notice(r: Recent, call: Call): Recent {
    var status := if call.status.Some? then call.status else r.status;
    if call.error then
      Recent(status,
             if call.message.Some? then call.message
             else if call.status.Some? then Some(HttpText(call.status.value)) else r.error,
             Some(call.now), r.successAt)
    else Recent(status, r.error, r.errorAt, Some(call.now))
  }

  /** `"HTTP <status>"`, one text per status. */
  function HttpText(status: int): Text {
    Text(if status >= 0 then "HTTP " + Digits(status) else "HTTP -" + Digits(-status))
  }

  function Digits(n: nat): string {
    (if n < 10 then "" else Digits(n / 10)) + ["0123456789"[n % 10]]
  }

  /** The number that decimal digits stand for. */
  function ValueOf(digits: string): int {
    if digits == "" then 0 else 10 * ValueOf(digits[..|digits| - 1]) + (digits[|digits| - 1] as int - '0' as int)
  }

  lemma OneDigit(d: nat)
    requires d < 10
    ensures "0123456789"[d] as int - '0' as int == d
  {
  }

  lemma ValueOfMore(digits: string, c: char)
    ensures ValueOf(digits + [c]) == 10 * ValueOf(digits) + (c as int - '0' as int)
  {
    assert (digits + [c])[..|digits|] == digits;
  }

  lemma {:induction false} DigitsSay(n: nat)
    ensures ValueOf(Digits(n)) == n
  {
    OneDigit(n % 10);
    if n < 10 {
      ValueOfMore("", "0123456789"[n % 10]);
    } else {
      DigitsSay(n / 10);
      ValueOfMore(Digits(n / 10), "0123456789"[n % 10]);
    }
  }

  /** The text says which status it was. */
  lemma HttpTextSays(status: int)
    ensures status >= 0 ==> HttpText(status).chars[..5] == "HTTP " && ValueOf(HttpText(status).chars[5..]) == status
  {
    if status >= 0 { DigitsSay(status); }
  }

  /** The slow-call counter is updated before the window, whose oldest entry it reads. */
  function AddRtt(slow: Option<real>, w: RttWindow, n: nat, rtt: real): RttWindow
    requires n > 0 && |w.rtts| <= n
  {
    var left := if slow.Some? && |w.rtts| == n && w.rtts[0] > slow.value then w.slow - 1 else w.slow;
    RttWindow(Push(w.rtts, n, rtt), if slow.Some? && rtt > slow.value then left + 1 else left)
  }

  function AddOutcome(w: OutcomeWindow, n: nat, success: bool): OutcomeWindow
    requires n > 0 && |w.successes| <= n
  {
    var left := if |w.successes| == n && !w.successes[0] then w.failures - 1 else w.failures;
    OutcomeWindow(Push(w.successes, n, success), if success then left else left + 1)
  }

  function AddStatus(w: StatusWindow, n: nat, status: int): StatusWindow
    requires n > 0 && StatusInv(w, n)
  {
    EvictedIsCounted(Families(w.statuses), n);
    StatusWindow(Push(w.statuses, n, status), Retally(w.families, Evicted(Families(w.statuses), n), Family(status)))
  }

  function AddType(w: TypeWindow, n: nat, t: Text): TypeWindow
    requires n > 0 && TypeInv(w, n)
  {
    EvictedIsCounted(w.types, n);
    TypeWindow(Push(w.types, n, t), Retally(w.counts, Evicted(w.types, n), t))
  }

  /** The counters count what is there to evict. */
  ghost predicate StatusInv(w: StatusWindow, n: nat) {
    |w.statuses| <= n && w.families == Tally(Families(w.statuses))
  }

  ghost predicate TypeInv(w: TypeWindow, n: nat) {
    |w.types| <= n && w.counts == Tally(w.types)
  }

  ghost predicate Bounded(c: Config, w: Sliding) {
    && c.Valid() && |w.ticks| <= c.windowSize && |w.rtt.rtts| <= c.windowSize && |w.outcome.successes| <= c.windowSize
    && StatusInv(w.status, c.statsWindow) && TypeInv(w.errorType, c.statsWindow)
  }

  /** What every window of the probe makes of one more call. */
  function Slide(c: Config, w: Sliding, call: Call): Sliding
    requires Bounded(c, w)
  {
    Sliding(
      Push(w.ticks, c.windowSize, call.ticks),
      AddRtt(c.slow, w.rtt, c.windowSize, call.rtt),
      AddOutcome(w.outcome, c.windowSize, !call.error),
      if call.status.Some? then AddStatus(w.status, c.statsWindow, call.status.value) else w.status,
      if call.error && call.errorType.Some? then AddType(w.errorType, c.statsWindow, call.errorType.value)
      else w.errorType)
  }

  /** `_record` under its lock. */
  function Recorded(c: Config, s: Stats, call: Call): Stats
    requires Bounded(c, s.windows)
  {
    Stats(CountTotals(c.alpha, s.totals, call), Notice(s.recent, call), Slide(c, s.windows, call))
  }

  // ------------------------------------------------------------ the recount

  function Rtts(calls: seq<Call>): seq<real> {
    seq(|calls|, i requires 0 <= i < |calls| => calls[i].rtt)
  }

  function Ticks(calls: seq<Call>): seq<real> {
    seq(|calls|, i requires 0 <= i < |calls| => calls[i].ticks)
  }

  function Outcomes(calls: seq<Call>): seq<bool> {
    seq(|calls|, i requires 0 <= i < |calls| => !calls[i].error)
  }

  /** The status codes seen, for calls that had one. */
  function Statuses(calls: seq<Call>): seq<int> {
    if calls == [] then []
    else
      var last := calls[|calls| - 1];
      Statuses(calls[..|calls| - 1]) + (if last.status.Some? then [last.status.value] else [])
  }

  /** The exception types of failed calls that had one. */
  function Types(calls: seq<Call>): seq<Text> {
    if calls == [] then []
    else
      var last := calls[|calls| - 1];
      Types(calls[..|calls| - 1]) + (if last.error && last.errorType.Some? then [last.errorType.value] else [])
  }

  /** The errors at the end of the history. */
  function TrailingErrors(calls: seq<Call>): nat {
    if calls == [] || !calls[|calls| - 1].error then 0 else 1 + TrailingErrors(calls[..|calls| - 1])
  }

  function Errors(calls: seq<Call>): nat {
    CountIf(Failed, Outcomes(calls))
  }

  /** The average over the whole history, newest weighing most. */
  function Average(alpha: real, rtts: seq<real>): Option<real> {
    if rtts == [] then None
    else Some(Ema(Average(alpha, rtts[..|rtts| - 1]), rtts[|rtts| - 1], alpha))
  }

  ghost predicate IsLeast(m: Option<real>, xs: seq<real>) {
    if xs == [] then m.None? else m.Some? && m.value in xs && forall i :: 0 <= i < |xs| ==> m.value <= xs[i]
  }

  ghost predicate IsMost(m: Option<real>, xs: seq<real>) {
    if xs == [] then m.None? else m.Some? && m.value in xs && forall i :: 0 <= i < |xs| ==> m.value >= xs[i]
  }

  ghost predicate TotalsOf(alpha: real, t: Totals, calls: seq<Call>) {
    && t.calls == |calls| && t.errors == Errors(calls) && t.consecutive == TrailingErrors(calls)
    && t.lastRtt == (if calls == [] then None else Some(calls[|calls| - 1].rtt))
    && t.average == Average(alpha, Rtts(calls))
    && IsLeast(t.least, Rtts(calls)) && IsMost(t.most, Rtts(calls))
  }

  /** Every window is the last stretch of its history and every counter a count over that window. */
  ghost predicate RttOf(slow: Option<real>, w: RttWindow, n: nat, rtts: seq<real>) {
    w.rtts == Last(rtts, n) && w.slow == if slow.None? then 0 else CountIf(Above(slow.value), w.rtts)
  }

  ghost predicate OutcomeOf(w: OutcomeWindow, n: nat, successes: seq<bool>) {
    w.successes == Last(successes, n) && w.failures == CountIf(Failed, w.successes)
  }

  /** The latest call with property *p*. */
  function LastWhere(p: Call -> bool, calls: seq<Call>): Option<Call> {
    if calls == [] then None
    else if p(calls[|calls| - 1]) then Some(calls[|calls| - 1])
    else LastWhere(p, calls[..|calls| - 1])
  }

  function IsError(call: Call): bool { call.error }

  function IsSuccess(call: Call): bool { !call.error }

  function HasStatus(call: Call): bool { call.status.Some? }

  function HasText(call: Call): bool { call.error && (call.message.Some? || call.status.Some?) }

  /** The last error and success are the latest ones, and the text that of the latest error that has one. */
  ghost predicate RecentOf(r: Recent, calls: seq<Call>) {
    var error, success := LastWhere(IsError, calls), LastWhere(IsSuccess, calls);
    var status, text := LastWhere(HasStatus, calls), LastWhere(HasText, calls);
    && r.errorAt == (if error.Some? then Some(error.value.now) else None)
    && r.successAt == (if success.Some? then Some(success.value.now) else None)
    && r.status == (if status.Some? then status.value.status else None)
    && r.error == (if text.None? then None
                   else if text.value.message.Some? then text.value.message
                   else Some(HttpText(text.value.status.GetOr(0))))
  }

  ghost predicate WindowsOf(c: Config, w: Sliding, calls: seq<Call>) {
    && w.ticks == Last(Ticks(calls), c.windowSize)
    && RttOf(c.slow, w.rtt, c.windowSize, Rtts(calls))
    && OutcomeOf(w.outcome, c.windowSize, Outcomes(calls))
    && w.status.statuses == Last(Statuses(calls), c.statsWindow) && StatusInv(w.status, c.statsWindow)
    && w.errorType.types == Last(Types(calls), c.statsWindow) && TypeInv(w.errorType, c.statsWindow)
  }

  ghost predicate RecountOf(c: Config, s: Stats, calls: seq<Call>) {
    TotalsOf(c.alpha, s.totals, calls) && WindowsOf(c, s.windows, calls)
  }

  // ------------------------------------------------------------ the fast form is the recount

  lemma {:induction false} TotalsAppend(alpha: real, t: Totals, calls: seq<Call>, call: Call)
    requires TotalsOf(alpha, t, calls)
    ensures TotalsOf(alpha, CountTotals(alpha, t, call), calls + [call])
  {
    var more := calls + [call];
    assert more[..|calls|] == calls;
    assert Outcomes(more) == Outcomes(calls) + [!call.error];
    CountAppend(Failed, Outcomes(calls), !call.error);
    assert Rtts(more) == Rtts(calls) + [call.rtt];
    assert Rtts(more)[..|calls|] == Rtts(calls);
  }

  lemma {:induction false} NoticeIsRecent(r: Recent, calls: seq<Call>, call: Call)
    requires RecentOf(r, calls)
    ensures RecentOf(Notice(r, call), calls + [call])
  {
    assert (calls + [call])[..|calls|] == calls;
  }

  lemma {:induction false} AddRttIsRecount(slow: Option<real>, w: RttWindow, n: nat, rtts: seq<real>, rtt: real)
    requires n > 0 && RttOf(slow, w, n, rtts)
    ensures RttOf(slow, AddRtt(slow, w, n, rtt), n, rtts + [rtt])
  {
    PushIsLast(rtts, n, rtt);
    if slow.Some? { CountPush(Above(slow.value), w.rtts, n, rtt); }
  }

  lemma {:induction false} AddOutcomeIsRecount(w: OutcomeWindow, n: nat, successes: seq<bool>, success: bool)
    requires n > 0 && OutcomeOf(w, n, successes)
    ensures OutcomeOf(AddOutcome(w, n, success), n, successes + [success])
  {
    PushIsLast(successes, n, success);
    CountPush(Failed, w.successes, n, success);
  }

  lemma AddStatusCounts(w: StatusWindow, n: nat, status: int)
    requires n > 0 && StatusInv(w, n)
    ensures AddStatus(w, n, status).families == Tally(Push(Families(w.statuses), n, Family(status)))
  {
    EvictedIsCounted(Families(w.statuses), n);
    RetallyPush(Families(w.statuses), n, Family(status));
  }

  lemma AddTypeCounts(w: TypeWindow, n: nat, t: Text)
    requires n > 0 && TypeInv(w, n)
    ensures AddType(w, n, t).counts == Tally(Push(w.types, n, t))
  {
    EvictedIsCounted(w.types, n);
    RetallyPush(w.types, n, t);
  }

  lemma FamiliesPush(statuses: seq<int>, n: nat, status: int)
    requires n > 0 && |statuses| <= n
    ensures Push(Families(statuses), n, Family(status)) == Families(Push(statuses, n, status))
  {
  }

  lemma {:induction false} AddStatusIsRecount(w: StatusWindow, n: nat, statuses: seq<int>, status: int)
    requires n > 0 && w.statuses == Last(statuses, n) && StatusInv(w, n)
    ensures var u := AddStatus(w, n, status); u.statuses == Last(statuses + [status], n) && StatusInv(u, n)
  {
    PushIsLast(statuses, n, status);
    AddStatusCounts(w, n, status);
    FamiliesPush(w.statuses, n, status);
  }

  lemma {:induction false} AddTypeIsRecount(w: TypeWindow, n: nat, types: seq<Text>, t: Text)
    requires n > 0 && w.types == Last(types, n) && TypeInv(w, n)
    ensures var u := AddType(w, n, t); u.types == Last(types + [t], n) && TypeInv(u, n)
  {
    PushIsLast(types, n, t);
    AddTypeCounts(w, n, t);
  }

  lemma {:induction false} Appended(calls: seq<Call>, call: Call)
    ensures var more := calls + [call];
            && Ticks(more) == Ticks(calls) + [call.ticks]
            && Rtts(more) == Rtts(calls) + [call.rtt]
            && Outcomes(more) == Outcomes(calls) + [!call.error]
            && Statuses(more) == Statuses(calls) + (if call.status.Some? then [call.status.value] else [])
            && Types(more) == Types(calls) + (if call.error && call.errorType.Some? then [call.errorType.value] else [])
  {
    assert (calls + [call])[..|calls|] == calls;
  }

  lemma SlideIsRecount(c: Config, w: Sliding, calls: seq<Call>, call: Call)
    requires c.Valid() && WindowsOf(c, w, calls)
    ensures Bounded(c, w) && WindowsOf(c, Slide(c, w, call), calls + [call])
  {
    var more, u := calls + [call], Slide(c, w, call);
    assert u.ticks == Last(Ticks(more), c.windowSize) by {
      Appended(calls, call);
      PushIsLast(Ticks(calls), c.windowSize, call.ticks);
    }
    assert RttOf(c.slow, u.rtt, c.windowSize, Rtts(more)) by {
      Appended(calls, call);
      AddRttIsRecount(c.slow, w.rtt, c.windowSize, Rtts(calls), call.rtt);
    }
    assert OutcomeOf(u.outcome, c.windowSize, Outcomes(more)) by {
      Appended(calls, call);
      AddOutcomeIsRecount(w.outcome, c.windowSize, Outcomes(calls), !call.error);
    }
    StatusesRecount(c, w, calls, call);
    TypesRecount(c, w, calls, call);
  }

  lemma StatusesRecount(c: Config, w: Sliding, calls: seq<Call>, call: Call)
    requires Bounded(c, w) && w.status.statuses == Last(Statuses(calls), c.statsWindow)
    ensures var u := Slide(c, w, call).status;
            u.statuses == Last(Statuses(calls + [call]), c.statsWindow) && StatusInv(u, c.statsWindow)
  {
    Appended(calls, call);
    if call.status.Some? {
      AddStatusIsRecount(w.status, c.statsWindow, Statuses(calls), call.status.value);
    } else {
      assert Statuses(calls) + [] == Statuses(calls);
    }
  }

  lemma TypesRecount(c: Config, w: Sliding, calls: seq<Call>, call: Call)
    requires Bounded(c, w) && w.errorType.types == Last(Types(calls), c.statsWindow)
    ensures var u := Slide(c, w, call).errorType;
            u.types == Last(Types(calls + [call]), c.statsWindow) && TypeInv(u, c.statsWindow)
  {
    Appended(calls, call);
    if call.error && call.errorType.Some? {
      AddTypeIsRecount(w.errorType, c.statsWindow, Types(calls), call.errorType.value);
    } else {
      assert Types(calls) + [] == Types(calls);
    }
  }

  /** For every history, what eviction keeps up to date equals a recount over the last calls. */
  lemma RecordIsRecount(c: Config, s: Stats, calls: seq<Call>, call: Call)
    requires c.Valid() && RecountOf(c, s, calls)
    ensures Bounded(c, s.windows) && RecountOf(c, Recorded(c, s, call), calls + [call])
  {
    TotalsAppend(c.alpha, s.totals, calls, call);
    SlideIsRecount(c, s.windows, calls, call);
  }

  /** The statistics after every call of a history, one by one. */
  ghost function RecordAll(c: Config, calls: seq<Call>): (s: Stats)
    requires c.Valid()
    ensures RecountOf(c, s, calls)
  {
    if calls == [] then INITIAL
    else
      var before, call := calls[..|calls| - 1], calls[|calls| - 1];
      assert before + [call] == calls;
      RecordIsRecount(c, RecordAll(c, before), before, call);
      Recorded(c, RecordAll(c, before), call)
  }

  // ------------------------------------------------------------ what is reported

  /** The average lies between the least and the most, whatever its weight. */
  lemma {:induction false} AverageBetween(alpha: real, rtts: seq<real>, least: real, most: real)
    requires 0.0 < alpha <= 1.0 && rtts != []
    requires forall i :: 0 <= i < |rtts| ==> least <= rtts[i] <= most
    ensures least <= Average(alpha, rtts).value <= most
    decreases |rtts|
  {
    var n := |rtts| - 1;
    if n > 0 {
      AverageBetween(alpha, rtts[..n], least, most);
      Mix(alpha, rtts[n], Average(alpha, rtts[..n]).value, least, most);
    }
  }

  function Times(a: real, b: real): real { a * b }

  lemma NonNegative(a: real, b: real)
    requires a >= 0.0 && b >= 0.0
    ensures Times(a, b) >= 0.0
  {
  }

  lemma Part(alpha: real, d: real)
    requires 0.0 <= alpha <= 1.0 && d >= 0.0
    ensures 0.0 <= Times(alpha, d) <= d
  {
    NonNegative(alpha, d);
    NonNegative(1.0 - alpha, d);
    assert Times(1.0 - alpha, d) == d - Times(alpha, d);
  }

  lemma MixIsStep(alpha: real, x: real, y: real)
    ensures Ema(Some(y), x, alpha) == y + Times(alpha, x - y) == x + Times(1.0 - alpha, y - x)
  {
  }

  lemma Mix(alpha: real, x: real, y: real, least: real, most: real)
    requires 0.0 < alpha <= 1.0 && least <= x <= most && least <= y <= most
    ensures least <= Ema(Some(y), x, alpha) <= most
  {
    MixIsStep(alpha, x, y);
    if x >= y { Part(alpha, x - y); } else { Part(1.0 - alpha, y - x); }
  }

  /** After any calls the average lies between the all-time minimum and maximum. */
  lemma AverageWithinExtremes(alpha: real, t: Totals, calls: seq<Call>)
    requires 0.0 < alpha <= 1.0 && calls != [] && TotalsOf(alpha, t, calls)
    ensures t.least.Some? && t.most.Some? && t.average.Some?
    ensures t.least.value <= t.average.value <= t.most.value
  {
    AverageBetween(alpha, Rtts(calls), t.least.value, t.most.value);
  }

  /**
    After any calls: all-time minimum <= percentile p <= percentile q <= all-time
    maximum for all p <= q, so for 50, 95 and 99 per cent.
  */
  lemma PercentilesWithinExtremes(c: Config, s: Stats, calls: seq<Call>, p: real, q: real)
    requires c.Valid() && calls != [] && RecountOf(c, s, calls) && 0.0 <= p <= q <= 1.0
    ensures s.windows.rtt.rtts != [] && s.totals.least.Some? && s.totals.most.Some?
    ensures s.totals.least.value <= Percentile(s.windows.rtt.rtts, p).value
    ensures Percentile(s.windows.rtt.rtts, p).value <= Percentile(s.windows.rtt.rtts, q).value
    ensures Percentile(s.windows.rtt.rtts, q).value <= s.totals.most.value
  {
    PercentilesOrdered(s.windows.rtt.rtts, p, q);
    PercentileIsEntry(Rtts(calls), c.windowSize, p);
    PercentileIsEntry(Rtts(calls), c.windowSize, q);
  }

  lemma PercentileIsEntry(rtts: seq<real>, n: nat, p: real)
    requires rtts != [] && n > 0 && 0.0 <= p <= 1.0
    ensures Percentile(Last(rtts, n), p).Some? && Percentile(Last(rtts, n), p).value in rtts
  {
    var w := Last(rtts, n);
    var i :| 0 <= i < |w| && w[i] == Percentile(w, p).value;
  }

  // ------------------------------------------------------------ the probe's own fields

  class PassiveProbe {
    const cfg: Config
    var totals: Totals
    var recent: Recent
    var requestTimestamps: seq<real>
    var rttWindow: seq<real>
    var slowCallCount: int
    var outcomeWindow: seq<bool>
    var outcomeFailureCount: int
    var statusWindow: seq<int>
    var statusCounts: map<int, nat>
    var errorTypeWindow: seq<Text>
    var errorTypeCounts: map<Text, nat>

    ghost function RttView(): RttWindow
      reads this`rttWindow, this`slowCallCount
    {
      RttWindow(rttWindow, slowCallCount)
    }

    ghost function OutcomeView(): OutcomeWindow
      reads this`outcomeWindow, this`outcomeFailureCount
    {
      OutcomeWindow(outcomeWindow, outcomeFailureCount)
    }

    ghost function StatusView(): StatusWindow
      reads this`statusWindow, this`statusCounts
    {
      StatusWindow(statusWindow, statusCounts)
    }

    ghost function TypeView(): TypeWindow
      reads this`errorTypeWindow, this`errorTypeCounts
    {
      TypeWindow(errorTypeWindow, errorTypeCounts)
    }

    ghost function WindowsView(): Sliding
      reads this`requestTimestamps, this`rttWindow, this`slowCallCount, this`outcomeWindow, this`outcomeFailureCount,
        this`statusWindow, this`statusCounts, this`errorTypeWindow, this`errorTypeCounts
    {
      Sliding(requestTimestamps, RttView(), OutcomeView(), StatusView(), TypeView())
    }

    /** The fields are those of a recount of *calls*, all that were recorded. */
    ghost predicate Valid(calls: seq<Call>)
      reads this
    {
      cfg.Valid() && TotalsOf(cfg.alpha, totals, calls) && WindowsOf(cfg, WindowsView(), calls)
    }

    constructor (cfg: Config)
      requires cfg.Valid()
      ensures this.cfg == cfg && Valid([]) && recent == INITIAL.recent
    {
      this.cfg := cfg;
      totals, recent := INITIAL.totals, INITIAL.recent;
      requestTimestamps, rttWindow, slowCallCount := [], [], 0;
      outcomeWindow, outcomeFailureCount := [], 0;
      statusWindow, statusCounts, errorTypeWindow, errorTypeCounts := [], map[], [], map[];
    }

    /** `_record`: what was a recount of *calls* becomes one of *calls* and this call. */
    method Record(call: Call, ghost calls: seq<Call>)
      requires Valid(calls)
      modifies this
      ensures Valid(calls + [call])
      ensures recent == Notice(old(recent), call)
    {
      KeepTotals(call, calls);
      KeepRecent(call);
      KeepWindows(call, calls);
    }

    /** The windows of `_record` and what is counted over them. */
    method KeepWindows(call: Call, ghost calls: seq<Call>)
      requires cfg.Valid() && WindowsOf(cfg, WindowsView(), calls)
      modifies this`requestTimestamps, this`rttWindow, this`slowCallCount, this`outcomeWindow,
        this`outcomeFailureCount, this`statusWindow, this`statusCounts, this`errorTypeWindow, this`errorTypeCounts
      ensures WindowsOf(cfg, WindowsView(), calls + [call])
    {
      SlideIsRecount(cfg, WindowsView(), calls, call);
      SlideWindows(call);
    }

    method SlideWindows(call: Call)
      requires Bounded(cfg, WindowsView())
      modifies this`requestTimestamps, this`rttWindow, this`slowCallCount, this`outcomeWindow,
        this`outcomeFailureCount, this`statusWindow, this`statusCounts, this`errorTypeWindow, this`errorTypeCounts
      ensures WindowsView() == Slide(cfg, old(WindowsView()), call)
    {
      requestTimestamps := Push(requestTimestamps, cfg.windowSize, call.ticks);
      if call.status.Some? { CountStatus(call.status.value); }
      CountOutcome(!call.error);
      if call.error && call.errorType.Some? { CountErrorType(call.errorType.value); }
      CountRtt(call.rtt);
    }

    /** The lifetime figures of `_record`. */
    method KeepTotals(call: Call, ghost calls: seq<Call>)
      requires TotalsOf(cfg.alpha, totals, calls)
      modifies this`totals
      ensures TotalsOf(cfg.alpha, totals, calls + [call])
    {
      TotalsAppend(cfg.alpha, totals, calls, call);
      totals := totals.(calls := totals.calls + 1, lastRtt := Some(call.rtt));
      if call.error {
        totals := totals.(errors := totals.errors + 1, consecutive := totals.consecutive + 1);
      } else {
        totals := totals.(consecutive := 0);
      }
      totals := totals.(average := Some(Ema(totals.average, call.rtt, cfg.alpha)));
      totals := totals.(least := Some(Smaller(totals.least, call.rtt)), most := Some(Larger(totals.most, call.rtt)));
    }

    /** What `_record` keeps of the latest call, error and success. */
    method KeepRecent(call: Call)
      modifies this`recent
      ensures recent == Notice(old(recent), call)
    {
      if call.status.Some? { recent := recent.(status := call.status); }
      if call.error {
        recent := recent.(errorAt := Some(call.now));
        if call.message.Some? {
          recent := recent.(error := call.message);
        } else if call.status.Some? {
          recent := recent.(error := Some(HttpText(call.status.value)));
        }
      } else {
        recent := recent.(successAt := Some(call.now));
      }
    }

    /** The outcome window of `_record` and its failures. */
    method CountOutcome(success: bool)
      requires cfg.windowSize > 0 && |outcomeWindow| <= cfg.windowSize
      modifies this`outcomeWindow, this`outcomeFailureCount
      ensures OutcomeView() == AddOutcome(old(OutcomeView()), cfg.windowSize, success)
    {
      if |outcomeWindow| == cfg.windowSize {
        if !outcomeWindow[0] { outcomeFailureCount := outcomeFailureCount - 1; }
      }
      outcomeWindow := Push(outcomeWindow, cfg.windowSize, success);
      if !success { outcomeFailureCount := outcomeFailureCount + 1; }
    }

    /** The response-time window of `_record` and its slow calls. */
    method CountRtt(rtt: real)
      requires cfg.windowSize > 0 && |rttWindow| <= cfg.windowSize
      modifies this`rttWindow, this`slowCallCount
      ensures RttView() == AddRtt(cfg.slow, old(RttView()), cfg.windowSize, rtt)
    {
      if cfg.slow.Some? {
        if |rttWindow| == cfg.windowSize && rttWindow[0] > cfg.slow.value { slowCallCount := slowCallCount - 1; }
        if rtt > cfg.slow.value { slowCallCount := slowCallCount + 1; }
      }
      rttWindow := Push(rttWindow, cfg.windowSize, rtt);
    }

    /** The status window of `_record` and its families. */
    method CountStatus(status: int)
      requires cfg.statsWindow > 0 && StatusInv(StatusView(), cfg.statsWindow)
      modifies this`statusWindow, this`statusCounts
      ensures StatusView() == AddStatus(old(StatusView()), cfg.statsWindow, status)
    {
      statusCounts := Recount(statusCounts, Families(statusWindow), cfg.statsWindow, Family(status));
      AddStatusCounts(old(StatusView()), cfg.statsWindow, status);
      statusWindow := Push(statusWindow, cfg.statsWindow, status);
    }

    /** The window of exception types of `_record` and their counts. */
    method CountErrorType(t: Text)
      requires cfg.statsWindow > 0 && TypeInv(TypeView(), cfg.statsWindow)
      modifies this`errorTypeWindow, this`errorTypeCounts
      ensures TypeView() == AddType(old(TypeView()), cfg.statsWindow, t)
    {
      errorTypeCounts := Recount(errorTypeCounts, errorTypeWindow, cfg.statsWindow, t);
      AddTypeCounts(old(TypeView()), cfg.statsWindow, t);
      errorTypeWindow := Push(errorTypeWindow, cfg.statsWindow, t);
    }
  }
}
