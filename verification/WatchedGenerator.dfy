/**
  `watch` on a generator function.  A generator body is any function from its
  state and what it is resumed with to its next step; the language's own rules
  for send, throw and close are applied on top of it.  The watched generator is
  itself such a body, built around the original one.
*/
module WatchedGenerator {
  import opened Options

  datatype Val = NoneVal | V(n: int)

  /** Exceptions are told apart by identity; the last two are raised by the language. */
  datatype Exc = Ordinary(id: nat) | Fatal(id: nat) | GeneratorExit | IgnoredExit | NotStarted {
    /** What `except Exception` catches. */
    predicate IsException() { !Fatal? && !GeneratorExit? }
  }

  /** What a suspended body sees where it yielded. */
  datatype Resume = Value(v: Val) | Throw(e: Exc)

  datatype Step = Yields(v: Val) | Returns(v: Val) | Raises(e: Exc)

  /** One stretch of a body: its new state, how it ended, and how long it ran. */
  datatype Ran<+S> = Ran(state: S, step: Step, time: real)

  type Body<!S> = (S, Resume) -> Ran<S>

  // ------------------------------------------------------------ the language

  datatype Gen<+S> = Unstarted(s: S) | Suspended(s: S) | Over(s: S)

  datatype Op = Send(v: Val) | ThrowIn(e: Exc) | Close

  datatype Out = Yielded(v: Val) | Stopped(v: Val) | Raised(e: Exc) | Closed(v: Val)

  datatype Driven<+S> = Driven(gen: Gen<S>, out: Out, time: real)

  /** The body resumed by `send` or `throw`. */
  function Continue<S>(body: Body<S>, s: S, r: Resume): Driven<S> {
    var ran := body(s, r);
    match ran.step
    case Yields(v) => Driven(Suspended(ran.state), Yielded(v), ran.time)
    case Returns(v) => Driven(Over(ran.state), Stopped(v), ran.time)
    case Raises(e) => Driven(Over(ran.state), Raised(e), ran.time)
  }

  /**
    `close` throws GeneratorExit in.  A body that yields instead of ending stays
    suspended and the caller gets an error.  From Python 3.13 on (*returning*)
    `close` returns what the body returned.
  */
  function CloseSuspended<S>(returning: bool, body: Body<S>, s: S): Driven<S> {
    var ran := body(s, Throw(GeneratorExit));
    match ran.step
    case Yields(_) => Driven(Suspended(ran.state), Raised(IgnoredExit), ran.time)
    case Returns(v) => Driven(Over(ran.state), Closed(if returning then v else NoneVal), ran.time)
    case Raises(e) =>
      Driven(Over(ran.state), if e.GeneratorExit? then Closed(NoneVal) else Raised(e), ran.time)
  }

  function Drive<S>(returning: bool, body: Body<S>, g: Gen<S>, op: Op): Driven<S> {
    match g
    case Unstarted(s) =>
      (match op
       case Send(v) => if v.NoneVal? then Continue(body, s, Value(NoneVal)) else Driven(g, Raised(NotStarted), 0.0)
       case ThrowIn(e) => Driven(Over(s), Raised(e), 0.0)
       case Close => Driven(Over(s), Closed(NoneVal), 0.0))
    case Suspended(s) =>
      (match op
       case Send(v) => Continue(body, s, Value(v))
       case ThrowIn(e) => Continue(body, s, Throw(e))
       case Close => CloseSuspended(returning, body, s))
    case Over(s) =>
      (match op
       case Send(_) => Driven(g, Stopped(NoneVal), 0.0)
       case ThrowIn(e) => Driven(g, Raised(e), 0.0)
       case Close => Driven(g, Closed(NoneVal), 0.0))
  }

  /** Everything a caller sees of a generator, operation by operation. */
  function Outs<S>(returning: bool, body: Body<S>, g: Gen<S>, ops: seq<Op>): seq<Out>
    decreases |ops|
  {
    if ops == [] then []
    else
      var d := Drive(returning, body, g, ops[0]);
      [d.out] + Outs(returning, body, d.gen, ops[1..])
  }

  function After<S>(returning: bool, body: Body<S>, g: Gen<S>, ops: seq<Op>): Gen<S>
    decreases |ops|
  {
    if ops == [] then g else After(returning, body, Drive(returning, body, g, ops[0]).gen, ops[1..])
  }

  // ------------------------------------------------------------ the wrapper

  /** One recorded call. */
  datatype Rec = Rec(error: bool, rttMs: real)

  function Ms(seconds: real): real { seconds * 1000.0 }

  /** The wrapper's variables where it is suspended, and what the probe has recorded of it. */
  datatype Watching<+S> = Watching(inner: Gen<S>, busy: real, log: seq<Rec>)

  function Recorded<S>(w: Watching<S>, error: bool): Watching<S> {
    w.(log := w.log + [Rec(error, Ms(w.busy))])
  }

  /** The loop body after `inner.send` or `inner.throw`; *thrown* is what was thrown in, if anything. */
  function Forwarded<S>(w: Watching<S>, d: Driven<S>, thrown: Option<Exc>): Ran<Watching<S>> {
    var w1 := w.(inner := d.gen, busy := w.busy + d.time);
    match d.out
    case Yielded(v) => Ran(w1, Yields(v), d.time)
    case Raised(e) =>
      Ran(if e.IsException() then Recorded(w1, thrown != Some(e)) else w1, Raises(e), d.time)
    case _ => Ran(Recorded(w1, false), Returns(d.out.v), d.time)
  }

  /** The `except GeneratorExit` branch: close the original, then end the same way. */
  function Closing<S>(w: Watching<S>, d: Driven<S>): Ran<Watching<S>> {
    var w1 := w.(inner := d.gen, busy := w.busy + d.time);
    if d.out.Raised? then
      Ran(if d.out.e.IsException() then Recorded(w1, true) else w1, Raises(d.out.e), d.time)
    else Ran(Recorded(w1, false), Raises(GeneratorExit), d.time)
  }

  /** The watched generator's body. */
  function Watched<S>(returning: bool, body: Body<S>, w: Watching<S>, r: Resume): Ran<Watching<S>> {
    match r
    case Value(v) => Forwarded(w, Drive(returning, body, w.inner, Send(v)), None)
    case Throw(e) =>
      if e.GeneratorExit? then Closing(w, Drive(returning, body, w.inner, Close))
      else Forwarded(w, Drive(returning, body, w.inner, ThrowIn(e)), Some(e))
  }

  function Wrap<S>(returning: bool, body: Body<S>): Body<Watching<S>> {
    (w, r) => Watched(returning, body, w, r)
  }

  function Fresh<S>(s: S): Gen<Watching<S>> {
    Unstarted(Watching(Unstarted(s), 0.0, []))
  }

  // ------------------------------------------------------------ observational equality

  /** Where the two generators stand: the wrapper holds the original in the same state, with its running time. */
  ghost predicate Related<S>(g: Gen<S>, w: Gen<Watching<S>>, busy: real, log: seq<Rec>) {
    && w.s.log == log
    && (g.Unstarted? <==> w.Unstarted?) && (g.Suspended? <==> w.Suspended?)
    && (!g.Over? ==> w.s.inner == g && w.s.busy == busy && log == [])
  }

  /** What the wrapper makes of an operation: to it, GeneratorExit thrown in is a close. */
  function Meant(op: Op): Op {
    if op == ThrowIn(GeneratorExit) then Close else op
  }

  function AllMeant(ops: seq<Op>): seq<Op> {
    seq(|ops|, i requires 0 <= i < |ops| => Meant(ops[i]))
  }

  /** The close of a suspended body that yields instead of ending. */
  predicate Ignores<S>(body: Body<S>, g: Gen<S>, op: Op) {
    op.Close? && g.Suspended? && body(g.s, Throw(GeneratorExit)).step.Yields?
  }

  /**
    What a body told to end answers and the wrapper does not pass on: a value
    where `close` hands one over, and anything but an exception where
    GeneratorExit was thrown in.
  */
  predicate Withheld<S>(returning: bool, body: Body<S>, g: Gen<S>, op: Op) {
    && Meant(op).Close? && g.Suspended?
    && var step := body(g.s, Throw(GeneratorExit)).step;
       if op.Close? then returning && step.Returns? && step.v != NoneVal else !step.Raises?
  }

  /** True when *op* resumes the body: the call that starts it or any operation while it is suspended. */
  predicate Runs<S>(g: Gen<S>, op: Op) {
    g.Suspended? || (g.Unstarted? && op == Send(NoneVal))
  }

  /** True when *op* ends a call: it runs the body and leaves it over, or closes it. */
  predicate Ends<S>(returning: bool, body: Body<S>, g: Gen<S>, op: Op) {
    Runs(g, op) && (Drive(returning, body, g, op).gen.Over? || op.Close?)
  }

  /** How a call that ends this way is recorded: as an error or not, or, for a fatal exception, not at all. */
  function Verdict(op: Op, out: Out): Option<bool> {
    match out
    case Raised(e) => if !e.IsException() then None else Some(op != ThrowIn(e))
    case _ => Some(false)
  }

  /** What one operation adds to the log. */
  function Records<S>(returning: bool, body: Body<S>, g: Gen<S>, op: Op, busy: real): seq<Rec> {
    var d := Drive(returning, body, g, op);
    if Ends(returning, body, g, op) && Verdict(op, d.out).Some?
    then [Rec(Verdict(op, d.out).value, Ms(busy + d.time))]
    else []
  }

  /** What one operation does to both, *d* to the original and *e* to the wrapper. */
  ghost predicate Agrees<S>(returning: bool, body: Body<S>, g: Gen<S>, op: Op, busy: real, log: seq<Rec>,
                            d: Driven<S>, e: Driven<Watching<S>>) {
    var more := log + Records(returning, body, g, Meant(op), busy);
    && (e.out == d.out <==> !Withheld(returning, body, g, op))
    && e.time == d.time
    && e.gen.s.log == more
    && (Related(d.gen, e.gen, busy + d.time, more) <==> !Ignores(body, g, Meant(op)))
    && (Ignores(body, g, Meant(op)) ==> e.gen.Over?)
  }

  lemma CloseAgrees<S>(returning: bool, body: Body<S>, g: Gen<S>, w: Gen<Watching<S>>, op: Op, busy: real,
                  log: seq<Rec>)
    requires Related(g, w, busy, log) && g.Suspended? && Meant(op).Close?
    ensures Agrees(returning, body, g, op, busy, log,
                   Drive(returning, body, g, op), Drive(returning, Wrap(returning, body), w, op))
  {
  }

  /**
    One operation on both: the caller sees the same exactly unless an answer is
    withheld, the log gains what the original's outcome calls for, and the two
    stay related exactly unless a close was ignored.
  */
  lemma StepAgrees<S>(returning: bool, body: Body<S>, g: Gen<S>, w: Gen<Watching<S>>, op: Op, busy: real,
                  log: seq<Rec>)
    requires Related(g, w, busy, log)
    ensures var d, e := Drive(returning, body, g, op), Drive(returning, Wrap(returning, body), w, op);
            var more := log + Records(returning, body, g, Meant(op), busy);
            && (e.out == d.out <==> !Withheld(returning, body, g, op))
            && e.time == d.time
            && e.gen.s.log == more
            && (Related(d.gen, e.gen, busy + d.time, more) <==> !Ignores(body, g, Meant(op)))
            && (Ignores(body, g, Meant(op)) ==> e.gen.Over?)
  {
    if !g.Suspended? {
    } else if Meant(op).Close? {
      CloseAgrees(returning, body, g, w, op, busy, log);
    } else {
    }
  }

  // ------------------------------------------------------------ what the caller sees

  /** What a generator that has ended answers. */
  function EndedAnswer(op: Op): Out {
    match op
    case Send(_) => Stopped(NoneVal)
    case ThrowIn(e) => Raised(e)
    case Close => Closed(NoneVal)
  }

  /** The generator answers all of *ops* as if it had ended. */
  predicate ActsEnded<S>(returning: bool, body: Body<S>, g: Gen<S>, ops: seq<Op>)
    decreases |ops|
  {
    ops != [] ==>
      && Drive(returning, body, g, ops[0]).out == EndedAnswer(ops[0])
      && ActsEnded(returning, body, Drive(returning, body, g, ops[0]).gen, ops[1..])
  }

  /**
    The original can be watched unseen: up to the first close it ignores, that
    one included, no answer of its is withheld, and from then on it acts as
    ended.
  */
  predicate Unseen<S>(returning: bool, body: Body<S>, g: Gen<S>, ops: seq<Op>)
    decreases |ops|
  {
    ops != [] ==>
      && !Withheld(returning, body, g, ops[0])
      && var next := Drive(returning, body, g, ops[0]).gen;
         if Ignores(body, g, ops[0]) then ActsEnded(returning, body, next, ops[1..])
         else Unseen(returning, body, next, ops[1..])
  }

  lemma SameFirst<T>(a: T, b: T, x: seq<T>, y: seq<T>)
    ensures [a] + x == [b] + y <==> a == b && x == y
  {
    if [a] + x == [b] + y {
      assert ([a] + x)[0] == ([b] + y)[0];
      assert x == ([a] + x)[1..] && y == ([b] + y)[1..];
    }
  }

  lemma {:induction false} EndedAgree<S, T>(returning: bool, body: Body<S>, g: Gen<S>, ended: Body<T>, w: Gen<T>,
                                            ops: seq<Op>)
    requires w.Over?
    ensures Outs(returning, ended, w, ops) == Outs(returning, body, g, ops) <==> ActsEnded(returning, body, g, ops)
    decreases |ops|
  {
    if ops != [] {
      var d, e, rest := Drive(returning, body, g, ops[0]), Drive(returning, ended, w, ops[0]), ops[1..];
      SameFirst(e.out, d.out, Outs(returning, ended, e.gen, rest), Outs(returning, body, d.gen, rest));
      EndedAgree(returning, body, d.gen, ended, e.gen, rest);
    }
  }

  /** The outcomes are the same if and only if the original can be watched unseen. */
  lemma {:induction false} OutsAgree<S>(returning: bool, body: Body<S>, g: Gen<S>, w: Gen<Watching<S>>,
                                        ops: seq<Op>, busy: real, log: seq<Rec>)
    requires Related(g, w, busy, log)
    ensures Outs(returning, Wrap(returning, body), w, ops) == Outs(returning, body, g, ops)
            <==> Unseen(returning, body, g, ops)
    decreases |ops|
  {
    if ops != [] {
      var watched, rest := Wrap(returning, body), ops[1..];
      var d, e := Drive(returning, body, g, ops[0]), Drive(returning, watched, w, ops[0]);
      StepAgrees(returning, body, g, w, ops[0], busy, log);
      SameFirst(e.out, d.out, Outs(returning, watched, e.gen, rest), Outs(returning, body, d.gen, rest));
      if Ignores(body, g, Meant(ops[0])) {
        EndedAgree(returning, body, d.gen, watched, e.gen, rest);
      } else {
        OutsAgree(returning, body, d.gen, e.gen, rest, busy + d.time,
                  log + Records(returning, body, g, Meant(ops[0]), busy));
      }
    }
  }

  // ------------------------------------------------------------ what is recorded

  /** The log that a run of the original calls for. */
  function ExpectedLog<S>(returning: bool, body: Body<S>, g: Gen<S>, ops: seq<Op>, busy: real): seq<Rec>
    decreases |ops|
  {
    if ops == [] then []
    else if Ends(returning, body, g, ops[0]) then Records(returning, body, g, ops[0], busy)
    else
      var d := Drive(returning, body, g, ops[0]);
      ExpectedLog(returning, body, d.gen, ops[1..], busy + d.time)
  }

  /** The operation that ends the call. */
  function EndsAt<S>(returning: bool, body: Body<S>, g: Gen<S>, ops: seq<Op>): (k: Option<nat>)
    ensures k.Some? ==> k.value < |ops|
    decreases |ops|
  {
    if ops == [] then None
    else if Ends(returning, body, g, ops[0]) then Some(0)
    else
      match EndsAt(returning, body, Drive(returning, body, g, ops[0]).gen, ops[1..])
      case None => None
      case Some(k) => Some(k + 1)
  }

  lemma {:induction false} OverExpectsNothing<S>(returning: bool, body: Body<S>, g: Gen<S>, ops: seq<Op>, busy: real)
    requires g.Over?
    ensures ExpectedLog(returning, body, g, ops, busy) == [] && EndsAt(returning, body, g, ops).None?
    decreases |ops|
  {
    if ops != [] { OverExpectsNothing(returning, body, g, ops[1..], busy); }
  }

  lemma {:induction false} OverStays<S>(returning: bool, body: Body<S>, g: Gen<S>, ops: seq<Op>)
    requires g.Over?
    ensures After(returning, body, g, ops) == g
    decreases |ops|
  {
    if ops != [] { OverStays(returning, body, g, ops[1..]); }
  }

  /** Once a call has ended the watched generator is over, whatever the original does. */
  lemma EndIsEnd<S>(returning: bool, body: Body<S>, g: Gen<S>, w: Gen<Watching<S>>, op: Op, busy: real, log: seq<Rec>)
    requires Related(g, w, busy, log) && !g.Over?
    ensures var e := Drive(returning, Wrap(returning, body), w, op);
            && e.gen.s.log == log + Records(returning, body, g, Meant(op), busy)
            && (Ends(returning, body, g, Meant(op)) ==> e.gen.Over?)
            && (!Ends(returning, body, g, Meant(op)) ==>
                  var d := Drive(returning, body, g, op);
                  Related(d.gen, e.gen, busy + d.time, log) && (Runs(g, op) ==> d.gen.Suspended?))
  {
    StepAgrees(returning, body, g, w, op, busy, log);
  }

  lemma {:induction false} LogsAgree<S>(returning: bool, body: Body<S>, g: Gen<S>, w: Gen<Watching<S>>,
                                        ops: seq<Op>, busy: real, log: seq<Rec>)
    requires Related(g, w, busy, log)
    ensures After(returning, Wrap(returning, body), w, ops).s.log
            == log + ExpectedLog(returning, body, g, AllMeant(ops), busy)
    decreases |ops|
  {
    if g.Over? {
      OverStays(returning, Wrap(returning, body), w, ops);
      OverExpectsNothing(returning, body, g, AllMeant(ops), busy);
    } else if ops != [] {
      var d, e := Drive(returning, body, g, ops[0]), Drive(returning, Wrap(returning, body), w, ops[0]);
      EndIsEnd(returning, body, g, w, ops[0], busy, log);
      assert AllMeant(ops)[1..] == AllMeant(ops[1..]);
      if e.gen.Over? {
        OverStays(returning, Wrap(returning, body), e.gen, ops[1..]);
      }
      if !Ends(returning, body, g, Meant(ops[0])) {
        LogsAgree(returning, body, d.gen, e.gen, ops[1..], busy + d.time, log);
      }
    }
  }

  /**
    For every body and all operations: the caller sees the same if and only if
    the original can be watched unseen, and seen or not, the log is the one its
    run calls for.
  */
  lemma WatchedEqualsOriginal<S>(returning: bool, body: Body<S>, s: S, ops: seq<Op>)
    ensures Outs(returning, Wrap(returning, body), Fresh(s), ops) == Outs(returning, body, Unstarted(s), ops)
            <==> Unseen(returning, body, Unstarted(s), ops)
    ensures After(returning, Wrap(returning, body), Fresh(s), ops).s.log
            == ExpectedLog(returning, body, Unstarted(s), AllMeant(ops), 0.0)
  {
    OutsAgree(returning, body, Unstarted(s), Fresh(s), ops, 0.0, []);
    LogsAgree(returning, body, Unstarted(s), Fresh(s), ops, 0.0, []);
  }

  /** How long the body ran until the call ended. */
  function RunningTime<S>(returning: bool, body: Body<S>, g: Gen<S>, ops: seq<Op>): real
    decreases |ops|
  {
    if ops == [] then 0.0
    else
      var d := Drive(returning, body, g, ops[0]);
      d.time + if Ends(returning, body, g, ops[0]) then 0.0 else RunningTime(returning, body, d.gen, ops[1..])
  }

  /** What the *k*th operation makes of the generator. */
  function DriveAt<S>(returning: bool, body: Body<S>, g: Gen<S>, ops: seq<Op>, k: nat): Driven<S>
    requires k < |ops|
  {
    Drive(returning, body, After(returning, body, g, ops[..k]), ops[k])
  }

  /** What is recorded of a call that an operation *op* ended with *out* after running for so many seconds. */
  ghost predicate RecordedAs(log: seq<Rec>, op: Op, out: Out, seconds: real) {
    if out.Raised? && (out.e.Fatal? || out.e.GeneratorExit?) then log == []
    else |log| == 1 && log[0].rttMs == seconds * 1000.0 && (log[0].error <==> out.Raised? && op != ThrowIn(out.e))
  }

  lemma DriveAtLater<S>(returning: bool, body: Body<S>, g: Gen<S>, ops: seq<Op>, k: nat)
    requires k + 1 < |ops|
    ensures DriveAt(returning, body, g, ops, k + 1)
            == DriveAt(returning, body, Drive(returning, body, g, ops[0]).gen, ops[1..], k)
  {
    assert ops[..k + 1][1..] == ops[1..][..k];
  }

  lemma {:induction false} ExpectsOneRecord<S>(returning: bool, body: Body<S>, g: Gen<S>, ops: seq<Op>, busy: real)
    ensures var log := ExpectedLog(returning, body, g, ops, busy);
            match EndsAt(returning, body, g, ops)
            case None => log == []
            case Some(k) =>
              RecordedAs(log, ops[k], DriveAt(returning, body, g, ops, k).out,
                         busy + RunningTime(returning, body, g, ops))
    decreases |ops|
  {
    if ops != [] {
      var d := Drive(returning, body, g, ops[0]);
      if Ends(returning, body, g, ops[0]) {
        assert ops[..0] == [] && DriveAt(returning, body, g, ops, 0) == d;
      } else {
        ExpectsOneRecord(returning, body, d.gen, ops[1..], busy + d.time);
        var k := EndsAt(returning, body, d.gen, ops[1..]);
        if k.Some? { DriveAtLater(returning, body, g, ops, k.value); }
        assert busy + RunningTime(returning, body, g, ops)
               == (busy + d.time) + RunningTime(returning, body, d.gen, ops[1..]);
      }
    }
  }

  /**
    For every body and all operations: a call that was started and then ended,
    by returning, raising an exception or being closed, is recorded exactly
    once, by the operation that ended it: as an error exactly if that raised an
    exception other than the one it threw in, and with the whole time the body
    ran until then.  A fatal exception is not recorded, and neither is a call
    that was not started or has not ended.
  */
  lemma RecordedOnce<S>(returning: bool, body: Body<S>, g: Gen<S>, w: Gen<Watching<S>>, ops: seq<Op>, busy: real)
    requires Related(g, w, busy, [])
    ensures var log, meant := After(returning, Wrap(returning, body), w, ops).s.log, AllMeant(ops);
            match EndsAt(returning, body, g, meant)
            case None => log == []
            case Some(k) =>
              RecordedAs(log, meant[k], DriveAt(returning, body, g, meant, k).out,
                         busy + RunningTime(returning, body, g, meant))
  {
    LogsAgree(returning, body, g, w, ops, busy, []);
    ExpectsOneRecord(returning, body, g, AllMeant(ops), busy);
  }

  /** A started call has ended exactly if the watched generator is over. */
  lemma {:induction false} EndedIff<S>(returning: bool, body: Body<S>, g: Gen<S>, w: Gen<Watching<S>>, ops: seq<Op>,
                                       busy: real, log: seq<Rec>)
    requires Related(g, w, busy, log) && !g.Over? && (ops != [] ==> Runs(g, ops[0]))
    ensures EndsAt(returning, body, g, AllMeant(ops)).Some? <==> After(returning, Wrap(returning, body), w, ops).Over?
    decreases |ops|
  {
    if ops != [] {
      var d, e := Drive(returning, body, g, ops[0]), Drive(returning, Wrap(returning, body), w, ops[0]);
      EndIsEnd(returning, body, g, w, ops[0], busy, log);
      assert AllMeant(ops)[1..] == AllMeant(ops[1..]);
      if Ends(returning, body, g, Meant(ops[0])) {
        OverStays(returning, Wrap(returning, body), e.gen, ops[1..]);
      } else {
        EndedIff(returning, body, d.gen, e.gen, ops[1..], busy + d.time, log);
      }
    }
  }

  // ------------------------------------------------------------ where they differ

  /** A body that swallows GeneratorExit and yields on for ever. */
  function Stubborn(s: int, r: Resume): Ran<int> {
    Ran(s + 1, Yields(V(s)), 1.0)
  }

  /** After a close was ignored the original goes on, but the watched generator has ended. */
  lemma {:induction false} DiffersAfterIgnoredClose(returning: bool)
    ensures var ops := [Send(NoneVal), Close, Send(NoneVal)];
            && Outs(returning, Stubborn, Unstarted(0), ops) == [Yielded(V(0)), Raised(IgnoredExit), Yielded(V(2))]
            && Outs(returning, Wrap(returning, Stubborn), Fresh(0), ops)
               == [Yielded(V(0)), Raised(IgnoredExit), Stopped(NoneVal)]
  {
    var ops := [Send(NoneVal), Close, Send(NoneVal)];
    var body: Body<int> := Stubborn;
    assert ops[1..] == [Close, Send(NoneVal)] && ops[1..][1..] == [Send(NoneVal)];
    assert Outs(returning, body, Suspended(2), [Send(NoneVal)])
           == [Yielded(V(2))] + Outs(returning, body, Suspended(3), []);
    StepAgrees(returning, body, Unstarted(0), Fresh(0), Send(NoneVal), 0.0, []);
    var w1 := Drive(returning, Wrap(returning, body), Fresh(0), Send(NoneVal));
    var w2 := Drive(returning, Wrap(returning, body), w1.gen, Close);
    assert w2.gen.Over? && w2.out == Raised(IgnoredExit);
    var w3 := Drive(returning, Wrap(returning, body), w2.gen, Send(NoneVal));
    assert Outs(returning, Wrap(returning, body), w2.gen, [Send(NoneVal)])
           == [w3.out] + Outs(returning, Wrap(returning, body), w3.gen, []);
  }

  // ------------------------------------------------------------ the wrapper's own loop

  /** `gen_wrapper`: its variables, the clock it reads and the probe's log. */
  class GenWrapper<S> {
    const body: Body<S>
    const returning: bool
    /** `time.perf_counter()`. */
    var clock: real
    var inner: Gen<S>
    var busyS: real
    var log: seq<Rec>

    ghost function View(): Watching<S>
      reads this
    {
      Watching(inner, busyS, log)
    }

    constructor (returning: bool, body: Body<S>, s: S, now: real)
      ensures View() == Fresh(s).s && this.body == body && this.returning == returning && clock == now
    {
      this.body, this.returning, clock := body, returning, now;
      inner, busyS, log := Unstarted(s), 0.0, [];
    }

    /** Suspended at its yield the wrapper does nothing, however long that lasts. */
    method Suspend(elapsed: real)
      modifies this`clock
      ensures View() == old(View()) && clock == old(clock) + elapsed
    {
      clock := clock + elapsed;
    }

    /** Run the original: only this takes time off the clock while the wrapper runs. */
    method RunInner(op: Op) returns (out: Out)
      modifies this`clock, this`inner
      ensures var d := Drive(returning, body, old(inner), op);
              inner == d.gen && out == d.out && clock == old(clock) + d.time
    {
      var d := Drive(returning, body, inner, op);
      inner, out, clock := d.gen, d.out, clock + d.time;
    }

    method Record(error: bool)
      modifies this`log
      ensures View() == Recorded(old(View()), error)
    {
      log := log + [Rec(error, Ms(busyS))];
    }

    /** From one resumption of the wrapper to its next yield or its end. */
    method Advance(r: Resume) returns (step: Step)
      modifies this
      ensures var ran := Watched(returning, body, old(View()), r);
              View() == ran.state && step == ran.step && clock == old(clock) + ran.time
    {
      var resumed := clock;
      if r == Throw(GeneratorExit) {
        var out := RunInner(Close);
        busyS := busyS + (clock - resumed);
        if out.Raised? {
          if out.e.IsException() {
            Record(true);
          }
          return Raises(out.e);
        }
        Record(false);
        return Raises(GeneratorExit);
      }
      var thrown := if r.Throw? then Some(r.e) else None;
      var out := RunInner(if r.Throw? then ThrowIn(r.e) else Send(r.v));
      busyS := busyS + (clock - resumed);
      match out
      case Yielded(v) =>
        step := Yields(v);
      case Raised(e) =>
        if e.IsException() {
          Record(thrown != Some(e));
        }
        step := Raises(e);
      case _ =>
        Record(false);
        step := Returns(out.v);
    }
  }
}
