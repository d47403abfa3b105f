/**
  One HTTP request through the metrics middleware: what the application sends
  and how it ends decide whether, when and with which status it is recorded.
*/
module Requests {
  import opened Options

  datatype Message = Start(status: int) | Body(more: bool) | OtherMessage

  /** How the server's `send` ended: an `OSError` means that the client has gone. */
  datatype Outcome = Sent | ClientGone | Failed | SendCancelled

  datatype Step = Step(message: Message, outcome: Outcome)

  /** How the application ended; *disconnect* is a `ClientDisconnect`. */
  datatype End = Returned | Raised(disconnect: bool) | Cancelled

  /** A recording: after how many messages, and with which status. */
  datatype Recording = Recording(after: nat, status: int)

  const SERVER_ERROR := 500
  const CLIENT_CLOSED_REQUEST := 499

  predicate Final(m: Message) { m.Body? && !m.more }

  // ------------------------------------------------------------ what should be recorded

  /** The number of messages before the first final body chunk; all of them when there is none. */
  function UntilFinal(steps: seq<Step>): (k: nat)
    ensures k <= |steps| && (k < |steps| ==> Final(steps[k].message))
    ensures forall i :: 0 <= i < k ==> !Final(steps[i].message)
  {
    if steps == [] || Final(steps[0].message) then 0 else 1 + UntilFinal(steps[1..])
  }

  /** The status of the latest response start. */
  function Status(steps: seq<Step>): Option<int> {
    if steps == [] then None
    else
      var last := steps[|steps| - 1].message;
      if last.Start? then Some(last.status) else Status(steps[..|steps| - 1])
  }

  predicate HungUp(steps: seq<Step>) {
    exists i :: 0 <= i < |steps| && steps[i].outcome.ClientGone?
  }

  /**
    The first final body chunk completes the response.  Without one the end of
    the application does: a failure is a server error unless the client hung up,
    and a cancelled request is not counted.
  */
  function Expected(steps: seq<Step>, end: End): Option<Recording> {
    var k := UntilFinal(steps);
    if k < |steps| then Some(Recording(k + 1, Status(steps[..k]).GetOr(SERVER_ERROR)))
    else match end
      case Returned => Some(Recording(k, Status(steps).GetOr(SERVER_ERROR)))
      case Raised(disconnect) =>
        if disconnect || HungUp(steps) then Some(Recording(k, Status(steps).GetOr(CLIENT_CLOSED_REQUEST)))
        else Some(Recording(k, SERVER_ERROR))
      case Cancelled => None
  }

  /** *status* is that of the latest response start among the first *k* messages, if there is one. */
  ghost predicate LatestStart(steps: seq<Step>, k: nat, status: Option<int>)
    requires k <= |steps|
  {
    match status
    case None => forall i :: 0 <= i < k ==> !steps[i].message.Start?
    case Some(x) =>
      exists i :: 0 <= i < k && steps[i].message == Start(x) && forall j :: i < j < k ==> !steps[j].message.Start?
  }

  lemma {:induction false} StatusIsLatest(steps: seq<Step>, k: nat)
    requires k <= |steps|
    ensures LatestStart(steps, k, Status(steps[..k]))
    decreases k
  {
    if k > 0 {
      assert steps[..k][..k - 1] == steps[..k - 1];
      StatusIsLatest(steps, k - 1);
      if steps[k - 1].message.Start? {
        assert steps[k - 1].message == Start(steps[k - 1].message.status);
      } else if Status(steps[..k]).Some? {
        var x := Status(steps[..k]).value;
        var i :| 0 <= i < k - 1 && steps[i].message == Start(x)
                 && forall j :: i < j < k - 1 ==> !steps[j].message.Start?;
        assert forall j :: i < j < k ==> !steps[j].message.Start?;
      }
    }
  }

  /**
    Which status is recorded for each kind of end.  With a final body chunk at
    *k* it is that of the latest response start before it, or 500 without one;
    likewise when the application returns without such a chunk.  When it raises,
    it is 500 even if a response had started, unless the client hung up: then it
    is the status that had started, or 499.
  */
  lemma RecordedStatus(steps: seq<Step>, end: End, k: nat, started: Option<int>)
    requires k <= |steps| && LatestStart(steps, k, started)
    requires (forall i :: 0 <= i < k ==> !Final(steps[i].message)) && (k < |steps| ==> Final(steps[k].message))
    ensures k < |steps| ==> Expected(steps, end) == Some(Recording(k + 1, started.GetOr(500)))
    ensures k == |steps| && end.Returned? ==> Expected(steps, end) == Some(Recording(k, started.GetOr(500)))
    ensures k == |steps| && end.Raised? ==>
        var gone := end.disconnect || exists i :: 0 <= i < |steps| && steps[i].outcome.ClientGone?;
        Expected(steps, end) == Some(Recording(k, if gone then started.GetOr(499) else 500))
  {
    assert UntilFinal(steps) == k;
    StatusIsLatest(steps, k);
    OneLatestStart(steps, k, started, Status(steps[..k]));
    if k == |steps| { assert steps[..k] == steps; }
  }

  lemma OneLatestStart(steps: seq<Step>, k: nat, a: Option<int>, b: Option<int>)
    requires k <= |steps| && LatestStart(steps, k, a) && LatestStart(steps, k, b)
    ensures a == b
  {
    if a.Some? && b.Some? {
      var i :| 0 <= i < k && steps[i].message == Start(a.value) && forall j :: i < j < k ==> !steps[j].message.Start?;
      var q :| 0 <= q < k && steps[q].message == Start(b.value) && forall j :: q < j < k ==> !steps[j].message.Start?;
      assert i == q;
    }
  }

  /** A request goes uncounted exactly when it is cancelled before its response is complete. */
  lemma UncountedIffCancelled(steps: seq<Step>, end: End)
    ensures Expected(steps, end).None?
            <==> end.Cancelled? && forall i :: 0 <= i < |steps| ==> !Final(steps[i].message)
  {
    assert UntilFinal(steps) < |steps| ==> Final(steps[UntilFinal(steps)].message);
  }

  /** After the response is complete, neither later messages nor the end of the application change anything. */
  lemma {:induction false} CompleteIsSettled(steps: seq<Step>, more: seq<Step>, end: End, other: End)
    requires exists i :: 0 <= i < |steps| && Final(steps[i].message)
    ensures Expected(steps + more, end) == Expected(steps, other)
  {
    var k := UntilFinal(steps);
    assert k < |steps|;
    assert (steps + more)[k] == steps[k];
    forall i | 0 <= i < k ensures !Final((steps + more)[i].message) {
      assert (steps + more)[i] == steps[i];
    }
    assert UntilFinal(steps + more) == k;
    assert (steps + more)[..k] == steps[..k];
  }

  // ------------------------------------------------------------ the middleware's closure

  class Request {
    var statusCode: int
    var started: bool
    var done: bool
    var clientGone: bool
    /** What was recorded, and how many messages went by. */
    var recorded: seq<Recording>
    var sent: nat

    /** The variables after *steps*, while the application still runs. */
    ghost predicate After(steps: seq<Step>)
      reads this
    {
      var k := UntilFinal(steps);
      && sent == |steps| && done == (k < |steps|)
      && recorded == (if done then [Expected(steps, Cancelled).value] else [])
      && (!done ==> && statusCode == Status(steps).GetOr(SERVER_ERROR)
                    && started == Status(steps).Some?
                    && clientGone == HungUp(steps))
    }

    constructor ()
      ensures After([])
    {
      statusCode, started, done, clientGone := SERVER_ERROR, false, false, false;
      recorded, sent := [], 0;
    }

    /** `_record`, for a request whose route is counted. */
    method Record()
      modifies this`recorded
      ensures recorded == old(recorded) + [Recording(sent, statusCode)]
    {
      recorded := recorded + [Recording(sent, statusCode)];
    }

    /** `send_wrapper`. */
    method SendWrapper(step: Step, ghost steps: seq<Step>)
      requires After(steps)
      modifies this
      ensures After(steps + [step])
    {
      if Final(step.message) && !done {
        Complete(step, steps);
      } else {
        PassOn(step, steps);
      }
    }

    /** The last body chunk completes the response: it is recorded however its own `send` ends. */
    method Complete(step: Step, ghost steps: seq<Step>)
      requires After(steps) && Final(step.message) && !done
      modifies this
      ensures After(steps + [step])
    {
      OneMore(steps, step);
      done, sent := true, sent + 1;
      Record();
    }

    /** Any other message: a start sets the status, and an `OSError` says that the client has gone. */
    method PassOn(step: Step, ghost steps: seq<Step>)
      requires After(steps) && (Final(step.message) ==> done)
      modifies this
      ensures After(steps + [step])
    {
      OneMore(steps, step);
      SameCompletion(steps, step);
      sent := sent + 1;
      if step.message.Start? { statusCode, started := step.message.status, true; }
      if step.outcome.ClientGone? { clientGone := true; }
    }

    /** `__call__` once the application has ended. */
    method Finish(end: End, ghost steps: seq<Step>)
      requires After(steps)
      modifies this
      ensures recorded == match Expected(steps, end) case Some(r) => [r] case None => []
    {
      match end
      case Returned =>
        if !done { Record(); }
      case Raised(disconnect) =>
        if !done {
          done := true;
          if clientGone || disconnect {
            statusCode := if started then statusCode else CLIENT_CLOSED_REQUEST;
          } else {
            statusCode := SERVER_ERROR;
          }
          Record();
        }
      case Cancelled =>
    }
  }

  lemma {:induction false} OneMore(steps: seq<Step>, step: Step)
    ensures var more, k := steps + [step], UntilFinal(steps);
            && UntilFinal(more) == (if k < |steps| || Final(step.message) then k else k + 1)
            && more[..|steps|] == steps && more[..k] == steps[..k]
            && Status(more) == (if step.message.Start? then Some(step.message.status) else Status(steps))
            && HungUp(more) == (HungUp(steps) || step.outcome.ClientGone?)
  {
    var more, k := steps + [step], UntilFinal(steps);
    forall i | 0 <= i < |steps| ensures more[i] == steps[i] {}
    assert more[|steps|] == step;
    assert more[..|steps|] == steps && more[..k] == steps[..k];
  }

  /** A message that does not complete the response leaves it complete or incomplete as it was. */
  lemma SameCompletion(steps: seq<Step>, step: Step)
    requires Final(step.message) ==> UntilFinal(steps) < |steps|
    ensures var more := steps + [step];
            && (UntilFinal(more) < |more| <==> UntilFinal(steps) < |steps|)
            && (UntilFinal(steps) < |steps| ==> Expected(more, Cancelled) == Expected(steps, Cancelled))
  {
    OneMore(steps, step);
  }

  /** A request served from start to end is recorded at most once, and as it should be. */
  method Serve(steps: seq<Step>, end: End) returns (recorded: seq<Recording>)
    ensures recorded == match Expected(steps, end) case Some(r) => [r] case None => []
  {
    var request := new Request();
    ghost var past: seq<Step> := [];
    var i := 0;
    while i < |steps|
      invariant 0 <= i <= |steps| && fresh(request) && past == steps[..i] && request.After(past)
    {
      request.SendWrapper(steps[i], past);
      past := past + [steps[i]];
      i := i + 1;
    }
    request.Finish(end, past);
    assert past == steps;
    recorded := request.recorded;
  }
}
