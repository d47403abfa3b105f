/**
  What becomes of each item, told from the events: it is run to its end unless
  its caller or a cancelling shutdown cancelled it first, and an owner is refused
  exactly while a call of its own is unfinished.
*/
module PoolOutcomes {
  import opened Options
  import opened ThreadPool

  /** The owners of the calls that were put, in order. */
  function Owners(max: nat, es: seq<Event>): seq<Option<nat>> {
    if es == [] then []
    else
      var past, e := es[..|es| - 1], es[|es| - 1];
      Owners(max, past) + if e.Put? && Enabled(max, Run(max, past), e) then [e.owner] else []
  }

  /** The future *i* is cancelled: by its caller, or by a closer that takes its item off the queue. */
  predicate Cancels(max: nat, s: State, e: Event, i: nat) {
    && Enabled(max, s, e) && i < |s.futures| && s.futures[i].Pending?
    && (e == CancelFuture(i) || (e.Drain? && s.work != [] && s.work[0] == Item(i)))
  }

  predicate WasCancelled(max: nat, es: seq<Event>, i: nat) {
    es != [] && (Cancels(max, Run(max, es[..|es| - 1]), es[|es| - 1], i) || WasCancelled(max, es[..|es| - 1], i))
  }

  // ------------------------------------------------------------ one event

  /** Nothing but that cancels a future, and a cancelled one stays so. */
  lemma StepCancels(max: nat, s: State, e: Event, i: nat)
    requires ItemsInv(s)
    ensures var t := Apply(max, s, e);
            && |s.futures| <= |t.futures|
            && (i < |s.futures| ==> (t.futures[i].Cancelled? <==> s.futures[i].Cancelled? || Cancels(max, s, e, i)))
            && (|s.futures| <= i < |t.futures| ==> !t.futures[i].Cancelled?)
            && (i >= |s.futures| ==> !Cancels(max, s, e, i))
  {
    if Enabled(max, s, e) && e.Finish? {
      assert WorkerInv(s, e.worker) && s.threads[e.worker].Has(s.threads[e.worker].id);
    }
  }

  lemma {:induction false} CancelledIff(max: nat, es: seq<Event>, i: nat)
    requires max > 0
    ensures if i < |Run(max, es).futures| then Run(max, es).futures[i].Cancelled? <==> WasCancelled(max, es, i)
            else !WasCancelled(max, es, i)
    decreases |es|
  {
    if es != [] {
      var past, e := es[..|es| - 1], es[|es| - 1];
      CancelledIff(max, past, i);
      assert ItemsInv(Run(max, past)) by { RunKeepsInv(max, past); }
      StepCancels(max, Run(max, past), e, i);
    }
  }

  /** An owner's latest call is one of its own. */
  ghost predicate OwnFlights(s: State) {
    && |s.owner| == |s.futures|
    && (forall o :: o in s.flights ==> s.flights[o] < |s.owner| && s.owner[s.flights[o]] == Some(o))
  }

  lemma {:induction false} OwnersAre(max: nat, es: seq<Event>)
    ensures Run(max, es).owner == Owners(max, es) && OwnFlights(Run(max, es))
    decreases |es|
  {
    if es != [] {
      OwnersAre(max, es[..|es| - 1]);
      StepOwners(max, Run(max, es[..|es| - 1]), es[|es| - 1]);
    }
  }

  lemma StepOwners(max: nat, s: State, e: Event)
    requires OwnFlights(s)
    ensures var t := Apply(max, s, e);
            && OwnFlights(t)
            && t.owner == s.owner + if e.Put? && Enabled(max, s, e) then [e.owner] else []
  {
    assert s.owner + [] == s.owner;
  }

  lemma {:induction false} NobodyDrains(max: nat, es: seq<Event>)
    requires SetFlag(true) !in es
    ensures forall c :: 0 <= c < |Run(max, es).closers| ==> !Run(max, es).closers[c].Draining?
    decreases |es|
  {
    if es != [] {
      NobodyDrains(max, es[..|es| - 1]);
      assert es[|es| - 1] != SetFlag(true);
    }
  }

  // ------------------------------------------------------------ whole runs

  /** A call is refused if and only if one of the same owner is unfinished. */
  lemma RefusedIff(max: nat, es: seq<Event>, o: nat)
    requires max > 0
    ensures var s := Run(max, es);
            && |s.futures| == |Owners(max, es)|
            && (FlightBusy(s, o)
                <==> exists i :: 0 <= i < |s.futures| && Owners(max, es)[i] == Some(o) && !s.futures[i].Done())
  {
    RunKeepsInv(max, es);
    OwnersAre(max, es);
    var s := Run(max, es);
    if i :| 0 <= i < |s.futures| && s.owner[i] == Some(o) && !s.futures[i].Done() {
      assert FutureInv(s, i);
    }
  }

  /**
    When the pool is at rest, after a shutdown or without one, every item was
    run to its end if and only if it was not cancelled.
  */
  lemma RunUnlessCancelled(max: nat, es: seq<Event>, i: nat)
    requires max > 0 && Quiet(max, Run(max, es)) && i < |Run(max, es).futures|
    ensures var s := Run(max, es);
            && (s.futures[i].Finished? <==> !WasCancelled(max, es, i))
            && (i in s.runs <==> !WasCancelled(max, es, i))
  {
    RunKeepsInv(max, es);
    CancelledIff(max, es, i);
    var s := Run(max, es);
    assert FutureInv(s, i);
    FlagMeansClosers(max, es);
    if s.closers != [] { ShutdownReachesEveryone(max, es); } else { QuietMeansDone(max, es); }
  }

  lemma {:induction false} FlagMeansClosers(max: nat, es: seq<Event>)
    ensures Run(max, es).shutdown <==> Run(max, es).closers != []
    decreases |es|
  {
    if es != [] {
      FlagMeansClosers(max, es[..|es| - 1]);
      StepFlag(max, Run(max, es[..|es| - 1]), es[|es| - 1]);
    }
  }

  lemma StepFlag(max: nat, s: State, e: Event)
    requires s.shutdown <==> s.closers != []
    ensures var t := Apply(max, s, e); t.shutdown <==> t.closers != []
  {
  }

  /** A shutdown that is not asked to cancel anything cancels nothing: only callers do. */
  lemma {:induction false} OnlyCallersCancel(max: nat, es: seq<Event>, i: nat)
    requires SetFlag(true) !in es && CancelFuture(i) !in es
    ensures !WasCancelled(max, es, i)
    decreases |es|
  {
    if es != [] {
      OnlyCallersCancel(max, es[..|es| - 1], i);
      NobodyDrains(max, es[..|es| - 1]);
      assert es[|es| - 1] != CancelFuture(i);
    }
  }
}
