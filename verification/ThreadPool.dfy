/**
  The daemon thread pool and the single-flight guard on it.

  Callers, workers and closers interleave freely; each event is one atomic
  operation on the queue, the idle semaphore, the lock or a future.  A submit is
  three of them under the lock: put the item, try the semaphore, start a thread.
*/
module ThreadPool {
  import opened Options

  datatype Entry = Item(id: nat) | Marker

  /** A worker waits for the queue, has taken an item, runs it, is about to release the semaphore, or is leaving. */
  datatype Worker = Waiting | Holding(id: nat) | Running(id: nat) | Releasing | Passing | Exited {
    predicate Has(i: nat) { (Holding? || Running?) && id == i }

    predicate Busy() { Holding? || Running? || Releasing? }
  }

  datatype Future = Pending | Started | Finished | Cancelled {
    predicate Done() { Finished? || Cancelled? }
  }

  /** The submit holding the lock, if any: its item is put, or it is about to start a thread. */
  datatype Submitting = Free | AfterPut | Starting

  /** A `shutdown` call after it set the flag: still emptying the queue, about to put the marker, or done. */
  datatype Closer = Draining | Putting | Closed

  /**
    *takenBy* is a history: which worker took each item, or none when a closer
    did.  *owner* and *flights* are the single-flight guards: whose future each
    is, and each owner's latest.
  */
  datatype State = State(
    work: seq<Entry>,
    idle: nat,
    threads: seq<Worker>,
    submitting: Submitting,
    shutdown: bool,
    closers: seq<Closer>,
    futures: seq<Future>,
    takenBy: seq<Option<nat>>,
    runs: seq<nat>,
    owner: seq<Option<nat>>,
    flights: map<nat, nat>)

  const INITIAL := State([], 0, [], Free, false, [], [], [], [], [], map[])

  datatype Event =
    | Put(owner: Option<nat>)
    | Acquire
    | Start
    | Take(worker: nat)
    | Begin(worker: nat)
    | Finish(worker: nat)
    | Release(worker: nat)
    | Pass(worker: nat)
    | CancelFuture(id: nat)
    | SetFlag(cancel: bool)
    | Drain(closer: nat)
    | PutMarker(closer: nat)

  // ------------------------------------------------------------ steps

  /** True while the owner's previous call has not finished. */
  predicate FlightBusy(s: State, o: nat) {
    o in s.flights && s.flights[o] < |s.futures| && !s.futures[s.flights[o]].Done()
  }

  predicate Enabled(max: nat, s: State, e: Event) {
    match e
    case Put(o) => s.submitting.Free? && !s.shutdown && (o.Some? ==> !FlightBusy(s, o.value))
    case Acquire => s.submitting.AfterPut?
    case Start => s.submitting.Starting?
    case Take(w) => w < |s.threads| && s.threads[w].Waiting? && s.work != []
    case Begin(w) => w < |s.threads| && s.threads[w].Holding? && s.threads[w].id < |s.futures|
    case Finish(w) => w < |s.threads| && s.threads[w].Running? && s.threads[w].id < |s.futures|
    case Release(w) => w < |s.threads| && s.threads[w].Releasing?
    case Pass(w) => w < |s.threads| && s.threads[w].Passing?
    case CancelFuture(i) => i < |s.futures| && s.futures[i].Pending?
    case SetFlag(_) => s.submitting.Free?
    case Drain(i) => i < |s.closers| && s.closers[i].Draining?
    case PutMarker(i) => i < |s.closers| && s.closers[i].Putting?
  }

  function AtWorker(s: State, w: nat, x: Worker): State
    requires w < |s.threads|
  {
    s.(threads := s.threads[w := x])
  }

  /** The item is queued before the semaphore is tried. */
  function PutItem(s: State, o: Option<nat>): State {
    var i := |s.futures|;
    s.(work := s.work + [Item(i)], futures := s.futures + [Pending], owner := s.owner + [o],
       flights := if o.Some? then s.flights[o.value := i] else s.flights, submitting := AfterPut)
  }

  /** An idle worker will take the item; otherwise a thread is started, up to *max*. */
  function TryIdle(max: nat, s: State): State {
    if s.idle > 0 then s.(idle := s.idle - 1, submitting := Free)
    else s.(submitting := if |s.threads| < max then Starting else Free)
  }

  function TakeHead(s: State, w: nat): State
    requires w < |s.threads| && s.work != []
  {
    match s.work[0]
    case Item(i) => AtWorker(s, w, Holding(i)).(work := s.work[1..], takenBy := s.takenBy + [Some(w)])
    case Marker => AtWorker(s, w, Passing).(work := s.work[1..])
  }

  /** `set_running_or_notify_cancel`: a future cancelled meanwhile is not run. */
  function BeginItem(s: State, w: nat): State
    requires w < |s.threads| && s.threads[w].Holding? && s.threads[w].id < |s.futures|
  {
    var i := s.threads[w].id;
    if s.futures[i].Pending?
    then AtWorker(s, w, Running(i)).(futures := s.futures[i := Started], runs := s.runs + [i])
    else AtWorker(s, w, Releasing)
  }

  /** `cancel` of a future that nobody runs yet. */
  function CancelPending(futures: seq<Future>, i: nat): seq<Future> {
    if i < |futures| && futures[i].Pending? then futures[i := Cancelled] else futures
  }

  /** One `get_nowait` of a shutdown that cancels: an item's future is cancelled, a marker dropped. */
  function DrainHead(s: State, c: nat): State
    requires c < |s.closers|
  {
    if s.work == [] then s.(closers := s.closers[c := Putting])
    else
      match s.work[0]
      case Item(i) =>
        s.(work := s.work[1..], takenBy := s.takenBy + [None], futures := CancelPending(s.futures, i))
      case Marker => s.(work := s.work[1..])
  }

  /** The effect of an event; one that cannot happen changes nothing. */
  function Apply(max: nat, s: State, e: Event): State {
    if !Enabled(max, s, e) then s else
    match e
    case Put(o) => PutItem(s, o)
    case Acquire => TryIdle(max, s)
    case Start => s.(threads := s.threads + [Waiting], submitting := Free)
    case Take(w) => TakeHead(s, w)
    case Begin(w) => BeginItem(s, w)
    case Finish(w) => AtWorker(s, w, Releasing).(futures := s.futures[s.threads[w].id := Finished])
    case Release(w) => AtWorker(s, w, Waiting).(idle := s.idle + 1)
    case Pass(w) => AtWorker(s, w, Exited).(work := s.work + [Marker])
    case CancelFuture(i) => s.(futures := s.futures[i := Cancelled])
    case SetFlag(cancel) => s.(shutdown := true, closers := s.closers + [if cancel then Draining else Putting])
    case Drain(c) => DrainHead(s, c)
    case PutMarker(c) => s.(work := s.work + [Marker], closers := s.closers[c := Closed])
  }

  function Run(max: nat, es: seq<Event>): State {
    if es == [] then INITIAL else Apply(max, Run(max, es[..|es| - 1]), es[|es| - 1])
  }

  // ------------------------------------------------------------ counting

  function Busy(threads: seq<Worker>): (n: nat)
    ensures n <= |threads|
  {
    if threads == [] then 0
    else Busy(threads[..|threads| - 1]) + (if threads[|threads| - 1].Busy() then 1 else 0)
  }

  lemma {:induction false} BusyUpdate(threads: seq<Worker>, w: nat, x: Worker)
    requires w < |threads|
    ensures Busy(threads[w := x])
            == Busy(threads) - (if threads[w].Busy() then 1 else 0) + (if x.Busy() then 1 else 0)
    decreases |threads|
  {
    var n := |threads| - 1;
    if w < n {
      BusyUpdate(threads[..n], w, x);
      assert threads[w := x][..n] == threads[..n][w := x];
    } else {
      assert threads[w := x][..n] == threads[..n];
    }
  }

  /** Items not yet taken. */
  function Queued(s: State): int {
    |s.futures| - |s.takenBy|
  }

  /** Items queued, items in a worker's hands and permits of the semaphore. */
  function Load(s: State): int {
    Queued(s) + Busy(s.threads) + s.idle
  }

  /** The item of a submit half done, which has neither a permit nor a thread yet. */
  function Half(s: State): nat {
    if s.submitting.Free? then 0 else 1
  }

  /** An acquire that finds no permit when the pool is at its cap: no worker is set aside for its item. */
  predicate Misses(max: nat, s: State, e: Event) {
    e.Acquire? && s.submitting.AfterPut? && s.idle == 0 && |s.threads| >= max
  }

  /** Below the cap the load is exactly the number of threads, plus the item of a submit half done. */
  ghost predicate Balanced(max: nat, s: State) {
    && |s.threads| <= max
    && (s.submitting.Starting? ==> |s.threads| < max)
    && (!s.shutdown && |s.threads| < max ==> Load(s) == |s.threads| + Half(s))
    && (|s.threads| == 0 && s.submitting.Free? && max > 0 ==> Queued(s) == 0)
  }

  // ------------------------------------------------------------ the queue

  /** The queue holds the items not yet taken, in the order submitted, and behind them only markers. */
  ghost predicate Queue(s: State) {
    && 0 <= Queued(s) <= |s.work|
    && (forall k :: 0 <= k < Queued(s) ==> s.work[k] == Item(|s.takenBy| + k))
    && (forall k :: Queued(s) <= k < |s.work| ==> s.work[k] == Marker)
    && |s.owner| == |s.futures|
  }

  /** Before shutdown there is no marker anywhere; once a worker took one, no item is left. */
  ghost predicate Sealed(s: State) {
    && (!s.shutdown ==> |s.work| == Queued(s) && s.closers == [])
    && (s.shutdown ==> s.submitting.Free?)
    && (forall w :: 0 <= w < |s.threads| && (s.threads[w].Passing? || s.threads[w].Exited?) ==>
          s.shutdown && Queued(s) == 0)
  }

  /** A marker is queued, being passed on, or about to be put. */
  ghost predicate MarkerAbout(s: State) {
    || |s.work| > Queued(s)
    || (exists w :: 0 <= w < |s.threads| && s.threads[w].Passing?)
    || (exists c :: 0 <= c < |s.closers| && !s.closers[c].Closed?)
  }

  // ------------------------------------------------------------ each item

  /** A worker's item was taken by it, and no other worker has it. */
  ghost predicate WorkerInv(s: State, w: nat)
    requires w < |s.threads|
  {
    forall i: nat :: s.threads[w].Has(i) ==>
      && i < |s.takenBy| <= |s.futures| && s.takenBy[i] == Some(w)
      && (s.threads[w].Running? ==> s.futures[i].Started?)
      && (s.threads[w].Holding? ==> s.futures[i].Pending? || s.futures[i].Cancelled?)
  }

  /** An item is queued, in the hands of the worker that took it, or done with; it was run once or not at all. */
  ghost predicate FutureInv(s: State, i: nat)
    requires i < |s.futures|
  {
    && (i >= |s.takenBy| ==> s.futures[i].Pending? || s.futures[i].Cancelled?)
    && (i < |s.takenBy| && !s.futures[i].Done() ==>
          s.takenBy[i].Some? && s.takenBy[i].value < |s.threads| && s.threads[s.takenBy[i].value].Has(i))
    && (i in s.runs <==> s.futures[i].Started? || s.futures[i].Finished?)
    && (|s.owner| == |s.futures| && s.owner[i].Some? && !s.futures[i].Done() ==>
          Get(s.flights, s.owner[i].value) == Some(i))
  }

  ghost predicate ItemsInv(s: State) {
    && |s.takenBy| <= |s.futures|
    && (forall w :: 0 <= w < |s.threads| ==> WorkerInv(s, w))
    && (forall i :: 0 <= i < |s.futures| ==> FutureInv(s, i))
    && (forall k :: 0 <= k < |s.runs| ==> s.runs[k] < |s.futures|)
    && (forall j, k :: 0 <= j < k < |s.runs| ==> s.runs[j] != s.runs[k])
    && (forall o :: o in s.flights ==> s.flights[o] < |s.futures|)
  }

  ghost predicate Inv(max: nat, s: State) {
    Queue(s) && Balanced(max, s) && Sealed(s) && (s.closers != [] ==> MarkerAbout(s)) && ItemsInv(s)
  }

  // ------------------------------------------------------------ every event keeps it

  lemma TakeKeepsQueue(max: nat, s: State, w: nat)
    requires Queue(s) && Sealed(s) && Enabled(max, s, Take(w))
    ensures Queue(TakeHead(s, w)) && Sealed(TakeHead(s, w))
  {
  }

  lemma DrainKeepsQueue(max: nat, s: State, c: nat)
    requires Queue(s) && Sealed(s) && Enabled(max, s, Drain(c))
    ensures Queue(DrainHead(s, c)) && Sealed(DrainHead(s, c))
  {
  }

  lemma {:induction false} KeepsQueue(max: nat, s: State, e: Event)
    requires Queue(s) && Sealed(s)
    ensures Queue(Apply(max, s, e)) && Sealed(Apply(max, s, e))
  {
    if Enabled(max, s, e) {
      match e
      case Take(w) => TakeKeepsQueue(max, s, w);
      case Drain(c) => DrainKeepsQueue(max, s, c);
      case _ =>
    }
  }

  predicate OfWorker(e: Event) {
    e.Take? || e.Begin? || e.Finish? || e.Release? || e.Pass?
  }

  /** What the load exceeds the threads by. */
  function Surplus(s: State): int {
    Load(s) - |s.threads| - Half(s)
  }

  lemma {:induction false} WorkerKeepsSurplus(max: nat, s: State, e: Event)
    requires Queue(s) && Sealed(s) && Enabled(max, s, e) && OfWorker(e) && !s.shutdown
    ensures Surplus(Apply(max, s, e)) == Surplus(s)
  {
    var t := Apply(max, s, e);
    BusyUpdate(s.threads, e.worker, t.threads[e.worker]);
    assert t.threads == s.threads[e.worker := t.threads[e.worker]];
  }

  lemma StartKeepsSurplus(max: nat, s: State)
    requires s.submitting.Starting?
    ensures Surplus(Apply(max, s, Start)) == Surplus(s)
  {
    assert (s.threads + [Waiting])[..|s.threads|] == s.threads;
  }

  /** Before shutdown the surplus grows by one with every acquire that misses, and changes at no other event. */
  lemma {:induction false} KeepsSurplus(max: nat, s: State, e: Event)
    requires Queue(s) && Sealed(s) && !Apply(max, s, e).shutdown
    ensures Surplus(Apply(max, s, e)) == Surplus(s) + if Misses(max, s, e) then 1 else 0
  {
    if Enabled(max, s, e) {
      match e
      case Start => StartKeepsSurplus(max, s);
      case Put(_) =>
      case Acquire =>
      case CancelFuture(_) =>
      case SetFlag(_) =>
      case Drain(_) =>
      case PutMarker(_) =>
      case _ => WorkerKeepsSurplus(max, s, e);
    }
  }

  lemma {:induction false} KeepsBalance(max: nat, s: State, e: Event)
    requires Queue(s) && Sealed(s) && Balanced(max, s)
    ensures Balanced(max, Apply(max, s, e))
  {
    if Enabled(max, s, e) {
      var t := Apply(max, s, e);
      if !t.shutdown { KeepsSurplus(max, s, e); }
      assert |s.threads| <= |t.threads| <= max;
      if |t.threads| == 0 && t.submitting.Free? && max > 0 {
        NoThreadNoItem(max, s, e);
      }
    }
  }

  lemma NoThreadNoItem(max: nat, s: State, e: Event)
    requires Queue(s) && Sealed(s) && Balanced(max, s) && Enabled(max, s, e) && max > 0
    requires |Apply(max, s, e).threads| == 0 && Apply(max, s, e).submitting.Free?
    ensures Queued(Apply(max, s, e)) == 0
  {
  }

  lemma {:induction false} KeepsMarker(max: nat, s: State, e: Event)
    requires Queue(s) && Sealed(s) && s.closers != [] && MarkerAbout(s)
    ensures MarkerAbout(Apply(max, s, e))
  {
    var t := Apply(max, s, e);
    if Enabled(max, s, e) {
      if exists c :: 0 <= c < |s.closers| && !s.closers[c].Closed? {
        var c :| 0 <= c < |s.closers| && !s.closers[c].Closed?;
        assert e != PutMarker(c) ==> !t.closers[c].Closed?;
      } else if exists w :: 0 <= w < |s.threads| && s.threads[w].Passing? {
        var w :| 0 <= w < |s.threads| && s.threads[w].Passing?;
        assert e != Pass(w) ==> t.threads[w].Passing?;
      } else if e.Take? {
        assert s.work[0].Marker? ==> t.threads[e.worker].Passing?;
      }
    }
  }

  lemma {:induction false} PutKeepsItems(max: nat, s: State, o: Option<nat>)
    requires Queue(s) && ItemsInv(s) && Enabled(max, s, Put(o))
    ensures ItemsInv(PutItem(s, o))
  {
    var t := PutItem(s, o);
    forall w | 0 <= w < |t.threads| ensures WorkerInv(t, w) { assert WorkerInv(s, w); }
    forall i | 0 <= i < |t.futures| ensures FutureInv(t, i) { assert i < |s.futures| ==> FutureInv(s, i); }
  }

  lemma {:induction false} TakeKeepsItems(max: nat, s: State, w: nat)
    requires Queue(s) && ItemsInv(s) && Enabled(max, s, Take(w))
    ensures ItemsInv(TakeHead(s, w))
  {
    var t := TakeHead(s, w);
    assert s.work[0].Item? ==> FutureInv(s, |s.takenBy|);
    forall v | 0 <= v < |t.threads| ensures WorkerInv(t, v) { assert WorkerInv(s, v); }
    forall i | 0 <= i < |t.futures| ensures FutureInv(t, i) { assert FutureInv(s, i); }
  }

  /** A worker moves on with the item in its hands, whose future becomes *f*. */
  lemma {:induction false} WorkerKeepsItems(s: State, w: nat, x: Worker, f: Future, runs: seq<nat>)
    requires ItemsInv(s) && w < |s.threads| && (s.threads[w].Holding? || s.threads[w].Running?)
    requires var i := s.threads[w].id;
             && i < |s.futures|
             && (|| (x == Running(i) && f.Started? && s.futures[i].Pending? && runs == s.runs + [i])
                 || (x.Releasing? && f.Done() && runs == s.runs
                     && (f == s.futures[i] || (s.threads[w].Running? && f.Finished?))))
    ensures ItemsInv(AtWorker(s, w, x).(futures := s.futures[s.threads[w].id := f], runs := runs))
  {
    var i := s.threads[w].id;
    var t := AtWorker(s, w, x).(futures := s.futures[i := f], runs := runs);
    assert WorkerInv(s, w) && s.threads[w].Has(i) && FutureInv(s, i);
    forall v | 0 <= v < |t.threads| ensures WorkerInv(t, v) { assert WorkerInv(s, v); }
    forall j | 0 <= j < |t.futures| ensures FutureInv(t, j) { assert FutureInv(s, j); }
  }

  lemma {:induction false} DrainKeepsItems(max: nat, s: State, c: nat)
    requires Queue(s) && ItemsInv(s) && Enabled(max, s, Drain(c))
    ensures ItemsInv(DrainHead(s, c))
  {
    var t := DrainHead(s, c);
    forall v | 0 <= v < |t.threads| ensures WorkerInv(t, v) { assert WorkerInv(s, v); }
    forall j | 0 <= j < |t.futures| ensures FutureInv(t, j) { assert FutureInv(s, j); }
  }

  /** Events that touch no item: what workers hold and every future stay as they were. */
  lemma {:induction false} OthersKeepItems(s: State, t: State)
    requires ItemsInv(s) && t.futures == s.futures && t.takenBy == s.takenBy && t.runs == s.runs
    requires t.owner == s.owner && t.flights == s.flights && |s.threads| <= |t.threads|
    requires forall w, i: nat :: 0 <= w < |t.threads| && t.threads[w].Has(i) ==>
        w < |s.threads| && t.threads[w] == s.threads[w]
    requires forall w, i: nat :: 0 <= w < |s.threads| && s.threads[w].Has(i) ==> t.threads[w] == s.threads[w]
    ensures ItemsInv(t)
  {
    forall v | 0 <= v < |t.threads| ensures WorkerInv(t, v) { assert v < |s.threads| ==> WorkerInv(s, v); }
    forall j | 0 <= j < |t.futures| ensures FutureInv(t, j) { assert FutureInv(s, j); }
  }

  lemma {:induction false} CancelKeepsItems(s: State, i: nat)
    requires ItemsInv(s) && i < |s.futures| && s.futures[i].Pending?
    ensures ItemsInv(s.(futures := s.futures[i := Cancelled]))
  {
    var t := s.(futures := s.futures[i := Cancelled]);
    forall v | 0 <= v < |t.threads| ensures WorkerInv(t, v) { assert WorkerInv(s, v); }
    forall j | 0 <= j < |t.futures| ensures FutureInv(t, j) { assert FutureInv(s, j); }
  }

  lemma {:induction false} KeepsItems(max: nat, s: State, e: Event)
    requires Queue(s) && ItemsInv(s)
    ensures ItemsInv(Apply(max, s, e))
  {
    if Enabled(max, s, e) {
      match e
      case Put(o) => PutKeepsItems(max, s, o);
      case Take(w) => TakeKeepsItems(max, s, w);
      case Begin(w) =>
        var i := s.threads[w].id;
        assert WorkerInv(s, w) && s.threads[w].Has(i);
        if s.futures[i].Pending? {
          WorkerKeepsItems(s, w, Running(i), Started, s.runs + [i]);
        } else {
          WorkerKeepsItems(s, w, Releasing, s.futures[i], s.runs);
          assert s.futures[i := s.futures[i]] == s.futures;
        }
      case Finish(w) => WorkerKeepsItems(s, w, Releasing, Finished, s.runs);
      case CancelFuture(i) => CancelKeepsItems(s, i);
      case Drain(c) => DrainKeepsItems(max, s, c);
      case _ => OthersKeepItems(s, Apply(max, s, e));
    }
  }

  lemma {:induction false} ApplyKeepsInv(max: nat, s: State, e: Event)
    requires Inv(max, s)
    ensures Inv(max, Apply(max, s, e))
  {
    KeepsQueue(max, s, e);
    KeepsBalance(max, s, e);
    KeepsItems(max, s, e);
    if s.closers != [] {
      KeepsMarker(max, s, e);
    } else if e.SetFlag? && Enabled(max, s, e) {
      assert !Apply(max, s, e).closers[0].Closed?;
    }
  }

  lemma {:induction false} RunKeepsInv(max: nat, es: seq<Event>)
    requires max > 0
    ensures Inv(max, Run(max, es))
    decreases |es|
  {
    if es != [] {
      RunKeepsInv(max, es[..|es| - 1]);
      ApplyKeepsInv(max, Run(max, es[..|es| - 1]), es[|es| - 1]);
    }
  }

  // ------------------------------------------------------------ work conservation

  /** Workers waiting for the queue. */
  function Waiters(threads: seq<Worker>): nat {
    if threads == [] then 0
    else Waiters(threads[..|threads| - 1]) + (if threads[|threads| - 1].Waiting? then 1 else 0)
  }

  lemma {:induction false} WaitersAndBusy(threads: seq<Worker>)
    requires forall w :: 0 <= w < |threads| ==> !threads[w].Passing? && !threads[w].Exited?
    ensures Waiters(threads) + Busy(threads) == |threads|
    decreases |threads|
  {
    if threads != [] {
      assert !threads[|threads| - 1].Passing? && !threads[|threads| - 1].Exited?;
      WaitersAndBusy(threads[..|threads| - 1]);
    }
  }

  /** How many acquires have missed in the run *es*. */
  function Missed(max: nat, es: seq<Event>): nat {
    if es == [] then 0
    else
      var before := es[..|es| - 1];
      Missed(max, before) + if Misses(max, Run(max, before), es[|es| - 1]) then 1 else 0
  }

  lemma NothingShrinks(max: nat, s: State, e: Event)
    ensures var t := Apply(max, s, e);
            && |s.threads| <= |t.threads| && |s.closers| <= |t.closers| && (s.shutdown ==> t.shutdown)
  {
  }

  lemma {:induction false} MissedAtCap(max: nat, es: seq<Event>)
    ensures Missed(max, es) > 0 ==> |Run(max, es).threads| >= max
    decreases |es|
  {
    if es != [] {
      MissedAtCap(max, es[..|es| - 1]);
      NothingShrinks(max, Run(max, es[..|es| - 1]), es[|es| - 1]);
    }
  }

  lemma {:induction false} SurplusIsMissed(max: nat, es: seq<Event>)
    requires max > 0 && !Run(max, es).shutdown
    ensures Surplus(Run(max, es)) == Missed(max, es)
    decreases |es|
  {
    if es != [] {
      var before, e := es[..|es| - 1], es[|es| - 1];
      assert Queue(Run(max, before)) && Sealed(Run(max, before)) by { RunKeepsInv(max, before); }
      NothingShrinks(max, Run(max, before), e);
      KeepsSurplus(max, Run(max, before), e);
      SurplusIsMissed(max, before);
    }
  }

  /**
    The pool never has more threads than its cap.  Until a shutdown the account
    is exact: what is queued, in workers' hands or a permit is one for each
    thread, and one for each acquire that missed.  So when no submit is half
    done, the permits are the waiting workers left over by the queue if and
    only if none ever missed; below the cap none has.
  */
  lemma EveryQueuedItemHasAWorker(max: nat, es: seq<Event>)
    requires max > 0
    ensures var s, missed := Run(max, es), Missed(max, es);
            && |s.threads| <= max && (|s.threads| < max ==> missed == 0)
            && (!s.shutdown ==> Queued(s) + Busy(s.threads) + s.idle == |s.threads| + Half(s) + missed)
            && (!s.shutdown && s.submitting.Free? ==>
                  && Queued(s) + s.idle == Waiters(s.threads) + missed
                  && (Queued(s) + s.idle == Waiters(s.threads) <==> missed == 0))
  {
    RunKeepsInv(max, es);
    MissedAtCap(max, es);
    var s := Run(max, es);
    if !s.shutdown {
      SurplusIsMissed(max, es);
      WaitersAndBusy(s.threads);
    }
  }

  lemma {:induction false} RunSteps(max: nat, es: seq<Event>, e: Event)
    ensures Run(max, es + [e]) == Apply(max, Run(max, es), e)
  {
    assert (es + [e])[..|es|] == es;
  }

  /** Two items put into a pool of one: the first starts its worker, the second waits. */
  lemma TwoSubmitted() returns (es: seq<Event>)
    ensures var s := Run(1, es);
            && s.threads == [Waiting] && s.work == [Item(0), Item(1)] && s.idle == 0
            && s.futures == [Pending, Pending]
  {
    RunSteps(1, [], Put(None));
    RunSteps(1, [] + [Put(None)], Acquire);
    RunSteps(1, [] + [Put(None)] + [Acquire], Start);
    es := [] + [Put(None)] + [Acquire] + [Start];
    assert Run(1, es) == State([Item(0)], 0, [Waiting], Free, false, [], [Pending], [], [], [None], map[]);
    RunSteps(1, es, Put(None));
    RunSteps(1, es + [Put(None)], Acquire);
    es := es + [Put(None)] + [Acquire];
  }

  /** At the cap the semaphore over-counts: two permits for the one worker of a pool of one. */
  lemma SemaphoreOverCounts() returns (es: seq<Event>)
    ensures var s := Run(1, es); s.idle == 2 && |s.threads| == 1
  {
    es := TwoSubmitted();
    es := RunOne(es);
    es := RunOne(es);
  }

  /** The only worker of a pool takes the head item and runs it to the end. */
  lemma {:induction false} RunOne(es: seq<Event>) returns (longer: seq<Event>)
    requires var s := Run(1, es);
             s.threads == [Waiting] && s.work != [] && s.work[0].Item? && s.work[0].id < |s.futures|
             && s.futures[s.work[0].id].Pending?
    ensures var s, t := Run(1, es), Run(1, longer);
            && t.threads == [Waiting] && t.work == s.work[1..] && t.idle == s.idle + 1
            && t.futures == s.futures[s.work[0].id := Finished]
  {
    var e1 := es + [Take(0)];
    RunSteps(1, es, Take(0));
    var e2 := e1 + [Begin(0)];
    RunSteps(1, e1, Begin(0));
    var e3 := e2 + [Finish(0)];
    RunSteps(1, e2, Finish(0));
    longer := e3 + [Release(0)];
    RunSteps(1, e3, Release(0));
  }

  // ------------------------------------------------------------ shutdown

  /** No item ever sits behind a marker, so a worker that takes one leaves none behind. */
  lemma NoItemBehindMarker(max: nat, es: seq<Event>, i: nat, j: nat)
    requires max > 0 && i < j < |Run(max, es).work| && Run(max, es).work[i].Marker?
    ensures Run(max, es).work[j].Marker?
  {
    RunKeepsInv(max, es);
  }

  lemma MarkerTakenMeansNoItems(max: nat, es: seq<Event>, w: nat)
    requires max > 0 && w < |Run(max, es).threads|
    requires Run(max, es).threads[w].Passing? || Run(max, es).threads[w].Exited?
    ensures var s := Run(max, es); s.shutdown && forall k :: 0 <= k < |s.work| ==> s.work[k].Marker?
  {
    RunKeepsInv(max, es);
  }

  /** No item is run twice, and one is run exactly if its future started; a cancelled one never is. */
  lemma RunAtMostOnce(max: nat, es: seq<Event>, i: nat)
    requires max > 0 && i < |Run(max, es).futures|
    ensures var s := Run(max, es);
            && (forall j, k :: 0 <= j < k < |s.runs| ==> s.runs[j] != s.runs[k])
            && (s.futures[i].Cancelled? ==> i !in s.runs)
            && (s.futures[i].Finished? ==> i in s.runs)
  {
    RunKeepsInv(max, es);
    assert FutureInv(Run(max, es), i);
  }

  /** Nothing more can happen to the pool by itself: no worker, submit or shutdown call can move. */
  ghost predicate Quiet(max: nat, s: State) {
    && s.submitting.Free?
    && (forall w: nat :: !Enabled(max, s, Take(w)) && !Enabled(max, s, Begin(w)) && !Enabled(max, s, Finish(w))
                         && !Enabled(max, s, Release(w)) && !Enabled(max, s, Pass(w)))
    && (forall c: nat :: !Enabled(max, s, Drain(c)) && !Enabled(max, s, PutMarker(c)))
  }

  lemma QuietWorker(max: nat, s: State, w: nat)
    requires Inv(max, s) && Quiet(max, s) && w < |s.threads|
    ensures s.threads[w].Exited? || (s.threads[w].Waiting? && s.work == [])
  {
    assert WorkerInv(s, w);
    assert !Enabled(max, s, Take(w)) && !Enabled(max, s, Begin(w)) && !Enabled(max, s, Finish(w));
    assert !Enabled(max, s, Release(w)) && !Enabled(max, s, Pass(w));
    assert s.threads[w].Holding? || s.threads[w].Running? ==> s.threads[w].Has(s.threads[w].id);
  }

  /**
    The marker passed on reaches every worker: once a shutdown was called and
    the pool is quiet, every thread has exited and every future is finished or
    cancelled.
  */
  lemma {:induction false} ShutdownReachesEveryone(max: nat, es: seq<Event>)
    requires max > 0 && Run(max, es).closers != [] && Quiet(max, Run(max, es))
    ensures var s := Run(max, es);
            && (forall w :: 0 <= w < |s.threads| ==> s.threads[w].Exited?)
            && (forall i :: 0 <= i < |s.futures| ==> s.futures[i].Done())
  {
    RunKeepsInv(max, es);
    var s := Run(max, es);
    forall c | 0 <= c < |s.closers| ensures s.closers[c].Closed? {
      assert !Enabled(max, s, Drain(c)) && !Enabled(max, s, PutMarker(c));
    }
    forall w | 0 <= w < |s.threads| ensures s.threads[w].Exited? || (s.threads[w].Waiting? && s.work == []) {
      QuietWorker(max, s, w);
    }
    assert s.work != [];
    if |s.threads| > 0 { assert s.threads[0].Exited?; }
    forall i | 0 <= i < |s.futures| ensures s.futures[i].Done() {
      assert FutureInv(s, i);
    }
  }

  /** Without a shutdown a quiet pool has nothing left to do either. */
  lemma {:induction false} QuietMeansDone(max: nat, es: seq<Event>)
    requires max > 0 && Run(max, es).closers == [] && !Run(max, es).shutdown && Quiet(max, Run(max, es))
    ensures var s := Run(max, es); s.work == [] && forall i :: 0 <= i < |s.futures| ==> s.futures[i].Done()
  {
    RunKeepsInv(max, es);
    var s := Run(max, es);
    forall w | 0 <= w < |s.threads| ensures s.threads[w].Waiting? && s.work == [] { QuietWorker(max, s, w); }
    if |s.threads| > 0 { assert s.threads[0].Waiting?; }
    forall i | 0 <= i < |s.futures| ensures s.futures[i].Done() {
      assert FutureInv(s, i);
    }
  }

  // ------------------------------------------------------------ it gets quiet

  function Total<T>(f: T -> nat, xs: seq<T>): nat {
    if xs == [] then 0 else Total(f, xs[..|xs| - 1]) + f(xs[|xs| - 1])
  }

  lemma {:induction false} TotalUpdate<T>(f: T -> nat, xs: seq<T>, i: nat, x: T)
    requires i < |xs|
    ensures Total(f, xs[i := x]) + f(xs[i]) == Total(f, xs) + f(x)
    decreases |xs|
  {
    var n := |xs| - 1;
    if i < n {
      TotalUpdate(f, xs[..n], i, x);
      assert xs[i := x][..n] == xs[..n][i := x];
    } else {
      assert xs[i := x][..n] == xs[..n];
    }
  }

  /** Bounds what a worker does before it next waits; a marker weighs more in its hands than in the queue. */
  function WorkerWeight(x: Worker): nat {
    match x
    case Waiting => 2
    case Releasing => 3
    case Running(_) => 4
    case Holding(_) => 5
    case Passing => 5
    case Exited => 0
  }

  function CloserWeight(c: Closer): nat {
    match c
    case Draining => 6
    case Putting => 5
    case Closed => 0
  }

  function FutureWeight(f: Future): nat {
    if f.Pending? then 1 else 0
  }

  /** Bounds what can happen before the pool needs another call to go on. */
  function Remaining(s: State): nat {
    4 * |s.work| + Total(WorkerWeight, s.threads) + Total(CloserWeight, s.closers) + Total(FutureWeight, s.futures)
    + match s.submitting
      case Free => 0
      case Starting => 3
      case AfterPut => 4
  }

  /** An event that is not a new call. */
  predicate Internal(e: Event) {
    !e.Put? && !e.SetFlag?
  }

  /** What a worker's move, with its item's future, adds to what remains. */
  lemma MoveRemaining(s: State, t: State, w: nat, i: nat)
    requires w < |s.threads| == |t.threads| && t.threads == s.threads[w := t.threads[w]]
    requires i < |s.futures| == |t.futures| && t.futures == s.futures[i := t.futures[i]]
    requires t.closers == s.closers && t.submitting == s.submitting && t.work == s.work
    ensures Remaining(t) + WorkerWeight(s.threads[w]) + FutureWeight(s.futures[i])
            == Remaining(s) + WorkerWeight(t.threads[w]) + FutureWeight(t.futures[i])
  {
    TotalUpdate(WorkerWeight, s.threads, w, t.threads[w]);
    TotalUpdate(FutureWeight, s.futures, i, t.futures[i]);
  }

  lemma ItemUsesUp(max: nat, s: State, e: Event)
    requires Enabled(max, s, e) && (e.Begin? || e.Finish?)
    ensures Remaining(Apply(max, s, e)) < Remaining(s)
  {
    MoveRemaining(s, Apply(max, s, e), e.worker, s.threads[e.worker].id);
  }

  lemma {:induction false} WorkerUsesUp(max: nat, s: State, e: Event)
    requires Enabled(max, s, e) && (e.Take? || e.Release? || e.Pass?)
    ensures Remaining(Apply(max, s, e)) < Remaining(s)
  {
    var t := Apply(max, s, e);
    TotalUpdate(WorkerWeight, s.threads, e.worker, t.threads[e.worker]);
    assert t.threads == s.threads[e.worker := t.threads[e.worker]];
  }

  lemma {:induction false} CloserUsesUp(max: nat, s: State, e: Event)
    requires Enabled(max, s, e) && (e.Drain? || e.PutMarker?)
    ensures Remaining(Apply(max, s, e)) < Remaining(s)
  {
    var t := Apply(max, s, e);
    TotalUpdate(CloserWeight, s.closers, e.closer, t.closers[e.closer]);
    assert t.closers == s.closers[e.closer := t.closers[e.closer]];
    if e.Drain? && s.work != [] && s.work[0].Item? && s.work[0].id < |s.futures| {
      var i := s.work[0].id;
      TotalUpdate(FutureWeight, s.futures, i, t.futures[i]);
      assert t.futures == s.futures[i := t.futures[i]];
    }
  }

  /** Whatever happens in the pool brings it closer to rest. */
  lemma {:induction false} EventUsesUp(max: nat, s: State, e: Event)
    requires Enabled(max, s, e) && Internal(e)
    ensures Remaining(Apply(max, s, e)) < Remaining(s)
  {
    match e
    case Acquire =>
    case Start =>
      assert (s.threads + [Waiting])[..|s.threads|] == s.threads;
    case CancelFuture(i) => TotalUpdate(FutureWeight, s.futures, i, Cancelled);
    case Drain(_) => CloserUsesUp(max, s, e);
    case PutMarker(_) => CloserUsesUp(max, s, e);
    case Begin(_) => ItemUsesUp(max, s, e);
    case Finish(_) => ItemUsesUp(max, s, e);
    case _ => WorkerUsesUp(max, s, e);
  }

  function RunOn(max: nat, s: State, more: seq<Event>): State
    decreases |more|
  {
    if more == [] then s else RunOn(max, Apply(max, s, more[0]), more[1..])
  }

  lemma {:induction false} RunGoesOn(max: nat, es: seq<Event>, more: seq<Event>)
    ensures Run(max, es + more) == RunOn(max, Run(max, es), more)
    decreases |more|
  {
    if more == [] {
      assert es + more == es;
    } else {
      RunSteps(max, es, more[0]);
      RunGoesOn(max, es + [more[0]], more[1..]);
      assert es + more == (es + [more[0]]) + more[1..];
    }
  }

  /** From *s* on all of *more* happens, and none of it is a new call. */
  ghost predicate Proceeds(max: nat, s: State, more: seq<Event>)
    decreases |more|
  {
    more != [] ==>
      Internal(more[0]) && Enabled(max, s, more[0]) && Proceeds(max, Apply(max, s, more[0]), more[1..])
  }

  /** In whatever order workers, closers and a submit half done go on, they come to rest within *Remaining* events. */
  lemma {:induction false} ComesToRest(max: nat, s: State, more: seq<Event>)
    requires Proceeds(max, s, more)
    ensures |more| + Remaining(RunOn(max, s, more)) <= Remaining(s)
    decreases |more|
  {
    if more != [] {
      EventUsesUp(max, s, more[0]);
      ComesToRest(max, Apply(max, s, more[0]), more[1..]);
    }
  }

  lemma NotQuiet(max: nat, s: State) returns (e: Event)
    requires !Quiet(max, s)
    ensures Internal(e) && Enabled(max, s, e)
  {
    if s.submitting.AfterPut? { return Acquire; }
    if s.submitting.Starting? { return Start; }
    if w: nat :| Enabled(max, s, Take(w)) { return Take(w); }
    if w: nat :| Enabled(max, s, Begin(w)) { return Begin(w); }
    if w: nat :| Enabled(max, s, Finish(w)) { return Finish(w); }
    if w: nat :| Enabled(max, s, Release(w)) { return Release(w); }
    if w: nat :| Enabled(max, s, Pass(w)) { return Pass(w); }
    if c: nat :| Enabled(max, s, Drain(c)) { return Drain(c); }
    var c: nat :| Enabled(max, s, PutMarker(c));
    return PutMarker(c);
  }

  lemma {:induction false} CanGetQuiet(max: nat, s: State) returns (more: seq<Event>)
    ensures Proceeds(max, s, more) && Quiet(max, RunOn(max, s, more))
    ensures |s.closers| <= |RunOn(max, s, more).closers|
    decreases Remaining(s)
  {
    if Quiet(max, s) {
      more := [];
    } else {
      var e := NotQuiet(max, s);
      EventUsesUp(max, s, e);
      NothingShrinks(max, s, e);
      var rest := CanGetQuiet(max, Apply(max, s, e));
      more := [e] + rest;
      assert more[1..] == rest;
    }
  }

  /**
    A shutdown completes: once it was called, the pool's own events bring it,
    within *Remaining* of them, to where every thread has exited and every
    future is finished or cancelled.
  */
  lemma ShutdownCompletes(max: nat, es: seq<Event>) returns (more: seq<Event>)
    requires max > 0 && Run(max, es).closers != []
    ensures Proceeds(max, Run(max, es), more) && |more| <= Remaining(Run(max, es))
    ensures var s := Run(max, es + more);
            && (forall w :: 0 <= w < |s.threads| ==> s.threads[w].Exited?)
            && (forall i :: 0 <= i < |s.futures| ==> s.futures[i].Done())
  {
    more := CanGetQuiet(max, Run(max, es));
    ComesToRest(max, Run(max, es), more);
    RunGoesOn(max, es, more);
    ShutdownReachesEveryone(max, es + more);
  }

  // ------------------------------------------------------------ single flight

  /** An owner never has two unfinished futures in the pool. */
  lemma OneFlightPerOwner(max: nat, es: seq<Event>, i: nat, j: nat)
    requires max > 0 && i < |Run(max, es).futures| && j < |Run(max, es).futures|
    requires var s := Run(max, es);
             |s.owner| == |s.futures| && s.owner[i].Some? && s.owner[i] == s.owner[j]
             && !s.futures[i].Done() && !s.futures[j].Done()
    ensures i == j
  {
    RunKeepsInv(max, es);
    assert FutureInv(Run(max, es), i) && FutureInv(Run(max, es), j);
  }

  // ------------------------------------------------------------ the pool's own methods

  /** What a worker does to the item in its hands: run it unless it was cancelled, and release a permit. */
  lemma ItemTurn(max: nat, s: State, w: nat, i: nat)
    requires w < |s.threads| && s.threads[w] == Holding(i) && i < |s.futures|
    ensures Apply(max, Apply(max, Apply(max, s, Begin(w)), Finish(w)), Release(w))
            == s.(threads := s.threads[w := Waiting], idle := s.idle + 1,
                  futures := if s.futures[i].Pending? then s.futures[i := Finished] else s.futures,
                  runs := if s.futures[i].Pending? then s.runs + [i] else s.runs)
  {
    var s1 := Apply(max, s, Begin(w));
    if s.futures[i].Pending? {
      assert s1.futures[i := Finished] == s.futures[i := Finished];
    }
    var s2 := Apply(max, s1, Finish(w));
    assert s2.threads == s.threads[w := Releasing];
    assert s2.threads[w := Waiting] == s.threads[w := Waiting];
  }

  /** *n* turns of a shutdown's loop over the queue. */
  function Drained(max: nat, s: State, c: nat, n: nat): State {
    if n == 0 then s else Apply(max, Drained(max, s, c, n - 1), Drain(c))
  }

  /** True when the queue is in order and closed to items once a marker was taken. */
  ghost predicate Sound(s: State) {
    Queue(s) && Sealed(s)
  }

  lemma ThreeKeepSound(max: nat, s: State, e: Event, f: Event, g: Event)
    requires Sound(s)
    ensures Sound(Apply(max, Apply(max, Apply(max, s, e), f), g))
  {
    KeepsQueue(max, s, e);
    KeepsQueue(max, Apply(max, s, e), f);
    KeepsQueue(max, Apply(max, Apply(max, s, e), f), g);
  }

  lemma DrainedStep(max: nat, s: State, c: nat, n: nat)
    ensures Drained(max, s, c, n + 1) == Apply(max, Drained(max, s, c, n), Drain(c))
  {
  }

  lemma HeadIsNext(s: State)
    requires Queue(s) && s.work != []
    ensures s.work[0].Item? ==> s.work[0].id == |s.takenBy| < |s.futures|
  {
  }

  /** Until the queue is empty each turn takes its head, and no closer moves. */
  lemma {:induction false} DrainedKeeps(max: nat, s: State, c: nat, n: nat)
    requires Sound(s) && c < |s.closers| && s.closers[c].Draining? && n <= |s.work|
    ensures var t := Drained(max, s, c, n);
            && Sound(t) && t.work == s.work[n..] && t.closers == s.closers && t.shutdown == s.shutdown
            && |t.futures| == |s.futures|
  {
    if n > 0 {
      var before := Drained(max, s, c, n - 1);
      DrainedKeeps(max, s, c, n - 1);
      DrainKeepsQueue(max, before, c);
      assert before.work[1..] == s.work[n..];
    }
  }

  lemma HeadIsCancelled(s: State, c: nat, i: nat)
    requires Queue(s) && s.work != [] && c < |s.closers| && i < |s.futures|
    ensures var t := DrainHead(s, c);
            && |t.futures| == |s.futures| && |s.takenBy| <= |t.takenBy|
            && t.futures[i] == if |s.takenBy| <= i < |t.takenBy| && s.futures[i].Pending? then Cancelled
                               else s.futures[i]
  {
    HeadIsNext(s);
  }

  /** Of the futures they cancel those taken that were still pending. */
  lemma {:induction false} DrainedCancels(max: nat, s: State, c: nat, n: nat, i: nat)
    requires Sound(s) && c < |s.closers| && s.closers[c].Draining? && n <= |s.work| && i < |s.futures|
    ensures var t := Drained(max, s, c, n);
            && |t.futures| == |s.futures| && |s.takenBy| <= |t.takenBy|
            && t.futures[i] == if |s.takenBy| <= i < |t.takenBy| && s.futures[i].Pending? then Cancelled
                               else s.futures[i]
  {
    if n > 0 {
      var before := Drained(max, s, c, n - 1);
      DrainedCancels(max, s, c, n - 1, i);
      assert Queue(before) && before.work != [] && before.closers == s.closers by { DrainedKeeps(max, s, c, n - 1); }
      HeadIsCancelled(before, c, i);
      assert Drained(max, s, c, n) == DrainHead(before, c);
    }
  }

  /** The last turn finds the queue empty. */
  lemma DrainedToTheEnd(max: nat, s: State, c: nat)
    requires Sound(s) && c < |s.closers| && s.closers[c].Draining?
    ensures var n := |s.work|;
            var t, u := Drained(max, s, c, n), Drained(max, s, c, n + 1);
            && u == t.(closers := s.closers[c := Putting]) && t.closers == s.closers && t.work == []
  {
    DrainedKeeps(max, s, c, |s.work|);
  }

  /** A shutdown call in one go. */
  function ShutDown(max: nat, s: State, cancel: bool): State {
    var c, flagged := |s.closers|, Apply(max, s, SetFlag(cancel));
    Apply(max, if cancel then Drained(max, flagged, c, |s.work| + 1) else flagged, PutMarker(c))
  }

  lemma ShutDownKeepsSound(max: nat, s: State, cancel: bool)
    requires Sound(s) && s.submitting.Free?
    ensures Sound(Apply(max, s, SetFlag(cancel))) && Sound(ShutDown(max, s, cancel))
  {
    var c, flagged := |s.closers|, Apply(max, s, SetFlag(cancel));
    KeepsQueue(max, s, SetFlag(cancel));
    if cancel {
      DrainedKeeps(max, flagged, c, |s.work|);
      DrainKeepsQueue(max, Drained(max, flagged, c, |s.work|), c);
      KeepsQueue(max, Drained(max, flagged, c, |s.work| + 1), PutMarker(c));
    } else {
      KeepsQueue(max, flagged, PutMarker(c));
    }
  }

  /** It cancels exactly the futures queued and still pending when asked to, and ends the queue with a marker. */
  lemma ShutDownCancels(max: nat, s: State, cancel: bool)
    requires Sound(s) && s.submitting.Free?
    ensures var t := ShutDown(max, s, cancel);
            && t.shutdown && t.work == (if cancel then [] else s.work) + [Marker]
            && t.closers == s.closers + [Closed] && |t.futures| == |s.futures|
            && forall i :: 0 <= i < |s.futures| ==>
                 t.futures[i] == if cancel && i >= |s.takenBy| && s.futures[i].Pending? then Cancelled
                                 else s.futures[i]
  {
    if cancel {
      var c, flagged := |s.closers|, Apply(max, s, SetFlag(cancel));
      ShutDownKeepsSound(max, s, cancel);
      DrainedToTheEnd(max, flagged, c);
      DrainedKeeps(max, flagged, c, |s.work|);
      forall i | 0 <= i < |s.futures|
        ensures ShutDown(max, s, cancel).futures[i]
                == if i >= |s.takenBy| && s.futures[i].Pending? then Cancelled else s.futures[i]
      {
        DrainedCancels(max, flagged, c, |s.work|, i);
      }
    }
  }

  /**
    The pool and its guards.  Each method is one thread's code run without
    interruption; the events above cut it at every atomic operation.
  */
  class DaemonThreadPool {
    const maxWorkers: nat
    var work: seq<Entry>
    var idle: nat
    var threads: seq<Worker>
    var shutdown: bool
    var futures: seq<Future>
    var flights: map<nat, nat>
    ghost var takenBy: seq<Option<nat>>
    ghost var runs: seq<nat>
    ghost var owner: seq<Option<nat>>
    ghost var closers: seq<Closer>

    ghost function View(): State
      reads this
    {
      State(work, idle, threads, Free, shutdown, closers, futures, takenBy, runs, owner, flights)
    }

    ghost predicate Valid()
      reads this
    {
      Sound(View())
    }

    constructor (maxWorkers: nat)
      requires maxWorkers > 0
      ensures Valid() && View() == INITIAL && this.maxWorkers == maxWorkers
    {
      this.maxWorkers := maxWorkers;
      work, idle, threads, shutdown, futures, flights := [], 0, [], false, [], map[];
      takenBy, runs, owner, closers := [], [], [], [];
    }

    /** `submit`; nothing is returned where the source raises after shutdown. */
    method Submit(o: Option<nat>) returns (future: Option<nat>)
      requires Valid() && (o.Some? ==> !FlightBusy(View(), o.value))
      modifies this
      ensures Valid()
      ensures future.None? <==> old(shutdown)
      ensures future.Some? ==> future.value == old(|futures|)
      ensures View() == Apply(maxWorkers, Apply(maxWorkers, Apply(maxWorkers, old(View()), Put(o)), Acquire), Start)
    {
      ThreeKeepSound(maxWorkers, View(), Put(o), Acquire, Start);
      if shutdown {
        return None;
      }
      future := Some(|futures|);
      work, futures, owner := work + [Item(|futures|)], futures + [Pending], owner + [o];
      if o.Some? {
        flights := flights[o.value := future.value];
      }
      if idle > 0 {
        idle := idle - 1;
      } else if |threads| < maxWorkers {
        threads := threads + [Waiting];
      }
    }

    /** `SingleFlight.run` up to its wait; *stillRunning* where the source raises. */
    method RunFlight(o: nat) returns (stillRunning: bool, future: Option<nat>)
      requires Valid()
      modifies this
      ensures Valid()
      ensures stillRunning <==> FlightBusy(old(View()), o)
      ensures stillRunning ==> View() == old(View()) && future.None?
      ensures !stillRunning ==> (future.None? <==> old(shutdown)) && (future.Some? ==> future.value == old(|futures|))
      ensures !stillRunning ==>
          View() == Apply(maxWorkers, Apply(maxWorkers, Apply(maxWorkers, old(View()), Put(Some(o))), Acquire), Start)
    {
      if o in flights && flights[o] < |futures| && !futures[flights[o]].Done() {
        return true, None;
      }
      stillRunning := false;
      future := Submit(Some(o));
    }

    /** `_run` on the item in a worker's hands, and the permit released after it. */
    method RunItem(w: nat, i: nat)
      requires Valid() && w < |threads| && threads[w] == Holding(i) && i < |futures|
      modifies this`threads, this`futures, this`runs, this`idle
      ensures Valid()
      ensures View()
              == Apply(maxWorkers, Apply(maxWorkers, Apply(maxWorkers, old(View()), Begin(w)), Finish(w)), Release(w))
    {
      ItemTurn(maxWorkers, View(), w, i);
      ThreeKeepSound(maxWorkers, View(), Begin(w), Finish(w), Release(w));
      if futures[i].Pending? {
        runs, futures := runs + [i], futures[i := Finished];
      }
      threads, idle := threads[w := Waiting], idle + 1;
    }

    /** One turn of `_worker`: take the head, run it or pass the marker on and leave. */
    method WorkerTurn(w: nat) returns (exits: bool)
      requires Valid() && w < |threads| && threads[w].Waiting? && work != []
      modifies this
      ensures Valid()
      ensures exits <==> old(work)[0].Marker?
      ensures var taken := Apply(maxWorkers, old(View()), Take(w));
              View() == if exits then Apply(maxWorkers, taken, Pass(w))
                        else
                          var ran := Apply(maxWorkers, Apply(maxWorkers, taken, Begin(w)), Finish(w));
                          Apply(maxWorkers, ran, Release(w))
    {
      ghost var taken := Apply(maxWorkers, View(), Take(w));
      KeepsQueue(maxWorkers, View(), Take(w));
      KeepsQueue(maxWorkers, taken, Pass(w));
      HeadIsNext(View());
      var item := work[0];
      work := work[1..];
      if item.Marker? {
        work, threads := work + [Marker], threads[w := Exited];
        return true;
      }
      takenBy, threads := takenBy + [Some(w)], threads[w := Holding(item.id)];
      assert View() == taken;
      RunItem(w, item.id);
      exits := false;
    }

    /**
      `shutdown`: set the flag, empty the queue when asked to cancel, and put
      the marker.  *ShutDownCancels* says what that leaves of the futures.
    */
    method Shutdown(cancelFutures: bool)
      requires Valid()
      modifies this`shutdown, this`work, this`futures, this`takenBy, this`closers
      ensures Valid()
      ensures View() == ShutDown(maxWorkers, old(View()), cancelFutures)
      ensures shutdown && work == (if cancelFutures then [] else old(work)) + [Marker]
    {
      ghost var before, c := View(), |closers|;
      SetShutdown(cancelFutures);
      if cancelFutures { CancelQueued(c); }
      PutShutdownMarker(c);
      ShutDownKeepsSound(maxWorkers, before, cancelFutures);
    }

    /** Under the lock: no submit is half done. */
    method SetShutdown(ghost cancelFutures: bool)
      modifies this`shutdown, this`closers
      ensures View() == Apply(maxWorkers, old(View()), SetFlag(cancelFutures))
      ensures shutdown && closers == old(closers) + [if cancelFutures then Draining else Putting]
    {
      shutdown := true;
      closers := closers + [if cancelFutures then Draining else Putting];
    }

    method PutShutdownMarker(ghost c: nat)
      requires c < |closers| && closers[c].Putting?
      modifies this`work, this`closers
      ensures View() == Apply(maxWorkers, old(View()), PutMarker(c))
      ensures work == old(work) + [Marker]
    {
      work := work + [Marker];
      closers := closers[c := Closed];
    }

    /** Its loop: empty the queue and cancel what is still pending. */
    method CancelQueued(ghost c: nat)
      requires c < |closers| && closers[c].Draining?
      modifies this`work, this`futures, this`takenBy, this`closers
      ensures View() == Drained(maxWorkers, old(View()), c, |old(work)| + 1)
      ensures work == [] && closers == old(closers)[c := Putting]
    {
      ghost var before, now, n := View(), View(), 0;
      var empty := false;
      while !empty
        invariant n + |work| == |before.work| + if empty then 1 else 0
        invariant View() == now && now == Drained(maxWorkers, before, c, n)
        invariant closers == if empty then before.closers[c := Putting] else before.closers
        invariant empty ==> work == []
        decreases !empty, |work|
      {
        DrainedStep(maxWorkers, before, c, n);
        empty := CancelHead(c);
        now, n := Apply(maxWorkers, now, Drain(c)), n + 1;
      }
    }

    /** One turn of it: `get_nowait`, and the end of the loop where that finds nothing. */
    method CancelHead(ghost c: nat) returns (empty: bool)
      requires c < |closers| && closers[c].Draining?
      modifies this`work, this`futures, this`takenBy, this`closers
      ensures View() == Apply(maxWorkers, old(View()), Drain(c))
      ensures empty <==> old(work) == []
      ensures work == (if empty then [] else old(work)[1..])
      ensures closers == if empty then old(closers)[c := Putting] else old(closers)
    {
      empty := work == [];
      if empty {
        closers := closers[c := Putting];
        return;
      }
      if work[0].Item? {
        futures := CancelPending(futures, work[0].id);
        takenBy := takenBy + [None];
      }
      work := work[1..];
    }
  }
}
