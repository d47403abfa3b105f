/**
  The time budget of a webhook request: a timer thread and the requesting thread
  race over the sockets to shut down, and connection attempts share the budget.
*/
module Deadline {
  import opened Options

  datatype Socket = Socket(id: nat)

  // ------------------------------------------------------------ watching against expiring

  /**
    *watched* is every socket ever handed over, *held* those not yet released;
    the timer thread still has *toExpire* to shut down, the watching threads *toCut*.
  */
  datatype State = State(
    expired: bool, watched: set<Socket>, held: seq<Socket>, toExpire: seq<Socket>, toCut: set<Socket>,
    cuts: seq<Socket>, released: set<Socket>)

  const START := State(false, {}, [], [], {}, [], {})

  /**
    What happens between two acquisitions of the lock: `watch` up to its
    release, its shutdown, the start of `_expire`, one of its shutdowns, `close`.
  */
  datatype Event = Watch(s: Socket) | Cut(s: Socket) | Expire | CutNext | Close

  predicate Enabled(st: State, e: Event) {
    match e
    case Watch(s) => s !in st.watched
    case Cut(s) => s in st.toCut
    case Expire => !st.expired
    case CutNext => st.toExpire != []
    case Close => true
  }

  /** The effect of an event; one that cannot happen changes nothing. */
  function Apply(st: State, e: Event): State {
    if !Enabled(st, e) then st else
    match e
    case Watch(s) =>
      st.(watched := st.watched + {s}, held := st.held + [s], toCut := if st.expired then st.toCut + {s} else st.toCut)
    case Cut(s) => st.(toCut := st.toCut - {s}, cuts := st.cuts + [s])
    case Expire => st.(expired := true, toExpire := st.held)
    case CutNext => st.(toExpire := st.toExpire[1..], cuts := st.cuts + [st.toExpire[0]])
    case Close => st.(held := [], released := st.released + (set s | s in st.held))
  }

  ghost predicate Distinct(ss: seq<Socket>) {
    forall i, j :: 0 <= i < j < |ss| ==> ss[i] != ss[j]
  }

  /** Where a socket is: nothing happens to it before the deadline, and one thing after it. */
  ghost predicate InOnePlace(st: State, s: Socket) {
    && !(s in st.toExpire && s in st.toCut) && !(s in st.toExpire && s in st.cuts) && !(s in st.toCut && s in st.cuts)
    && (s in st.toExpire || s in st.toCut || s in st.cuts ==> st.expired && s in st.watched)
    && (s in st.watched && st.expired ==>
          s in st.toExpire || s in st.toCut || s in st.cuts || s in st.released)
    && (s in st.watched <==> s in st.held || s in st.released)
  }

  ghost predicate Inv(st: State) {
    && Distinct(st.toExpire) && Distinct(st.cuts) && Distinct(st.held)
    && (!st.expired ==> st.toExpire == [] && st.cuts == [])
    && forall s :: InOnePlace(st, s)
  }

  lemma Shifted(ss: seq<Socket>)
    requires Distinct(ss) && ss != []
    ensures Distinct(ss[1..]) && forall s :: s in ss[1..] <==> s in ss && s != ss[0]
  {
    assert ss == [ss[0]] + ss[1..];
  }

  lemma ApplyKeepsInv(st: State, e: Event)
    requires Inv(st)
    ensures Inv(Apply(st, e))
  {
    if Enabled(st, e) {
      var next := Apply(st, e);
      match e {
        case Watch(s) => assert InOnePlace(st, s);
        case Cut(s) => assert InOnePlace(st, s);
        case Expire =>
        case CutNext => assert InOnePlace(st, st.toExpire[0]); Shifted(st.toExpire);
        case Close =>
      }
      forall s ensures InOnePlace(next, s) { assert InOnePlace(st, s); }
    }
  }

  function Run(es: seq<Event>): State {
    if es == [] then START else Apply(Run(es[..|es| - 1]), es[|es| - 1])
  }

  lemma {:induction false} RunKeepsInv(es: seq<Event>)
    ensures Inv(Run(es))
    decreases |es|
  {
    if es == [] {
      assert forall s :: InOnePlace(START, s);
    } else {
      RunKeepsInv(es[..|es| - 1]);
      ApplyKeepsInv(Run(es[..|es| - 1]), es[|es| - 1]);
    }
  }

  // ------------------------------------------------------------ which sockets are shut down

  /** The socket was handed over and not released since. */
  predicate InHand(es: seq<Event>, s: Socket) {
    es != []
    && var past := es[..|es| - 1];
       match es[|es| - 1]
       case Watch(x) => InHand(past, s) || (x == s && Watch(s) !in past)
       case Close => false
       case _ => InHand(past, s)
  }

  /** The deadline found the socket in hand, or had passed when it was handed over. */
  predicate Doomed(es: seq<Event>, s: Socket) {
    es != []
    && var past := es[..|es| - 1];
       match es[|es| - 1]
       case Watch(x) => Doomed(past, s) || (x == s && Watch(s) !in past && Expire in past)
       case Expire => Doomed(past, s) || (Expire !in past && InHand(past, s))
       case _ => Doomed(past, s)
  }

  /** What the events say of a socket is what the two threads hold of it. */
  lemma {:induction false} EventsTell(es: seq<Event>, s: Socket)
    ensures var st := Run(es);
            && (s in st.watched <==> Watch(s) in es) && (st.expired <==> Expire in es)
            && (s in st.held <==> InHand(es, s))
            && (s in st.toExpire || s in st.toCut || s in st.cuts <==> Doomed(es, s))
    decreases |es|
  {
    if es != [] {
      var past, e := es[..|es| - 1], es[|es| - 1];
      EventsTell(past, s);
      RunKeepsInv(past);
      assert es == past + [e];
      var st := Run(past);
      assert InOnePlace(st, s);
      if e.CutNext? && st.toExpire != [] { assert st.toExpire == [st.toExpire[0]] + st.toExpire[1..]; }
    }
  }

  /**
    However the two threads interleave: before the deadline no socket is shut
    down and none ever twice, and once both are done exactly those were that the
    deadline found in hand or that were handed over after it.
  */
  lemma EveryWatchedSocketIsCut(es: seq<Event>)
    ensures var st := Run(es);
            && Distinct(st.cuts)
            && (st.cuts != [] ==> Expire in es)
            && (st.toExpire == [] && st.toCut == {} ==> forall s :: s in st.cuts <==> Doomed(es, s))
  {
    RunKeepsInv(es);
    var st := Run(es);
    forall s ensures st.toExpire == [] && st.toCut == {} ==> (s in st.cuts <==> Doomed(es, s)) { EventsTell(es, s); }
    if st.cuts != [] {
      assert InOnePlace(st, st.cuts[0]);
      EventsTell(es, st.cuts[0]);
    }
  }

  /** The fields, and what each method does with them while it holds the lock. */
  class RequestDeadline {
    var expired: bool
    var socks: seq<Socket>

    /** The fields are those of *st*. */
    ghost predicate In(st: State)
      reads this
    {
      Inv(st) && expired == st.expired && socks == st.held
    }

    constructor ()
      ensures In(START)
    {
      expired, socks := false, [];
      assert forall s :: InOnePlace(START, s);
    }

    /** `watch`: *cut* tells the caller to shut the socket down itself. */
    method Watch(s: Socket, ghost st: State) returns (cut: bool)
      requires In(st) && Enabled(st, Event.Watch(s))
      modifies this
      ensures In(Apply(st, Event.Watch(s))) && (cut <==> s in Apply(st, Event.Watch(s)).toCut)
    {
      ApplyKeepsInv(st, Event.Watch(s));
      assert InOnePlace(st, s);
      socks := socks + [s];
      cut := expired;
    }

    /** `_expire`: *cuts* are the sockets to shut down, once the lock is released. */
    method Expire(ghost st: State) returns (cuts: seq<Socket>)
      requires In(st) && Enabled(st, Event.Expire)
      modifies this
      ensures In(Apply(st, Event.Expire)) && cuts == Apply(st, Event.Expire).toExpire
    {
      ApplyKeepsInv(st, Event.Expire);
      expired := true;
      cuts := socks;
    }

    /** `close`: *done* are the sockets to release. */
    method Close(ghost st: State) returns (done: seq<Socket>)
      requires In(st)
      modifies this
      ensures In(Apply(st, Event.Close)) && Apply(st, Event.Close).released == st.released + (set s | s in done)
    {
      ApplyKeepsInv(st, Event.Close);
      done, socks := socks, [];
    }
  }

  // ------------------------------------------------------------ connecting within the budget

  /** An address: how long connecting to it takes when left alone, and whether it works then. */
  datatype Address = Address(takes: real, works: bool) {
    predicate Valid() { takes >= 0.0 }
  }

  /** How the attempts end: with a connection, with `TimeoutError`, or with the last error. */
  datatype Outcome = Connected(address: nat) | OutOfTime | Refused

  /** `None` is an unbounded timeout or deadline. */
  predicate Spent(endsAt: Option<real>, now: real) { endsAt.Some? && endsAt.value - now <= 0.0 }

  /** The seconds an attempt gets: the timeout, but no more than what is left. */
  function Share(timeout: Option<real>, endsAt: Option<real>, now: real): (share: Option<real>)
    ensures share.None? <==> timeout.None? && endsAt.None?
    ensures share.Some? ==>
        && (timeout.Some? ==> share.value <= timeout.value)
        && (endsAt.Some? ==> share.value <= endsAt.value - now)
        && (share == timeout || (endsAt.Some? && share.value == endsAt.value - now))
  {
    if endsAt.None? then timeout
    else
      var left := endsAt.value - now;
      if timeout.Some? && timeout.value < left then timeout else Some(left)
  }

  predicate Succeeds(a: Address, share: Option<real>) { a.works && (share.None? || a.takes <= share.value) }

  function Lasts(a: Address, share: Option<real>): real {
    if share.Some? && share.value < a.takes then share.value else a.takes
  }

  /** When the attempt at address *k* starts, all before it having failed. */
  function StartOf(addresses: seq<Address>, timeout: Option<real>, endsAt: Option<real>, now: real, k: nat): real
    requires k <= |addresses|
  {
    if k == 0 then now
    else
      var t := StartOf(addresses, timeout, endsAt, now, k - 1);
      t + Lasts(addresses[k - 1], Share(timeout, endsAt, t))
  }

  /** All addresses before *k* are tried, each in time, and fail. */
  predicate FailedBefore(addresses: seq<Address>, timeout: Option<real>, endsAt: Option<real>, now: real, k: nat)
    requires k <= |addresses|
  {
    k == 0
    || (var t := StartOf(addresses, timeout, endsAt, now, k - 1);
        && FailedBefore(addresses, timeout, endsAt, now, k - 1)
        && !Spent(endsAt, t) && !Succeeds(addresses[k - 1], Share(timeout, endsAt, t)))
  }

  /**
    The attempts share the budget: whatever the addresses do, they are over by
    the deadline; the first address that answers within its share is taken, and
    `TimeoutError` means that the budget, not the addresses, ran out.
  */
  method ConnectWithin(addresses: seq<Address>, timeout: Option<real>, endsAt: Option<real>, now: real)
    returns (outcome: Outcome, finished: real)
    requires (forall a :: a in addresses ==> a.Valid()) && (timeout.Some? ==> timeout.value > 0.0)
    ensures endsAt.Some? && now <= endsAt.value ==> finished <= endsAt.value
    ensures outcome.Connected? ==>
        && outcome.address < |addresses| && FailedBefore(addresses, timeout, endsAt, now, outcome.address)
        && var t := StartOf(addresses, timeout, endsAt, now, outcome.address);
           !Spent(endsAt, t) && Succeeds(addresses[outcome.address], Share(timeout, endsAt, t))
    ensures outcome.OutOfTime? <==> !outcome.Connected? && Spent(endsAt, finished)
    ensures outcome.Refused? ==>
        FailedBefore(addresses, timeout, endsAt, now, |addresses|)
        && finished == StartOf(addresses, timeout, endsAt, now, |addresses|)
  {
    finished := now;
    var i := 0;
    while i < |addresses| && !Spent(endsAt, finished)
      invariant 0 <= i <= |addresses| && FailedBefore(addresses, timeout, endsAt, now, i)
      invariant finished == StartOf(addresses, timeout, endsAt, now, i)
      invariant endsAt.Some? && now <= endsAt.value ==> finished <= endsAt.value
    {
      var a, share := addresses[i], Share(timeout, endsAt, finished);
      finished := finished + Lasts(a, share);
      if Succeeds(a, share) { return Connected(i), finished; }
      i := i + 1;
    }
    outcome := if Spent(endsAt, finished) then OutOfTime else Refused;
  }
}
