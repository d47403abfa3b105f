/**
  When "one replica sends each change" is true.  Replicas share the changes of a
  probe and each works through them in order; within one window each change is
  sent once exactly as long as no replica lags behind another.
*/
module AlertDedupe {
  import opened Options
  import opened AlertPipeline
  import opened AlertClaims

  // ------------------------------------------------------------ claims within one window

  /** The attempt for *key* before the *n*th. */
  function Previous(xs: seq<Attempt>, key: Name, n: nat): (r: Option<nat>)
    requires n <= |xs|
    ensures r.Some? ==> r.value < n && xs[r.value].key == key
    ensures forall j :: (if r.Some? then r.value + 1 else 0) <= j < n ==> xs[j].key != key
  {
    if n == 0 then None else if xs[n - 1].key == key then Some(n - 1) else Previous(xs, key, n - 1)
  }

  /** All attempts for *key* are made within one window. */
  ghost predicate OneWindow(xs: seq<Attempt>, key: Name, ttl: real) {
    forall i, j :: 0 <= i <= j < |xs| && xs[i].key == key && xs[j].key == key ==> xs[j].at - xs[i].at < ttl
  }

  /** Within one window a claim is accepted exactly where the status attempted for its probe changes. */
  lemma {:induction false} AcceptedIffChanged(ms: seq<Claims>, xs: seq<Attempt>, ttl: real, n: nat)
    requires Trace(ms, xs, ttl) && n < |xs| && OneWindow(xs, xs[n].key, ttl)
    ensures xs[n].accepted <==>
              match Previous(xs, xs[n].key, n)
              case None => true
              case Some(p) => xs[p].value != xs[n].value
    decreases n
  {
    var key := xs[n].key;
    AcceptedIffNews(ms, xs, ttl, n);
    if Previous(xs, key, n).Some? {
      var p := Previous(xs, key, n).value;
      HeldSince(ms, xs, ttl, p);
      assert LastAccepted(xs, key, n) == LastAccepted(xs, key, p + 1);
    }
  }

  /** Right after an attempt the last accepted one has its status, whether it was accepted or refused. */
  lemma {:induction false} HeldSince(ms: seq<Claims>, xs: seq<Attempt>, ttl: real, p: nat)
    requires Trace(ms, xs, ttl) && p < |xs| && OneWindow(xs, xs[p].key, ttl)
    ensures var last := LastAccepted(xs, xs[p].key, p + 1);
            last.Some? && xs[last.value].value == xs[p].value
  {
    AcceptedIffNews(ms, xs, ttl, p);
  }

  // ------------------------------------------------------------ shared changes

  /** Which change of its probe each attempt announces. */
  ghost predicate Announces(xs: seq<Attempt>, which: seq<nat>, changes: seq<Status>, key: Name) {
    && |which| == |xs|
    && (forall i :: 0 <= i < |xs| && xs[i].key == key ==>
          which[i] < |changes| && xs[i].value == changes[which[i]])
    && (forall i, j :: 0 <= i && j == i + 1 && j < |changes| ==> changes[i] != changes[j])
  }

  /** Attempt *i* announces a change and attempt *j*, by the same replica, the next one. */
  ghost predicate GoesOn(xs: seq<Attempt>, which: seq<nat>, key: Name, i: nat, j: nat)
    requires |which| == |xs|
  {
    && i < j < |xs| && xs[i].key == key && xs[j].key == key
    && xs[i].replica == xs[j].replica && which[j] == which[i] + 1
  }

  /** A replica that announces a change has announced the one before it. */
  ghost predicate FromTheFirst(xs: seq<Attempt>, which: seq<nat>, key: Name)
    requires |which| == |xs|
  {
    forall j: nat :: j < |xs| && xs[j].key == key && which[j] > 0 ==> exists i: nat :: GoesOn(xs, which, key, i, j)
  }

  /** And goes on to announce the one after it. */
  ghost predicate ToTheLast(xs: seq<Attempt>, which: seq<nat>, changes: seq<Status>, key: Name)
    requires |which| == |xs|
  {
    forall i: nat :: i < |xs| && xs[i].key == key && which[i] + 1 < |changes| ==>
      exists j: nat :: GoesOn(xs, which, key, i, j)
  }

  /** No attempt of a change follows an attempt of a later one. */
  ghost predicate InStep(xs: seq<Attempt>, which: seq<nat>, key: Name)
    requires |which| == |xs|
  {
    forall i, j :: 0 <= i < j < |xs| && xs[i].key == key && xs[j].key == key ==> which[i] <= which[j]
  }

  /** How often change *c* of *key* was accepted among the first *n* attempts. */
  function Sent(xs: seq<Attempt>, which: seq<nat>, key: Name, c: nat, n: nat): nat
    requires n <= |xs| == |which|
  {
    if n == 0 then 0
    else Sent(xs, which, key, c, n - 1)
         + (if xs[n - 1].key == key && xs[n - 1].accepted && which[n - 1] == c then 1 else 0)
  }

  /** How many attempts for *key* were accepted among the first *n*. */
  function Accepted(xs: seq<Attempt>, key: Name, n: nat): nat
    requires n <= |xs|
  {
    if n == 0 then 0 else Accepted(xs, key, n - 1) + (if xs[n - 1].key == key && xs[n - 1].accepted then 1 else 0)
  }

  /** All changes below *m* together. */
  function SentBelow(xs: seq<Attempt>, which: seq<nat>, key: Name, m: nat, n: nat): nat
    requires n <= |xs| == |which|
  {
    if m == 0 then 0 else SentBelow(xs, which, key, m - 1, n) + Sent(xs, which, key, m - 1, n)
  }

  // ------------------------------------------------------------ in step, each change is sent once

  /** While the replicas are in step, exactly the changes up to the latest one attempted were sent, once each. */
  lemma {:induction false} SentUpToLatest(ms: seq<Claims>, xs: seq<Attempt>, ttl: real, which: seq<nat>,
                                          changes: seq<Status>, key: Name, c: nat, n: nat)
    requires Trace(ms, xs, ttl) && OneWindow(xs, key, ttl) && n <= |xs|
    requires Announces(xs, which, changes, key) && FromTheFirst(xs, which, key) && InStep(xs, which, key)
    ensures var p := Previous(xs, key, n);
            Sent(xs, which, key, c, n) == if p.Some? && c <= which[p.value] then 1 else 0
    decreases n
  {
    if n > 0 {
      SentUpToLatest(ms, xs, ttl, which, changes, key, c, n - 1);
      if xs[n - 1].key == key {
        AcceptedIffChanged(ms, xs, ttl, n - 1);
        NextChange(xs, which, key, n - 1);
      }
    }
  }

  /** In step, the next attempt is of the latest change or the one after it, and the first of the first. */
  lemma NextChange(xs: seq<Attempt>, which: seq<nat>, key: Name, n: nat)
    requires |which| == |xs| && FromTheFirst(xs, which, key) && InStep(xs, which, key)
    requires n < |xs| && xs[n].key == key
    ensures match Previous(xs, key, n)
            case None => which[n] == 0
            case Some(p) => which[p] <= which[n] <= which[p] + 1
  {
    if which[n] > 0 {
      var j: nat :| GoesOn(xs, which, key, j, n);
      assert j <= Previous(xs, key, n).value;
    }
  }

  /** Some replica gets to the last change. */
  lemma {:induction false} LastIsTried(xs: seq<Attempt>, which: seq<nat>, changes: seq<Status>, key: Name, i: nat)
    requires |which| == |xs| && ToTheLast(xs, which, changes, key)
    requires i < |xs| && xs[i].key == key && which[i] < |changes|
    ensures exists j: nat :: i <= j < |xs| && xs[j].key == key && which[j] == |changes| - 1
    decreases |changes| - which[i]
  {
    if which[i] + 1 < |changes| {
      var j: nat :| GoesOn(xs, which, key, i, j);
      LastIsTried(xs, which, changes, key, j);
    }
  }

  // ------------------------------------------------------------ sent once each, the replicas were in step

  /** Between two attempts of different statuses something was accepted. */
  lemma {:induction false} DifferenceIsSent(ms: seq<Claims>, xs: seq<Attempt>, ttl: real, key: Name, i: nat, j: nat)
    requires Trace(ms, xs, ttl) && OneWindow(xs, key, ttl) && i <= j < |xs| && xs[i].key == key && xs[j].key == key
    ensures Accepted(xs, key, i + 1) <= Accepted(xs, key, j + 1)
    ensures xs[i].value != xs[j].value ==> Accepted(xs, key, i + 1) < Accepted(xs, key, j + 1)
    decreases j
  {
    if i < j {
      AcceptedIffChanged(ms, xs, ttl, j);
      var p := Previous(xs, key, j).value;
      DifferenceIsSent(ms, xs, ttl, key, i, p);
      AcceptedBetween(xs, key, p + 1, j);
    }
  }

  lemma {:induction false} AcceptedBetween(xs: seq<Attempt>, key: Name, m: nat, n: nat)
    requires m <= n <= |xs| && forall k :: m <= k < n ==> xs[k].key != key
    ensures Accepted(xs, key, m) == Accepted(xs, key, n)
    decreases n
  {
    if m < n { AcceptedBetween(xs, key, m, n - 1); }
  }

  lemma {:induction false} AcceptedGrows(xs: seq<Attempt>, key: Name, m: nat, n: nat)
    requires m <= n <= |xs|
    ensures Accepted(xs, key, m) <= Accepted(xs, key, n)
    decreases n
  {
    if m < n { AcceptedGrows(xs, key, m, n - 1); }
  }

  /** An attempt of change *c* comes after at least c + 1 acceptances, itself included. */
  lemma {:induction false} SentBefore(ms: seq<Claims>, xs: seq<Attempt>, ttl: real, which: seq<nat>,
                                      changes: seq<Status>, key: Name, i: nat)
    requires Trace(ms, xs, ttl) && OneWindow(xs, key, ttl) && Announces(xs, which, changes, key)
    requires FromTheFirst(xs, which, key) && i < |xs| && xs[i].key == key
    ensures Accepted(xs, key, i + 1) >= which[i] + 1
    decreases which[i]
  {
    if which[i] > 0 {
      var j: nat :| GoesOn(xs, which, key, j, i);
      SentBefore(ms, xs, ttl, which, changes, key, j);
      DifferenceIsSent(ms, xs, ttl, key, j, i);
    } else {
      SomethingSent(ms, xs, ttl, key, i);
    }
  }

  lemma {:induction false} SomethingSent(ms: seq<Claims>, xs: seq<Attempt>, ttl: real, key: Name, i: nat)
    requires Trace(ms, xs, ttl) && OneWindow(xs, key, ttl) && i < |xs| && xs[i].key == key
    ensures Accepted(xs, key, i + 1) >= 1
    decreases i
  {
    AcceptedIffChanged(ms, xs, ttl, i);
    if Previous(xs, key, i).Some? {
      var p := Previous(xs, key, i).value;
      SomethingSent(ms, xs, ttl, key, p);
      AcceptedGrows(xs, key, p + 1, i + 1);
    }
  }

  /** And before as many as there are later changes. */
  lemma {:induction false} SentAfter(ms: seq<Claims>, xs: seq<Attempt>, ttl: real, which: seq<nat>,
                                     changes: seq<Status>, key: Name, i: nat)
    requires Trace(ms, xs, ttl) && OneWindow(xs, key, ttl) && Announces(xs, which, changes, key)
    requires ToTheLast(xs, which, changes, key) && i < |xs| && xs[i].key == key
    ensures Accepted(xs, key, i + 1) + |changes| - 1 - which[i] <= Accepted(xs, key, |xs|)
    decreases |changes| - which[i]
  {
    if which[i] + 1 < |changes| {
      var j: nat :| GoesOn(xs, which, key, i, j);
      SentAfter(ms, xs, ttl, which, changes, key, j);
      DifferenceIsSent(ms, xs, ttl, key, i, j);
    } else {
      AcceptedGrows(xs, key, i + 1, |xs|);
    }
  }

  /** Each acceptance is of one change. */
  lemma {:induction false} AcceptedIsSentBelow(xs: seq<Attempt>, which: seq<nat>, key: Name, m: nat, n: nat)
    requires n <= |xs| == |which| && forall i :: 0 <= i < |xs| && xs[i].key == key ==> which[i] < m
    ensures Accepted(xs, key, n) == SentBelow(xs, which, key, m, n)
    decreases n
  {
    if n == 0 {
      NothingSentYet(xs, which, key, m);
    } else {
      AcceptedIsSentBelow(xs, which, key, m, n - 1);
      SentBelowStep(xs, which, key, m, n);
    }
  }

  lemma {:induction false} NothingSentYet(xs: seq<Attempt>, which: seq<nat>, key: Name, m: nat)
    requires |xs| == |which|
    ensures SentBelow(xs, which, key, m, 0) == 0
    decreases m
  {
    if m > 0 { NothingSentYet(xs, which, key, m - 1); }
  }

  lemma {:induction false} SentBelowStep(xs: seq<Attempt>, which: seq<nat>, key: Name, m: nat, n: nat)
    requires 0 < n <= |xs| == |which|
    ensures SentBelow(xs, which, key, m, n)
            == SentBelow(xs, which, key, m, n - 1)
               + (if xs[n - 1].key == key && xs[n - 1].accepted && which[n - 1] < m then 1 else 0)
    decreases m
  {
    if m > 0 { SentBelowStep(xs, which, key, m - 1, n); }
  }

  lemma {:induction false} OnceEach(xs: seq<Attempt>, which: seq<nat>, key: Name, m: nat, n: nat)
    requires n <= |xs| == |which| && forall c :: 0 <= c < m ==> Sent(xs, which, key, c, n) == 1
    ensures SentBelow(xs, which, key, m, n) == m
    decreases m
  {
    if m > 0 { OnceEach(xs, which, key, m - 1, n); }
  }

  /** Every change is sent by exactly one replica. */
  ghost predicate EachSentOnce(xs: seq<Attempt>, which: seq<nat>, changes: seq<Status>, key: Name)
    requires |which| == |xs|
  {
    forall c: nat :: c < |changes| ==> Sent(xs, which, key, c, |xs|) == 1
  }

  lemma OnceMeansInStep(ms: seq<Claims>, xs: seq<Attempt>, ttl: real, which: seq<nat>,
                        changes: seq<Status>, key: Name)
    requires Trace(ms, xs, ttl) && OneWindow(xs, key, ttl) && Announces(xs, which, changes, key)
    requires FromTheFirst(xs, which, key) && ToTheLast(xs, which, changes, key)
    requires EachSentOnce(xs, which, changes, key)
    ensures InStep(xs, which, key)
  {
    AcceptedIsSentBelow(xs, which, key, |changes|, |xs|);
    OnceEach(xs, which, key, |changes|, |xs|);
    forall i, j | 0 <= i < j < |xs| && xs[i].key == key && xs[j].key == key ensures which[i] <= which[j] {
      SentBefore(ms, xs, ttl, which, changes, key, i);
      SentAfter(ms, xs, ttl, which, changes, key, j);
      DifferenceIsSent(ms, xs, ttl, key, i, j);
    }
  }

  lemma InStepMeansOnce(ms: seq<Claims>, xs: seq<Attempt>, ttl: real, which: seq<nat>,
                        changes: seq<Status>, key: Name, some: nat)
    requires Trace(ms, xs, ttl) && OneWindow(xs, key, ttl) && Announces(xs, which, changes, key)
    requires FromTheFirst(xs, which, key) && ToTheLast(xs, which, changes, key)
    requires some < |xs| && xs[some].key == key && InStep(xs, which, key)
    ensures EachSentOnce(xs, which, changes, key)
  {
    LastIsTried(xs, which, changes, key, some);
    LatestIsLast(xs, which, changes, key);
    forall c: nat | c < |changes| ensures Sent(xs, which, key, c, |xs|) == 1 {
      SentUpToLatest(ms, xs, ttl, which, changes, key, c, |xs|);
    }
  }

  lemma LatestIsLast(xs: seq<Attempt>, which: seq<nat>, changes: seq<Status>, key: Name)
    requires Announces(xs, which, changes, key) && InStep(xs, which, key)
    requires exists j: nat :: j < |xs| && xs[j].key == key && which[j] == |changes| - 1
    ensures var p := Previous(xs, key, |xs|); p.Some? && which[p.value] == |changes| - 1
  {
    var j: nat :| j < |xs| && xs[j].key == key && which[j] == |changes| - 1;
    assert j <= Previous(xs, key, |xs|).value;
  }

  /**
    Replicas that each work through the same changes of a probe, from the first
    to the last and within a window, send each change once, if and only if no
    attempt of a change follows an attempt of a later one.
  */
  lemma EachChangeSentOnceIffInStep(ms: seq<Claims>, xs: seq<Attempt>, ttl: real, which: seq<nat>,
                                    changes: seq<Status>, key: Name, some: nat)
    requires Trace(ms, xs, ttl) && OneWindow(xs, key, ttl) && Announces(xs, which, changes, key)
    requires FromTheFirst(xs, which, key) && ToTheLast(xs, which, changes, key)
    requires some < |xs| && xs[some].key == key
    ensures EachSentOnce(xs, which, changes, key) <==> InStep(xs, which, key)
  {
    if InStep(xs, which, key) { InStepMeansOnce(ms, xs, ttl, which, changes, key, some); }
    if EachSentOnce(xs, which, changes, key) { OnceMeansInStep(ms, xs, ttl, which, changes, key); }
  }

  /** A replica whose queue lags announces both of another's changes again. */
  lemma LaggingReplicaRepeats(key: Name)
    ensures exists ms, xs: seq<Attempt> ::
              && Trace(ms, xs, 60.0) && |xs| == 4
              && (forall i :: 0 <= i < 4 ==> xs[i].key == key && xs[i].accepted)
              && xs[0].replica == xs[1].replica != xs[2].replica == xs[3].replica
              && xs[0].value == xs[2].value && xs[1].value == xs[3].value
  {
    var xs := [
      Attempt(0, key, Unhealthy, 0.0, true), Attempt(0, key, Healthy, 1.0, true),
      Attempt(1, key, Unhealthy, 2.0, true), Attempt(1, key, Healthy, 3.0, true)];
    var ms: seq<Claims> := [
      map[], map[key := Held(Unhealthy, 60.0)], map[key := Held(Healthy, 61.0)],
      map[key := Held(Unhealthy, 62.0)], map[key := Held(Healthy, 63.0)]];
    assert forall i :: 0 <= i < 4 ==> Step(ms, xs, 60.0, i);
    assert Trace(ms, xs, 60.0);
  }
}
