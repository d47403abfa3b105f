/**
  Cross-replica dedupe.  Before dispatching an alert a replica claims its
  probe's new status in shared storage; the claim is refused only while the
  status already held there is the same one.  Claims are atomic, so a run is one
  sequence of attempts whichever replicas make them.
*/
module AlertClaims {
  import opened Options
  import opened AlertPipeline
  import opened Windows

  datatype Held = Held(value: Status, expires: real)

  type Claims = map<Name, Held>

  /** One replica's claim of *value* for *key*, and whether it was accepted. */
  datatype Attempt = Attempt(replica: nat, key: Name, value: Status, at: real, accepted: bool)

  /** The status held for *key*, unless its claim has expired. */
  function Live(m: Claims, key: Name, now: real): Option<Status> {
    if key in m && now < m[key].expires then Some(m[key].value) else None
  }

  /** What one atomic claim may do to the shared store, whatever the backend. */
  ghost predicate Claimed(m: Claims, m': Claims, key: Name, value: Status, ttl: real, now: real, accepted: bool) {
    && (accepted <==> ttl <= 0.0 || Live(m, key, now) != Some(value))
    && (forall k, t: real :: t >= now && (k != key || !accepted || ttl <= 0.0) ==> Live(m', k, t) == Live(m, k, t))
    && (accepted && ttl > 0.0 ==> forall t: real :: t >= now ==>
          Live(m', key, t) == if t < now + ttl then Some(value) else None)
  }

  // ------------------------------------------------------------ the two backends

  class InMemoryClaims {
    var claims: Claims

    constructor ()
      ensures claims == map[]
    {
      claims := map[];
    }

    /** Expired claims are purged first, one by one. */
    method ClaimAlert(key: Name, value: Status, ttl: real, now: real) returns (accepted: bool)
      modifies this
      ensures Claimed(old(claims), claims, key, value, ttl, now, accepted)
    {
      var stale := set k | k in claims && claims[k].expires <= now;
      while stale != {}
        invariant forall k :: k in stale ==> k in claims && claims[k].expires <= now
        invariant forall k, t: real :: t >= now ==> Live(claims, k, t) == Live(old(claims), k, t)
        invariant forall k :: k in claims && claims[k].expires <= now ==> k in stale
        decreases |stale|
      {
        var k :| k in stale;
        claims, stale := claims - {k}, stale - {k};
      }
      if ttl <= 0.0 {
        return true;
      }
      if key in claims && claims[key].value == value {
        assert Live(old(claims), key, now) == Live(claims, key, now);
        return false;
      }
      assert Live(old(claims), key, now) == Live(claims, key, now);
      claims := claims[key := Held(value, now + ttl)];
      return true;
    }
  }

  /** Redis stores whole milliseconds, so its window is the requested one rounded up. */
  function RoundedUp(ttl: real): (r: real)
    ensures ttl <= r < ttl + 0.001
    ensures r <= 0.0 <==> ttl <= 0.0
  {
    Ceil(ttl * 1000.0) as real / 1000.0
  }

  /** A Redis key is gone once its expiry has passed; nothing purges it. */
  class RedisClaims {
    var store: Claims

    constructor ()
      ensures store == map[]
    {
      store := map[];
    }

    /** The script: GET, compare, SET PX. */
    method ClaimAlert(key: Name, value: Status, ttl: real, now: real) returns (accepted: bool)
      modifies this
      ensures Claimed(old(store), store, key, value, RoundedUp(ttl), now, accepted)
    {
      var ttlMs := Ceil(ttl * 1000.0);
      if ttlMs <= 0 {
        return true;
      }
      var got := Live(store, key, now);
      if got == Some(value) {
        return false;
      }
      store := store[key := Held(value, now + ttlMs as real / 1000.0)];
      return true;
    }
  }

  // ------------------------------------------------------------ runs

  /** Stores *ms* joined by the attempts *xs*, made by any replicas in the order time gives them. */
  ghost predicate Trace(ms: seq<Claims>, xs: seq<Attempt>, ttl: real) {
    && ttl > 0.0 && |ms| == |xs| + 1 && ms[0] == map[]
    && (forall i, j :: 0 <= i < j < |xs| ==> xs[i].at <= xs[j].at)
    && forall i :: 0 <= i < |xs| ==> Step(ms, xs, ttl, i)
  }

  ghost predicate Step(ms: seq<Claims>, xs: seq<Attempt>, ttl: real, i: nat)
    requires i < |xs| && |ms| == |xs| + 1
  {
    Claimed(ms[i], ms[i + 1], xs[i].key, xs[i].value, ttl, xs[i].at, xs[i].accepted)
  }

  /** The last attempt before the *n*th that was accepted for *key*. */
  function LastAccepted(xs: seq<Attempt>, key: Name, n: nat): (r: Option<nat>)
    requires n <= |xs|
    ensures r.Some? ==> r.value < n && xs[r.value].key == key && xs[r.value].accepted
    ensures forall j :: (if r.Some? then r.value + 1 else 0) <= j < n ==> !(xs[j].key == key && xs[j].accepted)
  {
    if n == 0 then None
    else if xs[n - 1].key == key && xs[n - 1].accepted then Some(n - 1)
    else LastAccepted(xs, key, n - 1)
  }

  /** What the store must hold for *key* at *t* after *n* attempts: the last accepted status, for one window. */
  function Expected(xs: seq<Attempt>, key: Name, n: nat, ttl: real, t: real): Option<Status>
    requires n <= |xs|
  {
    match LastAccepted(xs, key, n)
    case None => None
    case Some(i) => if t < xs[i].at + ttl then Some(xs[i].value) else None
  }

  lemma {:induction false} StoreHoldsLastAccepted(
      ms: seq<Claims>, xs: seq<Attempt>, ttl: real, n: nat, key: Name, t: real)
    requires Trace(ms, xs, ttl) && n <= |xs| && (n > 0 ==> t >= xs[n - 1].at)
    ensures Live(ms[n], key, t) == Expected(xs, key, n, ttl, t)
    decreases n
  {
    if n > 0 {
      assert Step(ms, xs, ttl, n - 1);
      StoreHoldsLastAccepted(ms, xs, ttl, n - 1, key, t);
    }
  }

  /** An attempt is accepted exactly when the last accepted one differs from it or is a window old. */
  lemma AcceptedIffNews(ms: seq<Claims>, xs: seq<Attempt>, ttl: real, n: nat)
    requires Trace(ms, xs, ttl) && n < |xs|
    ensures xs[n].accepted <==>
              match LastAccepted(xs, xs[n].key, n)
              case None => true
              case Some(i) => xs[i].value != xs[n].value || xs[n].at - xs[i].at >= ttl
  {
    assert Step(ms, xs, ttl, n);
    StoreHoldsLastAccepted(ms, xs, ttl, n, xs[n].key, xs[n].at);
  }

  /** Two consecutive accepted announcements of a probe differ or are at least a window apart. */
  lemma AnnouncementsDiffer(ms: seq<Claims>, xs: seq<Attempt>, ttl: real, i: nat, j: nat)
    requires Trace(ms, xs, ttl) && i < j < |xs|
    requires xs[i].key == xs[j].key && xs[i].accepted && xs[j].accepted
    requires forall k :: i < k < j ==> !(xs[k].key == xs[j].key && xs[k].accepted)
    ensures xs[i].value != xs[j].value || xs[j].at - xs[i].at >= ttl
  {
    AcceptedIffNews(ms, xs, ttl, j);
    assert LastAccepted(xs, xs[j].key, j) == Some(i);
  }

  /** A refused alert was announced within the window, and no other status of its probe since. */
  lemma RefusedWasAnnounced(ms: seq<Claims>, xs: seq<Attempt>, ttl: real, n: nat) returns (i: nat)
    requires Trace(ms, xs, ttl) && n < |xs| && !xs[n].accepted
    ensures i < n && xs[i].key == xs[n].key && xs[i].accepted
    ensures xs[i].value == xs[n].value && xs[n].at - xs[i].at < ttl
    ensures forall k :: i < k < n && xs[k].key == xs[n].key ==> !xs[k].accepted
  {
    AcceptedIffNews(ms, xs, ttl, n);
    i := LastAccepted(xs, xs[n].key, n).value;
  }
}
