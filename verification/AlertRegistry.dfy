/** The registry's own methods of the alert pipeline, updating its fields in place. */
module AlertRegistry {
  import opened Options
  import opened AlertPipeline
  import AlertTheorems

  class Registry {
    const config: Config
    /** `time.monotonic()`; maintenance is read against the same clock. */
    var clock: real
    var maintenanceActive: bool
    var maintenanceUntil: Option<real>
    var states: map<Name, Status>
    var alerted: map<Name, Status>
    var lastSent: map<Name, real>
    var pending: map<Name, real>
    var queue: seq<Option<Alert>>
    var queueLoop: Option<nat>
    var runningLoop: nat
    var worker: Worker
    var shuttingDown: bool
    /** What the book and the line hold beside these fields: checks in flight and histories. */
    ghost var notes: Book
    ghost var trail: Line

    ghost function BookView(): Book
      reads this
    {
      notes.(states := states, alerted := alerted, lastSent := lastSent, pending := pending)
    }

    ghost function View(): State
      reads this
    {
      State(clock, if maintenanceActive then Some(maintenanceUntil) else None, BookView(),
            trail.(queue := queue, worker := worker, shuttingDown := shuttingDown))
    }

    constructor (config: Config)
      ensures View() == Initial() && this.config == config
    {
      this.config := config;
      clock, maintenanceActive, maintenanceUntil := 0.0, false, None;
      states, alerted, lastSent, pending := map[], map[], map[], map[];
      queue, queueLoop, runningLoop, worker, shuttingDown := [], None, 0, Absent, false;
      notes, trail := Initial().book, Initial().line;
    }

    method InMaintenance() returns (on: bool)
      modifies this`maintenanceActive, this`maintenanceUntil
      ensures View() == Lapse(old(View())) && on == View().maintenance.Some? == maintenanceActive
    {
      if !maintenanceActive {
        return false;
      }
      if maintenanceUntil.None? || clock < maintenanceUntil.value {
        return true;
      }
      maintenanceActive, maintenanceUntil := false, None;
      on := false;
    }

    /** Move the queue to another event loop, item by item. */
    method AlertQueueOn(loop: nat)
      modifies this`queue, this`queueLoop
      ensures queue == old(queue) && queueLoop == Some(loop)
    {
      if queueLoop == Some(loop) {
        return;
      }
      if queueLoop.Some? {
        var moved: seq<Option<Alert>> := [];
        while queue != []
          invariant moved + queue == old(queue)
          decreases |queue|
        {
          moved, queue := moved + [queue[0]], queue[1..];
        }
        queue := moved;
      }
      queueLoop := Some(loop);
    }

    method EnsureAlertWorker()
      modifies this`queue, this`queueLoop, this`worker
      ensures View() == old(View()).(line := EnsureWorker(old(View()).line))
    {
      if shuttingDown {
        return;
      }
      if worker.Absent? {
        AlertQueueOn(runningLoop);
        worker := Busy;
      }
    }

    method WakeAlertWorker()
      modifies this`queue, this`queueLoop, this`worker
      ensures View() == old(View()).(line := Wake(old(View()).line))
    {
      EnsureAlertWorker();
      if |queue| < QUEUE_SIZE {
        queue := queue + [None];
      }
    }

    /** Within the interval: leave one marker for the worker. */
    method Coalesce(n: Name)
      requires n in lastSent
      modifies this
      ensures View() == (if n in old(pending) then old(View()).(book := Clear(old(BookView()), n))
                         else old(View()).(book := Mark(config, old(BookView()), n), line := Wake(old(View()).line)))
    {
      notes := Clear(notes, n);
      if n !in pending {
        pending := pending[n := lastSent[n] + config.minInterval];
        WakeAlertWorker();
      }
    }

    /** Queue the alert unless the queue is full; only then does what alerters were sent advance. */
    method TryQueue(alert: Alert)
      modifies this
      ensures var l := EnsureWorker(old(View()).line);
              View() == (if |l.queue| >= QUEUE_SIZE
                         then old(View()).(book := Refuse(old(BookView()), alert.probe), line := l)
                         else old(View()).(book := Record(old(BookView()), alert, old(clock)), line := Put(l, alert)))
    {
      var n := alert.probe;
      EnsureAlertWorker();
      if |queue| >= QUEUE_SIZE {
        notes := Refuse(notes, n);
        return;
      }
      queue := queue + [Some(alert)];
      alerted := alerted[n := alert.after];
      lastSent := lastSent[n := clock];
      pending := pending - {n};
      notes := Record(notes, alert, clock);
    }

    /** `_send_to_alerters`. */
    method SendToAlerters(n: Name, status: Status, transition: Option<Alert>, due: bool)
      requires transition.Some? ==> transition.value.probe == n && transition.value.after == status
      modifies this
      ensures View() == Send(config, old(View()), n, status, transition, due)
    {
      var sent := if n in alerted then alerted[n] else Healthy;
      if sent == status {
        pending, notes := pending - {n}, Clear(notes, n);
        return;
      }
      SendChange(n, sent, status, transition, due);
    }

    /** Its rest, once the status is known to differ from the one last sent. */
    method SendChange(n: Name, sent: Status, status: Status, transition: Option<Alert>, due: bool)
      requires transition.Some? ==> transition.value.probe == n && transition.value.after == status
      requires sent == Announced(BookView(), n) != status
      modifies this
      ensures View() == Send(config, old(View()), n, status, transition, due)
    {
      if config.minInterval > 0.0 && !due && n in lastSent && clock - lastSent[n] < config.minInterval {
        Coalesce(n);
        return;
      }
      var record := if transition.None? || transition.value.before != sent then Alert(n, sent, status)
                    else transition.value;
      TryQueue(record);
    }

    /** `_fire_state_changes` up to its first suspension. */
    method FireStateChange(n: Name, status: Status) returns (transition: Option<Alert>, silenced: bool)
      modifies this
      ensures View() == FireBegin(old(View()), n, status)
      ensures View().book.firing[n] == Firing(status, transition, silenced)
    {
      silenced := InMaintenance();
      var before := if n in states then states[n] else Healthy;
      states := states[n := status];
      transition := None;
      if before != status {
        transition := Some(Alert(n, before, status));
      }
      notes := notes.(firing := notes.firing[n := Firing(status, transition, silenced)]);
    }

    /** The rest of it, with what the first stretch decided. */
    method AnnounceStateChange(n: Name, status: Status, transition: Option<Alert>, silenced: bool)
      requires n in notes.firing && notes.firing[n] == Firing(status, transition, silenced)
      requires transition.Some? ==> transition.value.probe == n && transition.value.after == status
      modifies this
      ensures View() == FireEnd(config, old(View()), n)
    {
      notes := Fired(notes, n);
      if config.hasAlerters && !silenced {
        SendToAlerters(n, status, transition, false);
      } else {
        notes := Mute(notes, n);
      }
    }

    /** *order* lists the markers as the dictionary does. */
    method SendDueAlerts(order: seq<Name>)
      modifies this
      ensures View() == DuePass(config, (if old(pending) == map[] then old(View()) else Lapse(old(View()))), order)
    {
      if pending == map[] {
        NothingDue(config, View(), order);
        return;
      }
      var silenced := InMaintenance();
      ghost var start := View();
      var i := 0;
      while i < |order|
        invariant 0 <= i <= |order| && silenced == maintenanceActive
        invariant DuePass(config, View(), order[i..]) == DuePass(config, start, order)
      {
        var n := order[i];
        ghost var before := View();
        assert order[i..][1..] == order[i + 1..];
        if n in pending && pending[n] <= clock {
          pending := pending - {n};
          if n in states && config.hasAlerters && !silenced {
            ghost var unmarked := View();
            SendToAlerters(n, states[n], None, true);
            AlertTheorems.SendLine(config, unmarked, n, before.book.states[n], None, true);
          } else {
            notes := Mute(notes, n);
          }
        }
        assert View() == SendIfDue(config, before, n);
        i := i + 1;
      }
    }

    /** When the next coalesced alert is due. */
    method NextPending() returns (until: Option<real>)
      ensures Earliest(pending, until)
    {
      until := None;
      var rest := pending.Keys;
      while rest != {}
        invariant rest <= pending.Keys
        invariant until.None? <==> rest == pending.Keys
        invariant until.Some? ==> exists k :: k in pending && pending[k] == until.value
        invariant forall k :: k in pending && k !in rest ==> until.Some? && until.value <= pending[k]
        decreases |rest|
      {
        var k :| k in rest;
        rest := rest - {k};
        if until.None? || pending[k] < until.value {
          until := Some(pending[k]);
        }
      }
    }

    /** One turn of `_alert_loop` up to its due pass. */
    method DuePart(order: seq<Name>)
      modifies this
      ensures View() == Awaken(config, old(View()), order)
    {
      worker := Busy;
      SendDueAlerts(order);
    }

    /** One turn of `_alert_loop` up to its wait. */
    method AlertLoopTop(order: seq<Name>)
      modifies this
      ensures View() == LoopTop(config, old(View()), order)
    {
      DuePart(order);
      var until := NextPending();
      EarliestIsUnique(pending, until, EarliestOf(pending));
      worker := Waiting(until);
    }

    /** The wait ends with an item; a `None` is dropped, an alert is handed to dispatch. */
    method TakeAlert() returns (alert: Option<Alert>)
      requires queue != []
      modifies this
      ensures View() == old(View()).(line := Take(old(View()).line)) && alert == old(queue)[0]
    {
      alert := queue[0];
      queue := queue[1..];
      worker := Busy;
      trail := Take(trail.(queue := old(queue)));
    }

    /** `_shutdown` sets the flag: from here on no check starts a worker. */
    method BeginShutdown()
      modifies this`shuttingDown, this`trail
      ensures View() == old(View()).(line := old(View()).line.(shuttingDown := true, everShutDown := true))
    {
      shuttingDown, trail := true, trail.(everShutDown := true);
    }

    /** `_drain_alerts_for_shutdown`: a worker for what is queued, when none is there. */
    method StartDrain()
      modifies this`queue, this`queueLoop, this`worker
      ensures View() == if old(queue) == [] || !old(worker).Absent? then old(View())
                        else old(View()).(line := old(View()).line.(worker := Busy))
    {
      if queue != [] && worker.Absent? {
        AlertQueueOn(runningLoop);
        worker := Busy;
      }
    }

    /** Its end: the worker is cancelled and gone, with what it did not get to still queued. */
    method StopWorker()
      modifies this`worker
      ensures View() == old(View()).(line := old(View()).line.(worker := Absent))
    {
      worker := Absent;
    }

    /** Drop what is remembered of probes no longer registered, and of no other. */
    method ForgetUnregistered(registered: set<Name>)
      modifies this`states, this`alerted, this`lastSent, this`pending
      ensures BookView() == Forget(old(BookView()), old(Unregistered(registered)))
      ensures Unregistered(registered) == {}
    {
      ForgetIsRestrict(BookView(), registered);
      states, alerted := Restrict(states, registered), Restrict(alerted, registered);
      lastSent, pending := Restrict(lastSent, registered), Restrict(pending, registered);
    }

    /** The names remembered but not in *registered*. */
    ghost function Unregistered(registered: set<Name>): set<Name>
      reads this
    {
      Remembered(BookView()) - registered
    }
  }

  function Remembered(b: Book): set<Name> {
    b.states.Keys + b.alerted.Keys + b.lastSent.Keys + b.pending.Keys
  }

  function Restrict<V>(m: map<Name, V>, names: set<Name>): map<Name, V> {
    map n | n in m && n in names :: m[n]
  }

  lemma ForgetIsRestrict(b: Book, registered: set<Name>)
    ensures Forget(b, Remembered(b) - registered)
            == b.(states := Restrict(b.states, registered), alerted := Restrict(b.alerted, registered),
                  lastSent := Restrict(b.lastSent, registered), pending := Restrict(b.pending, registered))
  {
    var names := Remembered(b) - registered;
    assert b.states - names == Restrict(b.states, registered);
    assert b.alerted - names == Restrict(b.alerted, registered);
    assert b.lastSent - names == Restrict(b.lastSent, registered);
    assert b.pending - names == Restrict(b.pending, registered);
  }

  lemma {:induction false} NothingDue(c: Config, s: State, order: seq<Name>)
    requires s.book.pending == map[]
    ensures DuePass(c, s, order) == s
    decreases |order|
  {
    if order != [] { NothingDue(c, s, order[1..]); }
  }

  lemma EarliestIsUnique(m: map<Name, real>, a: Option<real>, b: Option<real>)
    requires Earliest(m, a) && Earliest(m, b)
    ensures a == b
  {
  }
}
