/**
  Why alerters may be behind.  In any run, maintenance and cancelled checks
  included, a probe whose alerters do not know its status has a marker, met a
  full queue, was silenced by maintenance or had its last check cut off.
*/
module AlertBacklog {
  import opened Options
  import opened AlertPipeline
  import opened AlertInvariants
  import opened AlertTheorems

  /** The end of a check of *n* that maintenance does not silence. */
  ghost predicate Heard(s: State, e: Event, n: Name) {
    e == CheckEnds(n) && n in s.book.firing && !s.book.firing[n].silenced
  }

  /** The end of a check of *n* that began in maintenance, or a due pass in maintenance that drops its marker. */
  ghost predicate Silences(s: State, e: Event, n: Name) {
    || (e == CheckEnds(n) && n in s.book.firing && s.book.firing[n].silenced)
    || (e.WorkerLoops? && n in s.book.pending && s.book.pending[n] <= s.clock && Lapse(s).maintenance.Some?)
  }

  /** A check of *n* is cancelled between its stretches. */
  ghost predicate Cuts(s: State, e: Event, n: Name) {
    e == CheckCut(n) && n in s.book.firing
  }

  /** In the run *es* the last word on *n* was a silence: maintenance had it, and no check outside it ended since. */
  ghost predicate SilencedLast(c: Config, registered: set<Name>, es: seq<Event>, n: Name) {
    es != []
    && var before, e := es[..|es| - 1], es[|es| - 1];
       var s := Run(c, registered, Initial(), before);
       (Silences(s, e, n) && Enabled(registered, s, e))
       || (SilencedLast(c, registered, before, n) && !Heard(s, e, n))
  }

  /** In the run *es* a check of *n* was cut off, and none ended since. */
  ghost predicate CutLast(c: Config, registered: set<Name>, es: seq<Event>, n: Name) {
    es != []
    && var before, e := es[..|es| - 1], es[|es| - 1];
       var s := Run(c, registered, Initial(), before);
       Cuts(s, e, n)
       || (CutLast(c, registered, before, n) && !(e == CheckEnds(n) && n in s.book.firing))
  }

  // ------------------------------------------------------------ one event

  lemma DuePassNotes(c: Config, s: State, order: seq<Name>, n: Name)
    requires c.hasAlerters && (n in s.book.pending ==> n in s.book.states)
    ensures var t := DuePass(c, s, order);
            && (n in t.book.cut ==> n in s.book.cut)
            && (n in t.book.muted && n !in s.book.muted ==>
                  n in s.book.pending && s.book.pending[n] <= s.clock && s.maintenance.Some?)
    decreases |order|
  {
    if order != [] {
      var m, s1 := order[0], SendIfDue(c, s, order[0]);
      SendIfDueNotes(c, s, m, n);
      SendIfDueLine(c, s, m);
      DuePassNotes(c, s1, order[1..], n);
    }
  }

  lemma SendIfDueNotes(c: Config, s: State, m: Name, n: Name)
    requires c.hasAlerters && (n in s.book.pending ==> n in s.book.states)
    ensures var t := SendIfDue(c, s, m);
            && (n in t.book.cut ==> n in s.book.cut)
            && (n in t.book.pending ==> n in s.book.pending && t.book.pending[n] == s.book.pending[n])
            && (n in t.book.muted && n !in s.book.muted ==>
                  n in s.book.pending && s.book.pending[n] <= s.clock && s.maintenance.Some?)
  {
    if m != n {
      SendIfDueFrames(c, s, m, n);
    } else if n in s.book.pending && s.book.pending[n] <= s.clock && s.maintenance.None? {
      var s1 := s.(book := s.book.(pending := s.book.pending - {n}));
      SendOutcome(c, s1, n, s.book.states[n], None, true);
      SendLine(c, s1, n, s.book.states[n], None, true);
    }
  }

  /** Only maintenance silences a probe, and only the end of a check outside it undoes that. */
  lemma SilenceHasCause(c: Config, registered: set<Name>, s: State, e: Event, n: Name)
    requires Inv(c, registered, s) && c.hasAlerters && n in registered
    requires n in Apply(c, registered, s, e).book.muted
    ensures (Silences(s, e, n) && Enabled(registered, s, e)) || (n in s.book.muted && !Heard(s, e, n))
  {
    assert ProbeInv(c, s.clock, s.book, n);
    if Enabled(registered, s, e) {
      match e
      case CheckEnds(m) => CheckEndNotes(c, s, m, n);
      case WorkerLoops(order) => LoopNotes(c, s, order, n);
      case _ =>
    }
  }

  /** Only a cancelled check leaves a probe cut off, and only the end of a check undoes that. */
  lemma CutHasCause(c: Config, registered: set<Name>, s: State, e: Event, n: Name)
    requires Inv(c, registered, s) && c.hasAlerters && n in registered
    requires n in Apply(c, registered, s, e).book.cut
    ensures Cuts(s, e, n) || (n in s.book.cut && !(e == CheckEnds(n) && n in s.book.firing))
  {
    assert ProbeInv(c, s.clock, s.book, n);
    if Enabled(registered, s, e) {
      match e
      case CheckEnds(m) => CheckEndNotes(c, s, m, n);
      case WorkerLoops(order) => LoopNotes(c, s, order, n);
      case _ =>
    }
  }

  lemma CheckEndNotes(c: Config, s: State, m: Name, n: Name)
    requires c.hasAlerters && m in s.book.firing && FiringInv(s.book)
    ensures var t := FireEnd(c, s, m);
            && (m != n ==> (n in t.book.muted <==> n in s.book.muted) && (n in t.book.cut <==> n in s.book.cut))
            && (m == n ==> n !in t.book.cut && (n in t.book.muted <==> s.book.firing[n].silenced))
  {
    var f, s1 := s.book.firing[m], s.(book := Fired(s.book, m));
    if !f.silenced {
      if m == n {
        SendOutcome(c, s1, n, f.status, f.transition, false);
      } else {
        SendFrames(c, s1, m, f.status, f.transition, false, n);
      }
    }
  }

  lemma LoopNotes(c: Config, s: State, order: seq<Name>, n: Name)
    requires c.hasAlerters && (n in s.book.pending ==> n in s.book.states)
    ensures var t := LoopTop(c, s, order);
            && (n in t.book.cut ==> n in s.book.cut)
            && (n in t.book.muted && n !in s.book.muted ==>
                  n in s.book.pending && s.book.pending[n] <= s.clock && Lapse(s).maintenance.Some?)
  {
    var s1 := if s.book.pending == map[] then s else Lapse(s);
    DuePassNotes(c, s1.(line := s1.line.(worker := Busy)), order, n);
  }

  // ------------------------------------------------------------ whole runs

  lemma {:induction false} NotesHaveCauses(c: Config, registered: set<Name>, es: seq<Event>, n: Name)
    requires c.Valid() && c.hasAlerters && n in registered
    ensures var b := Run(c, registered, Initial(), es).book;
            && (n in b.muted ==> SilencedLast(c, registered, es, n))
            && (n in b.cut ==> CutLast(c, registered, es, n))
    decreases |es|
  {
    if es != [] {
      var before, e := es[..|es| - 1], es[|es| - 1];
      var s := Run(c, registered, Initial(), before);
      RunKeepsInv(c, registered, before);
      NotesHaveCauses(c, registered, before, n);
      if n in Apply(c, registered, s, e).book.muted { SilenceHasCause(c, registered, s, e, n); }
      if n in Apply(c, registered, s, e).book.cut { CutHasCause(c, registered, s, e, n); }
    }
  }

  /**
    After any run, for any registered probe that is not being checked: alerters
    know its status, or a marker waits, or a full queue refused the alert, or
    the last word on it was maintenance's, or its last check was cut off.
  */
  lemma BehindHasReason(c: Config, registered: set<Name>, es: seq<Event>, n: Name)
    requires c.Valid() && c.hasAlerters && n in registered
    ensures var b := Run(c, registered, Initial(), es).book;
            n in b.states && n !in b.firing ==>
              || Announced(b, n) == b.states[n] || n in b.pending || n in b.refused
              || SilencedLast(c, registered, es, n) || CutLast(c, registered, es, n)
  {
    RunKeepsInv(c, registered, es);
    NotesHaveCauses(c, registered, es, n);
    var s := Run(c, registered, Initial(), es);
    assert n !in s.book.firing ==> Accounted(c, s.book, n);
  }

  /** No maintenance is on and none was when a check in flight began. */
  ghost predicate Open(s: State) {
    s.maintenance.None? && forall n :: n in s.book.firing ==> !s.book.firing[n].silenced
  }

  lemma StaysOpen(c: Config, registered: set<Name>, s: State, e: Event)
    requires Inv(c, registered, s) && Open(s) && !e.MaintenanceOn?
    ensures Open(Apply(c, registered, s, e))
  {
    if Enabled(registered, s, e) {
      match e
      case CheckEnds(m) =>
        var f := s.book.firing[m];
        SendLine(c, s.(book := Fired(s.book, m)), m, f.status, f.transition, false);
      case WorkerLoops(order) => DuePassOpen(c, s.(line := s.line.(worker := Busy)), order);
      case _ =>
    }
  }

  lemma {:induction false} DuePassOpen(c: Config, s: State, order: seq<Name>)
    ensures var t := DuePass(c, s, order); t.maintenance == s.maintenance && t.book.firing == s.book.firing
    decreases |order|
  {
    if order != [] {
      SendIfDueLine(c, s, order[0]);
      DuePassOpen(c, SendIfDue(c, s, order[0]), order[1..]);
    }
  }

  lemma {:induction false} NothingSilenced(c: Config, registered: set<Name>, es: seq<Event>, n: Name)
    requires c.Valid() && (forall e :: e in es ==> !e.MaintenanceOn?) && CheckCut(n) !in es
    ensures Open(Run(c, registered, Initial(), es))
    ensures !SilencedLast(c, registered, es, n) && !CutLast(c, registered, es, n)
    decreases |es|
  {
    if es != [] {
      var before, e := es[..|es| - 1], es[|es| - 1];
      NothingSilenced(c, registered, before, n);
      RunKeepsInv(c, registered, before);
      StaysOpen(c, registered, Run(c, registered, Initial(), before), e);
    }
  }

  /** Without maintenance and cancelled checks, a probe whose alerters are behind has a marker or met a full queue. */
  lemma BehindOnlyWhenMarkedOrRefused(c: Config, registered: set<Name>, es: seq<Event>, n: Name)
    requires c.Valid() && c.hasAlerters && n in registered
    requires (forall e :: e in es ==> !e.MaintenanceOn?) && CheckCut(n) !in es
    ensures var b := Run(c, registered, Initial(), es).book;
            n in b.states && n !in b.firing && Announced(b, n) != b.states[n] ==> n in b.pending || n in b.refused
  {
    BehindHasReason(c, registered, es, n);
    NothingSilenced(c, registered, es, n);
  }
}
