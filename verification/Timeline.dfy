/**
  The dashboard's timeline: the points of a probe, kept live and bounded, and
  the status intervals drawn from them.
*/
module Timeline {
  import opened Options
  import opened Windows

  datatype Status = Status(text: string)

  /** What the charts plot besides the status: response times, rates, lag and routes. */
  datatype Values = Values(json: string)

  datatype Point = Point(t: real, status: Status, values: Values)

  /** Drawn from *t0* up to but not including *t1*. */
  datatype Segment = Segment(t0: real, t1: real, status: Status)

  ghost predicate Increasing(points: seq<Point>) {
    forall i, j :: 0 <= i < j < |points| ==> points[i].t < points[j].t
  }

  // ------------------------------------------------------------ what a timeline means

  /** The latest point at or before *t*. */
  function Latest(points: seq<Point>, t: real): (k: Option<nat>)
    ensures k.Some? ==> k.value < |points| && points[k.value].t <= t
    ensures forall i :: (if k.Some? then k.value < i else 0 <= i) && i < |points| ==> t < points[i].t
  {
    if points == [] then None
    else if points[|points| - 1].t <= t then Some(|points| - 1)
    else Latest(points[..|points| - 1], t)
  }

  /** The status at *t*: that of the latest point, for as long as *maxGap* (`None` is infinite) after it. */
  function StatusAt(points: seq<Point>, maxGap: Option<real>, t: real): Option<Status> {
    match Latest(points, t)
    case None => None
    case Some(k) => if maxGap.None? || t < points[k].t + maxGap.value then Some(points[k].status) else None
  }

  /** What the segments show at *t*. */
  function ColourAt(segments: seq<Segment>, t: real): Option<Status> {
    if segments == [] then None
    else
      var last := segments[|segments| - 1];
      if last.t0 <= t then if t < last.t1 then Some(last.status) else None
      else ColourAt(segments[..|segments| - 1], t)
  }

  /** In order, without overlap, none empty, and equal statuses that touch are one segment. */
  ghost predicate Drawn(segments: seq<Segment>) {
    && (forall i :: 0 <= i < |segments| ==> segments[i].t0 < segments[i].t1)
    && (forall i, j :: 0 <= i < j < |segments| ==> segments[i].t1 <= segments[j].t0)
    && (forall i, j :: 0 <= i && j == i + 1 && j < |segments| && segments[i].t1 == segments[j].t0 ==>
          segments[i].status != segments[j].status)
  }

  ghost predicate Within(segments: seq<Segment>, start: real, end: real) {
    forall i :: 0 <= i < |segments| ==> start <= segments[i].t0 && segments[i].t1 <= end
  }

  /** Each instant is in at most one segment, and its colour is that segment's status. */
  lemma {:induction false} ColourIsSegment(segments: seq<Segment>, t: real, status: Status)
    requires Drawn(segments)
    ensures ColourAt(segments, t) == Some(status)
            <==> exists i :: 0 <= i < |segments| && segments[i].t0 <= t < segments[i].t1 && segments[i].status == status
    decreases |segments|
  {
    if segments != [] {
      var n := |segments| - 1;
      ColourIsSegment(segments[..n], t, status);
      if segments[n].t0 <= t {
        assert segments[n].t0 <= t < segments[n].t1 ==> segments[n].status == segments[n].status;
      }
    }
  }

  /** Beyond the last segment there is nothing. */
  lemma NoColourBeyond(segments: seq<Segment>, t: real)
    requires Drawn(segments) && (segments != [] ==> segments[|segments| - 1].t1 <= t)
    ensures ColourAt(segments, t) == None
  {
  }

  // ------------------------------------------------------------ segments

  function Min(a: real, b: real): real { if a <= b then a else b }

  function Max(a: real, b: real): real { if a >= b then a else b }

  /** `Math.min(bound, p.t + maxGap)`. */
  function EndOf(p: Point, bound: real, maxGap: Option<real>): real {
    if maxGap.None? then bound else Min(bound, p.t + maxGap.value)
  }

  /** What the points before *i* show, up to the point at *i*. */
  function Shown(points: seq<Point>, start: real, end: real, maxGap: Option<real>, i: nat, t: real): Option<Status> {
    if start <= t < end && (i < |points| ==> t < points[i].t) then StatusAt(points, maxGap, t) else None
  }

  lemma LatestIs(points: seq<Point>, k: nat, t: real)
    requires Increasing(points) && k < |points| && points[k].t <= t && (k + 1 < |points| ==> t < points[k + 1].t)
    ensures Latest(points, t) == Some(k)
  {
  }

  /** One more point shows its status from where it starts to where it ends, and changes nothing else. */
  lemma OneMorePoint(points: seq<Point>, start: real, end: real, maxGap: Option<real>, i: nat, t: real)
    requires Increasing(points) && i < |points|
    ensures var p := points[i];
            var s, e := Max(p.t, start), Min(EndOf(p, if i + 1 < |points| then points[i + 1].t else end, maxGap), end);
            Shown(points, start, end, maxGap, i + 1, t)
            == if s <= t < e then Some(p.status) else Shown(points, start, end, maxGap, i, t)
  {
    if points[i].t <= t && (i + 1 < |points| ==> t < points[i + 1].t) { LatestIs(points, i, t); }
  }

  lemma AppendColour(segments: seq<Segment>, more: Segment, t: real)
    requires Drawn(segments) && more.t0 < more.t1
    requires segments != [] ==> segments[|segments| - 1].t1 <= more.t0
    ensures ColourAt(segments + [more], t)
            == if more.t0 <= t < more.t1 then Some(more.status) else ColourAt(segments, t)
  {
    assert (segments + [more])[..|segments|] == segments;
    if more.t1 <= t { NoColourBeyond(segments, t); }
  }

  lemma StretchColour(segments: seq<Segment>, t1: real, t: real)
    requires Drawn(segments) && segments != [] && segments[|segments| - 1].t1 <= t1
    ensures var last := segments[|segments| - 1];
            ColourAt(segments[..|segments| - 1] + [last.(t1 := t1)], t)
            == if last.t1 <= t < t1 then Some(last.status) else ColourAt(segments, t)
  {
    var n := |segments| - 1;
    assert (segments[..n] + [segments[n].(t1 := t1)])[..n] == segments[..n];
  }

  /** The next piece: part of the last segment when it touches and has its status, else one of its own. */
  function Draw(segments: seq<Segment>, s: real, e: real, status: Status): seq<Segment> {
    var n := |segments|;
    if n > 0 && segments[n - 1].status == status && segments[n - 1].t1 >= s then
      segments[..n - 1] + [segments[n - 1].(t1 := e)]
    else segments + [Segment(s, e, status)]
  }

  lemma AppendDrawn(segments: seq<Segment>, more: Segment)
    requires Drawn(segments) && more.t0 < more.t1
    requires segments != [] ==>
        var last := segments[|segments| - 1];
        last.t1 <= more.t0 && (last.t1 == more.t0 ==> last.status != more.status)
    ensures Drawn(segments + [more])
  {
    var out, n := segments + [more], |segments|;
    forall i, j | 0 <= i < j < |out| ensures out[i].t1 <= out[j].t0 {
      if j == n && i < n - 1 { assert segments[i].t1 <= segments[n - 1].t0; }
    }
  }

  lemma StretchDrawn(segments: seq<Segment>, t1: real)
    requires segments != [] && Drawn(segments) && segments[|segments| - 1].t1 <= t1
    ensures Drawn(segments[..|segments| - 1] + [segments[|segments| - 1].(t1 := t1)])
  {
    var n := |segments| - 1;
    assert Drawn(segments[..n]);
    AppendDrawn(segments[..n], segments[n].(t1 := t1));
  }

  lemma DrawKeeps(segments: seq<Segment>, s: real, e: real, status: Status)
    requires Drawn(segments) && s < e && (segments != [] ==> segments[|segments| - 1].t1 <= s)
    ensures var out := Draw(segments, s, e, status); Drawn(out) && out != [] && out[|out| - 1].t1 == e
  {
    var n := |segments|;
    if n > 0 && segments[n - 1].status == status && segments[n - 1].t1 >= s {
      StretchDrawn(segments, e);
    } else {
      AppendDrawn(segments, Segment(s, e, status));
    }
  }

  lemma DrawWithin(segments: seq<Segment>, s: real, e: real, status: Status, start: real, end: real)
    requires Within(segments, start, end) && start <= s && e <= end
    ensures Within(Draw(segments, s, e, status), start, end)
  {
  }

  lemma DrawColour(segments: seq<Segment>, s: real, e: real, status: Status, t: real)
    requires Drawn(segments) && s < e && (segments != [] ==> segments[|segments| - 1].t1 <= s)
    ensures ColourAt(Draw(segments, s, e, status), t) == if s <= t < e then Some(status) else ColourAt(segments, t)
  {
    var n := |segments|;
    if n > 0 && segments[n - 1].status == status && segments[n - 1].t1 >= s {
      StretchColour(segments, e, t);
    } else {
      AppendColour(segments, Segment(s, e, status), t);
    }
  }

  lemma NothingYet(points: seq<Point>, start: real, end: real, maxGap: Option<real>, t: real)
    requires Increasing(points)
    ensures Shown(points, start, end, maxGap, 0, t) == None
  {
    if points != [] && t < points[0].t { assert Latest(points, t).None?; }
  }

  /** The points before *i* are drawn. */
  ghost predicate Drawing(points: seq<Point>, start: real, end: real, maxGap: Option<real>, i: nat, out: seq<Segment>) {
    && i <= |points| && Drawn(out) && Within(out, start, end)
    && (out != [] && i < |points| ==> out[|out| - 1].t1 <= points[i].t)
    && (forall t :: ColourAt(out, t) == Shown(points, start, end, maxGap, i, t))
  }

  lemma DrawingStarts(points: seq<Point>, start: real, end: real, maxGap: Option<real>)
    requires Increasing(points)
    ensures Drawing(points, start, end, maxGap, 0, [])
  {
    forall t ensures ColourAt([], t) == Shown(points, start, end, maxGap, 0, t) {
      NothingYet(points, start, end, maxGap, t);
    }
  }

  lemma DrawingGrows(points: seq<Point>, start: real, end: real, maxGap: Option<real>, i: nat, out: seq<Segment>)
    requires Increasing(points) && i < |points| && Drawing(points, start, end, maxGap, i, out)
    ensures var p := points[i];
            var s, e := Max(p.t, start), Min(EndOf(p, if i + 1 < |points| then points[i + 1].t else end, maxGap), end);
            Drawing(points, start, end, maxGap, i + 1, if e > s then Draw(out, s, e, p.status) else out)
  {
    var p := points[i];
    var s, e := Max(p.t, start), Min(EndOf(p, if i + 1 < |points| then points[i + 1].t else end, maxGap), end);
    var more := if e > s then Draw(out, s, e, p.status) else out;
    if e > s {
      DrawKeeps(out, s, e, p.status);
      DrawWithin(out, s, e, p.status, start, end);
    }
    forall t ensures ColourAt(more, t) == Shown(points, start, end, maxGap, i + 1, t) {
      OneMorePoint(points, start, end, maxGap, i, t);
      if e > s { DrawColour(out, s, e, p.status, t); }
    }
  }

  lemma DrawingEnds(points: seq<Point>, start: real, end: real, maxGap: Option<real>, out: seq<Segment>)
    requires Drawing(points, start, end, maxGap, |points|, out)
    ensures Drawn(out) && Within(out, start, end)
    ensures forall t :: ColourAt(out, t) == if start <= t < end then StatusAt(points, maxGap, t) else None
  {
    forall t ensures ColourAt(out, t) == if start <= t < end then StatusAt(points, maxGap, t) else None {
      assert ColourAt(out, t) == Shown(points, start, end, maxGap, |points|, t);
    }
  }

  /** One rectangle: the last one moves its end, or a new one is pushed. */
  method Place(segments: seq<Segment>, s: real, e: real, status: Status) returns (out: seq<Segment>)
    ensures out == Draw(segments, s, e, status)
  {
    out := segments;
    var last := |out| - 1;
    if out != [] && out[last].status == status && out[last].t1 >= s {
      out := out[last := out[last].(t1 := e)];
      assert out == segments[..last] + [segments[last].(t1 := e)];
    } else {
      out := out + [Segment(s, e, status)];
    }
  }

  /** `segments`: the drawing that shows at every instant what the points say, and nothing outside the range. */
  method Segments(points: seq<Point>, start: real, end: real, maxGap: Option<real>) returns (out: seq<Segment>)
    requires Increasing(points)
    ensures Drawn(out) && Within(out, start, end)
    ensures forall t :: ColourAt(out, t) == if start <= t < end then StatusAt(points, maxGap, t) else None
  {
    out := [];
    DrawingStarts(points, start, end, maxGap);
    var i := 0;
    while i < |points|
      invariant 0 <= i <= |points| && Drawing(points, start, end, maxGap, i, out)
    {
      DrawingGrows(points, start, end, maxGap, i, out);
      var p := points[i];
      var bound := EndOf(p, if i + 1 < |points| then points[i + 1].t else end, maxGap);
      var s, e := Max(p.t, start), Min(bound, end);
      if e > s { out := Place(out, s, e, p.status); }
      i := i + 1;
    }
    DrawingEnds(points, start, end, maxGap, out);
  }

  // ------------------------------------------------------------ one drawing only

  ghost predicate SameColours(a: seq<Segment>, b: seq<Segment>) {
    forall t :: ColourAt(a, t) == ColourAt(b, t)
  }

  lemma EndsNoLater(a: seq<Segment>, b: seq<Segment>)
    requires a != [] && b != [] && Drawn(a) && Drawn(b) && SameColours(a, b)
    ensures a[|a| - 1].t1 <= b[|b| - 1].t1
  {
    var t := Max(a[|a| - 1].t0, b[|b| - 1].t1);
    NoColourBeyond(b, t);
    assert ColourAt(a, t) == ColourAt(b, t);
  }

  lemma SameStatus(a: seq<Segment>, b: seq<Segment>)
    requires a != [] && b != [] && Drawn(a) && Drawn(b) && SameColours(a, b) && a[|a| - 1].t1 == b[|b| - 1].t1
    ensures a[|a| - 1].status == b[|b| - 1].status
  {
    var t := Max(a[|a| - 1].t0, b[|b| - 1].t0);
    assert ColourAt(a, t) == ColourAt(b, t);
  }

  lemma StartsNoEarlier(a: seq<Segment>, b: seq<Segment>)
    requires a != [] && b != [] && Drawn(a) && Drawn(b) && SameColours(a, b)
    requires a[|a| - 1].t1 == b[|b| - 1].t1 && a[|a| - 1].status == b[|b| - 1].status
    ensures a[|a| - 1].t0 >= b[|b| - 1].t0
  {
    var m, last, other := |b| - 1, a[|a| - 1], b[|b| - 1];
    var t := if m == 0 then last.t0
             else Max(last.t0, if b[m - 1].t1 < other.t0 then b[m - 1].t1 else b[m - 1].t0);
    assert ColourAt(a, t) == ColourAt(b, t);
    assert t < other.t0 ==> ColourAt(b, t) == ColourAt(b[..m], t);
    assert m > 0 ==> b[..m][m - 1] == b[m - 1];
  }

  lemma DrawnBefore(a: seq<Segment>)
    requires a != [] && Drawn(a)
    ensures Drawn(a[..|a| - 1])
  {
  }

  lemma SameLast(a: seq<Segment>, b: seq<Segment>)
    requires a != [] && b != [] && Drawn(a) && Drawn(b) && SameColours(a, b)
    ensures a[|a| - 1] == b[|b| - 1]
  {
    EndsNoLater(a, b);
    EndsNoLater(b, a);
    SameStatus(a, b);
    StartsNoEarlier(a, b);
    StartsNoEarlier(b, a);
  }

  lemma SameColoursBefore(a: seq<Segment>, b: seq<Segment>)
    requires a != [] && b != [] && Drawn(a) && Drawn(b) && SameColours(a, b) && a[|a| - 1] == b[|b| - 1]
    ensures SameColours(a[..|a| - 1], b[..|b| - 1])
  {
    var n, m := |a| - 1, |b| - 1;
    forall t ensures ColourAt(a[..n], t) == ColourAt(b[..m], t) {
      if t < a[n].t0 {
        assert ColourAt(a, t) == ColourAt(b, t);
      } else {
        NoColourBeyond(a[..n], t);
        NoColourBeyond(b[..m], t);
      }
    }
  }

  lemma NonEmptyShows(a: seq<Segment>)
    requires Drawn(a) && SameColours(a, [])
    ensures a == []
  {
    assert a != [] ==> ColourAt(a, a[|a| - 1].t0).Some?;
  }

  /** The intervals are the longest there are: no two drawings with the same colours differ. */
  lemma {:induction false} OneDrawing(a: seq<Segment>, b: seq<Segment>)
    requires Drawn(a) && Drawn(b) && SameColours(a, b)
    ensures a == b
    decreases |a|
  {
    if a == [] {
      NonEmptyShows(b);
    } else if b == [] {
      NonEmptyShows(a);
    } else {
      SameLast(a, b);
      SameColoursBefore(a, b);
      DrawnBefore(a);
      DrawnBefore(b);
      OneDrawing(a[..|a| - 1], b[..|b| - 1]);
      assert a == a[..|a| - 1] + [a[|a| - 1]] && b == b[..|b| - 1] + [b[|b| - 1]];
    }
  }

  // ------------------------------------------------------------ the points of a probe

  const MIN_GAP: real := 5000.0

  function Gaps(points: seq<Point>): seq<real>
    requires points != []
  {
    seq(|points| - 1, i requires 0 <= i < |points| - 1 => points[i + 1].t - points[i].t)
  }

  /** Beyond this gap data is missing: three times the upper median, but never under the minimum. */
  method GapThreshold(points: seq<Point>) returns (gap: Option<real>)
    ensures gap.None? <==> |points| < 3
    ensures gap.Some? ==>
        exists median :: median in Gaps(points) && gap.value == Max(MIN_GAP, median * 3.0)
          && CountIf(AtMost(median), Gaps(points)) > |Gaps(points)| / 2
          && CountIf(Below(median), Gaps(points)) <= |Gaps(points)| / 2
  {
    if |points| < 3 { return None; }
    var deltas := [];
    var i := 1;
    while i < |points|
      invariant 1 <= i <= |points| && deltas == Gaps(points)[..i - 1]
    {
      deltas := deltas + [points[i].t - points[i - 1].t];
      i := i + 1;
    }
    var sorted := Sorted(deltas);
    var median := sorted[|deltas| / 2];
    assert deltas == Gaps(points);
    SortedCounts(AtMost(median), deltas);
    SortedCounts(Below(median), deltas);
    AscendingCounts(sorted, |deltas| / 2);
    gap := Some(Max(MIN_GAP, median * 3.0));
  }

  class Chart {
    var points: seq<Point>

    ghost predicate Valid()
      reads this
    {
      Increasing(points)
    }

    /** `addPoint`: only a newer point is pushed. */
    method AddPoint(point: Point) returns (added: bool)
      requires Valid()
      modifies this
      ensures Valid() && points == old(points) + (if added then [point] else [])
      ensures added <==> forall p :: p in old(points) ==> p.t < point.t
    {
      if points != [] && point.t <= points[|points| - 1].t { return false; }
      points := points + [point];
      added := true;
    }

    /**
      `capPoints`: what stays is the longest stretch up to the newest point that
      respects both bounds.
    */
    method CapPoints(maxAge: real, maxPoints: nat) returns (drop: nat)
      requires Valid()
      modifies this
      ensures Valid() && drop <= |old(points)| && points == old(points)[drop..]
      ensures Kept(old(points), maxAge, maxPoints, drop)
      ensures forall k: nat :: k < drop ==> !Kept(old(points), maxAge, maxPoints, k)
    {
      if points == [] { return 0; }
      var cutoff := points[|points| - 1].t - maxAge;
      drop := if |points| > maxPoints then |points| - maxPoints else 0;
      while drop < |points| && points[drop].t < cutoff
        invariant drop <= |points| && |points| - drop <= maxPoints
        invariant forall k: nat :: k < drop ==> |points| - k > maxPoints || points[k].t < cutoff
      {
        drop := drop + 1;
      }
      forall k: nat | k < drop ensures !Kept(points, maxAge, maxPoints, k) {
        assert |points| - k <= maxPoints ==> points[k].t < cutoff;
      }
      if drop > 0 { points := points[drop..]; }
    }
  }

  /** From *k* on there are few enough points, none too far behind the newest. */
  ghost predicate Kept(points: seq<Point>, maxAge: real, maxPoints: nat, k: nat) {
    && k <= |points| && |points| - k <= maxPoints
    && (forall i :: k <= i < |points| ==> points[i].t >= points[|points| - 1].t - maxAge)
  }

  // ------------------------------------------------------------ points from results

  /** A result of the history; a `checked_at` that does not parse is `None`. */
  datatype Reading = Reading(checkedAt: Option<real>, status: Status, values: Values)

  /** The point of the last reading at *t*. */
  function LastAt(readings: seq<Reading>, t: real): Option<Point> {
    if readings == [] then None
    else
      var last := readings[|readings| - 1];
      if last.checkedAt == Some(t) then Some(Point(t, last.status, last.values))
      else LastAt(readings[..|readings| - 1], t)
  }

  function Pick(times: seq<real>, byTime: map<real, Point>): (points: seq<Point>)
    requires forall i :: 0 <= i < |times| ==> times[i] in byTime
    ensures |points| == |times|
    ensures forall i :: 0 <= i < |times| ==> points[i] == byTime[times[i]]
  {
    if times == [] then [] else [byTime[times[0]]] + Pick(times[1..], byTime)
  }

  ghost predicate AllDifferent(times: seq<real>) {
    forall i, j :: 0 <= i < j < |times| ==> times[i] != times[j]
  }

  lemma {:induction false} InsertDifferent(x: real, s: seq<real>)
    requires Ascending(s) && AllDifferent(s) && x !in s
    ensures AllDifferent(Insert(x, s)) && forall y :: y in Insert(x, s) <==> y == x || y in s
    decreases |s|
  {
    if s != [] && x > s[0] {
      InsertDifferent(x, s[1..]);
      var rest := Insert(x, s[1..]);
      assert s == [s[0]] + s[1..];
      forall i | 0 <= i < |rest| ensures rest[i] != s[0] { assert rest[i] in rest; }
    }
  }

  lemma {:induction false} SortedDifferent(s: seq<real>)
    requires AllDifferent(s)
    ensures AllDifferent(Sorted(s)) && forall y :: y in Sorted(s) <==> y in s
    decreases |s|
  {
    if s != [] {
      SortedDifferent(s[1..]);
      assert s == [s[0]] + s[1..];
      InsertDifferent(s[0], Sorted(s[1..]));
    }
  }

  /** The *i*th reading is the last one at its moment, and *p* is its point. */
  ghost predicate IsLastAt(readings: seq<Reading>, i: nat, p: Point) {
    && i < |readings| && readings[i] == Reading(Some(p.t), p.status, p.values)
    && forall j :: i < j < |readings| ==> readings[j].checkedAt != Some(p.t)
  }

  lemma {:induction false} LastAtIsLast(readings: seq<Reading>, p: Point)
    ensures LastAt(readings, p.t) == Some(p) <==> exists i: nat :: IsLastAt(readings, i, p)
    decreases |readings|
  {
    if readings != [] {
      var n := |readings| - 1;
      LastAtIsLast(readings[..n], p);
      if readings[n].checkedAt == Some(p.t) {
        assert LastAt(readings, p.t) == Some(p) ==> IsLastAt(readings, n, p);
      } else {
        forall i: nat | IsLastAt(readings[..n], i, p) ensures IsLastAt(readings, i, p) {}
        forall i: nat | IsLastAt(readings, i, p) ensures IsLastAt(readings[..n], i, p) {}
      }
    }
  }

  lemma PointsAreLast(readings: seq<Reading>, points: seq<Point>)
    requires forall p :: p in points <==> LastAt(readings, p.t) == Some(p)
    ensures forall p :: p in points <==> exists i: nat :: IsLastAt(readings, i, p)
  {
    forall p ensures p in points <==> exists i: nat :: IsLastAt(readings, i, p) { LastAtIsLast(readings, p); }
  }

  /** `pointsFor`: one point for each moment that was read, in order, made of what was read last for it. */
  method PointsFor(readings: seq<Reading>) returns (points: seq<Point>)
    ensures Increasing(points)
    ensures forall p :: p in points <==> exists i: nat :: IsLastAt(readings, i, p)
  {
    var byTime: map<real, Point>, times: seq<real> := map[], [];
    var i := 0;
    while i < |readings|
      invariant 0 <= i <= |readings| && AllDifferent(times)
      invariant forall t :: t in times <==> t in byTime
      invariant forall t :: t in byTime ==> byTime[t].t == t
      invariant forall t :: Get(byTime, t) == LastAt(readings[..i], t)
    {
      assert readings[..i + 1][..i] == readings[..i];
      if readings[i].checkedAt.Some? {
        var t := readings[i].checkedAt.value;
        if t !in byTime { times := times + [t]; }
        byTime := byTime[t := Point(t, readings[i].status, readings[i].values)];
      }
      i := i + 1;
    }
    assert readings[..i] == readings;
    SortedDifferent(times);
    var sorted := Sorted(times);
    forall k | 0 <= k < |sorted| ensures sorted[k] in byTime { assert sorted[k] in times; }
    points := Pick(sorted, byTime);
    forall p ensures p in points <==> Get(byTime, p.t) == Some(p) {
      if p.t in sorted {
        var k :| 0 <= k < |points| && sorted[k] == p.t;
        assert points[k] in points;
      }
    }
    PointsAreLast(readings, points);
  }
}
