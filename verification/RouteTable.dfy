/**
  The middleware's table: one bucket of statistics for the aggregate and one
  for each route, the table bounded and the routes adding up to the aggregate.
*/
module RouteTable {
  import opened Options
  import opened Windows
  import CallStats

  datatype Route = Route(template: string)

  datatype Config = Config(windowSize: nat, alpha: real, minErrorStatus: int, maxRoutes: nat, perRoute: bool) {
    predicate Valid() { windowSize > 0 && 0.0 < alpha <= 1.0 && maxRoutes > 0 }

    predicate IsError(h: Hit) { h.status >= minErrorStatus }
  }

  /** One counted request and the bucket it went to. */
  datatype Hit = Hit(route: Route, status: int, rtt: real, now: real)

  const OTHER_ROUTE := Route("<other>")

  // ------------------------------------------------------------ one bucket

  datatype Figures = Figures(requests: nat, errors: nat, consecutive: nat, average: Option<real>)

  datatype Sliding = Sliding(rtts: seq<real>, timestamps: seq<real>, errors: seq<bool>, errorCount: int)

  /** All that a bucket was told: the outcome, the response time and the moment of every request. */
  datatype History = History(errors: seq<bool>, rtts: seq<real>, times: seq<real>)

  function Extend(past: History, error: bool, rtt: real, now: real): History {
    History(past.errors + [error], past.rtts + [rtt], past.times + [now])
  }

  function HistoryOf(c: Config, log: seq<Hit>): History {
    if log == [] then History([], [], [])
    else
      var last := log[|log| - 1];
      Extend(HistoryOf(c, log[..|log| - 1]), c.IsError(last), last.rtt, last.now)
  }

  function Set(b: bool): bool { b }

  function Trailing(errors: seq<bool>): nat {
    if errors == [] || !errors[|errors| - 1] then 0 else 1 + Trailing(errors[..|errors| - 1])
  }

  /** The figures of a bucket, recounted from all its requests. */
  ghost predicate FiguresOf(alpha: real, f: Figures, past: History) {
    && f.requests == |past.errors| && f.errors == CountIf(Set, past.errors) && f.consecutive == Trailing(past.errors)
    && f.average == CallStats.Average(alpha, past.rtts)
  }

  /** The windows of a bucket: the last stretch of its history, and the errors counted over it. */
  ghost predicate WindowsOf(n: nat, w: Sliding, past: History) {
    && w.rtts == Last(past.rtts, n) && w.timestamps == Last(past.times, n)
    && w.errors == Last(past.errors, n) && w.errorCount == CountIf(Set, w.errors)
  }

  function AddFigures(alpha: real, f: Figures, error: bool, rtt: real): Figures {
    Figures(f.requests + 1, if error then f.errors + 1 else f.errors, if error then f.consecutive + 1 else 0,
            Some(CallStats.Ema(f.average, rtt, alpha)))
  }

  function Slide(n: nat, w: Sliding, error: bool, rtt: real, now: real): Sliding
    requires n > 0 && |w.rtts| <= n && |w.timestamps| <= n && |w.errors| <= n
  {
    var left := if |w.errors| == n && w.errors[0] then w.errorCount - 1 else w.errorCount;
    Sliding(Push(w.rtts, n, rtt), Push(w.timestamps, n, now), Push(w.errors, n, error),
            if error then left + 1 else left)
  }

  lemma {:induction false} AverageAppend(alpha: real, rtts: seq<real>, rtt: real)
    ensures CallStats.Average(alpha, rtts + [rtt]) == Some(CallStats.Ema(CallStats.Average(alpha, rtts), rtt, alpha))
  {
    assert (rtts + [rtt])[..|rtts|] == rtts;
  }

  lemma {:induction false} TrailingAppend(errors: seq<bool>, e: bool)
    ensures Trailing(errors + [e]) == if e then Trailing(errors) + 1 else 0
  {
    assert (errors + [e])[..|errors|] == errors;
  }

  lemma FiguresAppend(alpha: real, f: Figures, past: History, error: bool, rtt: real, now: real)
    requires FiguresOf(alpha, f, past)
    ensures FiguresOf(alpha, AddFigures(alpha, f, error, rtt), Extend(past, error, rtt, now))
  {
    AverageAppend(alpha, past.rtts, rtt);
    TrailingAppend(past.errors, error);
    CountAppend(Set, past.errors, error);
  }

  /** What eviction keeps up to date is the recount, whatever was recorded before. */
  lemma SlideIsRecount(n: nat, w: Sliding, past: History, error: bool, rtt: real, now: real)
    requires n > 0 && WindowsOf(n, w, past)
    ensures WindowsOf(n, Slide(n, w, error, rtt, now), Extend(past, error, rtt, now))
  {
    PushIsLast(past.rtts, n, rtt);
    PushIsLast(past.times, n, now);
    PushIsLast(past.errors, n, error);
    CountPush(Set, w.errors, n, error);
  }

  /** What a bucket holds once it was told *past*, one request after another. */
  function Told(c: Config, past: seq<Hit>): (r: (Figures, Sliding))
    requires c.Valid()
    ensures |r.1.rtts| <= c.windowSize && |r.1.timestamps| <= c.windowSize && |r.1.errors| <= c.windowSize
  {
    if past == [] then (Figures(0, 0, 0, None), Sliding([], [], [], 0))
    else
      var (f, w), h := Told(c, past[..|past| - 1]), past[|past| - 1];
      (AddFigures(c.alpha, f, c.IsError(h), h.rtt), Slide(c.windowSize, w, c.IsError(h), h.rtt, h.now))
  }

  lemma {:induction false} ToldAppend(c: Config, past: seq<Hit>, h: Hit)
    requires c.Valid()
    ensures var (f, w) := Told(c, past);
            Told(c, past + [h])
            == (AddFigures(c.alpha, f, c.IsError(h), h.rtt), Slide(c.windowSize, w, c.IsError(h), h.rtt, h.now))
  {
    assert (past + [h])[..|past|] == past;
  }

  /** Every figure and every window of a bucket is the recount of all its requests. */
  lemma {:induction false} ToldIsRecount(c: Config, past: seq<Hit>)
    requires c.Valid()
    ensures var (f, w) := Told(c, past);
            FiguresOf(c.alpha, f, HistoryOf(c, past)) && WindowsOf(c.windowSize, w, HistoryOf(c, past))
    decreases |past|
  {
    if past != [] {
      var before, h := past[..|past| - 1], past[|past| - 1];
      ToldIsRecount(c, before);
      var (f, w) := Told(c, before);
      FiguresAppend(c.alpha, f, HistoryOf(c, before), c.IsError(h), h.rtt, h.now);
      SlideIsRecount(c.windowSize, w, HistoryOf(c, before), c.IsError(h), h.rtt, h.now);
    }
  }

  // ------------------------------------------------------------ conservation

  /** The requests of one bucket. */
  function Of(log: seq<Hit>, route: Route): seq<Hit> {
    if log == [] then []
    else
      var last := log[|log| - 1];
      Of(log[..|log| - 1], route) + (if last.route == route then [last] else [])
  }

  lemma {:induction false} OfAppend(log: seq<Hit>, h: Hit, route: Route)
    ensures Of(log + [h], route) == if h.route == route then Of(log, route) + [h] else Of(log, route)
  {
    assert (log + [h])[..|log|] == log;
  }

  /** Every request went to a bucket among *keys*. */
  predicate Covered(log: seq<Hit>, keys: set<Route>) {
    log == [] || (log[|log| - 1].route in keys && Covered(log[..|log| - 1], keys))
  }

  lemma {:induction false} CoveredIf(log: seq<Hit>, keys: set<Route>)
    requires forall k :: k !in keys ==> Of(log, k) == []
    ensures Covered(log, keys)
    decreases |log|
  {
    if log != [] {
      var before := log[..|log| - 1];
      assert Of(log, log[|log| - 1].route) != [];
      forall k | k !in keys ensures Of(before, k) == [] { assert Of(log, k) == []; }
      CoveredIf(before, keys);
    }
  }

  ghost predicate Distinct(keys: seq<Route>) {
    forall i, j :: 0 <= i < j < |keys| ==> keys[i] != keys[j]
  }

  /** How many requests with property *p* the buckets in *keys* hold together. */
  function Held(p: Hit -> bool, keys: seq<Route>, log: seq<Hit>): nat {
    if keys == [] then 0 else CountIf(p, Of(log, keys[0])) + Held(p, keys[1..], log)
  }

  /** One more request adds itself to the sum when its bucket is among the keys, once. */
  lemma {:induction false} HeldAppend(p: Hit -> bool, keys: seq<Route>, log: seq<Hit>, h: Hit)
    requires Distinct(keys)
    ensures Held(p, keys, log + [h]) == Held(p, keys, log) + (if h.route in keys && p(h) then 1 else 0)
    decreases |keys|
  {
    if keys != [] {
      HeldAppend(p, keys[1..], log, h);
      OfAppend(log, h, keys[0]);
      CountAppend(p, Of(log, keys[0]), h);
      assert h.route in keys <==> h.route == keys[0] || h.route in keys[1..];
    }
  }

  lemma {:induction false} HeldNone(p: Hit -> bool, keys: seq<Route>)
    ensures Held(p, keys, []) == 0
    decreases |keys|
  {
    if keys != [] { HeldNone(p, keys[1..]); }
  }

  /** Distinct buckets that cover the log hold together what the log holds, whatever is counted. */
  lemma {:induction false} Conserved(p: Hit -> bool, keys: seq<Route>, log: seq<Hit>)
    requires Distinct(keys) && Covered(log, set k | k in keys)
    ensures Held(p, keys, log) == CountIf(p, log)
    decreases |log|
  {
    if log == [] {
      HeldNone(p, keys);
    } else {
      var before, last := log[..|log| - 1], log[|log| - 1];
      Conserved(p, keys, before);
      assert before + [last] == log;
      HeldAppend(p, keys, before, last);
      CountAppend(p, before, last);
    }
  }

  function Any(h: Hit): bool { true }

  function Bad(c: Config): Hit -> bool { h => c.IsError(h) }

  lemma {:induction false} FiguresCount(c: Config, past: seq<Hit>)
    requires c.Valid()
    ensures var f := Told(c, past).0; f.requests == CountIf(Any, past) && f.errors == CountIf(Bad(c), past)
    decreases |past|
  {
    if past != [] {
      var before, h := past[..|past| - 1], past[|past| - 1];
      FiguresCount(c, before);
      assert before + [h] == past;
      CountAppend(Any, before, h);
      CountAppend(Bad(c), before, h);
    }
  }

  lemma FiguresOfRoute(c: Config, log: seq<Hit>, keys: seq<Route>)
    requires c.Valid() && keys != []
    ensures var f := Told(c, Of(log, keys[0])).0;
            && Held(Any, keys, log) == f.requests + Held(Any, keys[1..], log)
            && Held(Bad(c), keys, log) == f.errors + Held(Bad(c), keys[1..], log)
  {
    FiguresCount(c, Of(log, keys[0]));
  }

  // ------------------------------------------------------------ which bucket a request goes to

  /** The paths asked for. */
  function Paths(asked: seq<Hit>): set<Route> {
    set i | 0 <= i < |asked| :: asked[i].route
  }

  /** The first *max* different ones: these have buckets of their own. */
  function Known(max: nat, asked: seq<Hit>): set<Route> {
    if asked == [] then {}
    else
      var before := Known(max, asked[..|asked| - 1]);
      if |before| < max then before + {asked[|asked| - 1].route} else before
  }

  /** A later path came. */
  predicate Overflows(max: nat, asked: seq<Hit>) {
    asked != [] && (asked[|asked| - 1].route !in Known(max, asked) || Overflows(max, asked[..|asked| - 1]))
  }

  /** The buckets there are then. */
  function Buckets(max: nat, asked: seq<Hit>): set<Route> {
    Known(max, asked) + (if Overflows(max, asked) then {OTHER_ROUTE} else {})
  }

  /** The requests as they are counted: those of later paths together. */
  function Routed(max: nat, asked: seq<Hit>): seq<Hit> {
    if asked == [] then []
    else
      var last := asked[|asked| - 1];
      Routed(max, asked[..|asked| - 1])
      + [if last.route in Known(max, asked) then last else last.(route := OTHER_ROUTE)]
  }

  lemma {:induction false} KnownBounded(max: nat, asked: seq<Hit>)
    ensures |Known(max, asked)| <= max
    ensures Overflows(max, asked) ==> |Known(max, asked)| == max
    ensures Known(max, asked) <= Paths(asked)
    decreases |asked|
  {
    if asked != [] {
      var before, last := asked[..|asked| - 1], asked[|asked| - 1];
      KnownBounded(max, before);
      assert Paths(asked) == Paths(before) + {last.route} by { PathsAppend(before, last); }
    }
  }

  lemma PathsAppend(asked: seq<Hit>, h: Hit)
    ensures asked + [h] != [] && Paths(asked + [h]) == Paths(asked) + {h.route}
    ensures (asked + [h])[..|asked|] == asked
  {
    var more := asked + [h];
    forall r | r in Paths(asked) + {h.route} ensures r in Paths(more) {
      if r in Paths(asked) {
        var i :| 0 <= i < |asked| && asked[i].route == r;
        assert more[i].route == r;
      } else {
        assert more[|asked|].route == r;
      }
    }
  }

  lemma RoutedWithRoom(max: nat, asked: seq<Hit>, x: Hit)
    requires |Known(max, asked)| < max
    ensures var more := asked + [x];
            && Buckets(max, asked) == Known(max, asked) && Buckets(max, more) == Known(max, asked) + {x.route}
            && Routed(max, more) == Routed(max, asked) + [x]
  {
    KnownBounded(max, asked);
    assert (asked + [x])[..|asked|] == asked;
  }

  lemma RoutedWithout(max: nat, asked: seq<Hit>, x: Hit)
    requires |Known(max, asked)| >= max
    ensures var known, more := Known(max, asked), asked + [x];
            && Routed(max, more)
               == Routed(max, asked) + [if x.route in known then x else x.(route := OTHER_ROUTE)]
            && Buckets(max, more) == Buckets(max, asked) + (if x.route in known then {} else {OTHER_ROUTE})
            && |Buckets(max, asked)| >= max
            && (x.route in Buckets(max, asked) ==> x.route in known || x.route == OTHER_ROUTE)
  {
    assert (asked + [x])[..|asked|] == asked;
    var known := Known(max, asked);
    if OTHER_ROUTE in known {
      assert known + {OTHER_ROUTE} == known;
    } else {
      assert |known + {OTHER_ROUTE}| == |known| + 1;
    }
  }

  /** A path goes to its own bucket if it has one or there is room for it, and to the shared one otherwise. */
  lemma RoutedOn(max: nat, asked: seq<Hit>, x: Hit)
    ensures var keys, more := Buckets(max, asked), asked + [x];
            var bucket := if x.route in keys || |keys| < max then x.route else OTHER_ROUTE;
            && Routed(max, more) == Routed(max, asked) + [x.(route := bucket)]
            && Buckets(max, more) == keys + {bucket}
  {
    var keys := Buckets(max, asked);
    if |Known(max, asked)| < max {
      RoutedWithRoom(max, asked, x);
    } else {
      RoutedWithout(max, asked, x);
      assert x.route in keys ==> keys + {x.route} == keys;
    }
  }

  /** The table of a middleware whose requests are *asked*. */
  ghost predicate CountedAs(c: Config, past: seq<Hit>, keys: set<Route>, asked: seq<Hit>) {
    if c.perRoute then past == Routed(c.maxRoutes, asked) && keys == Buckets(c.maxRoutes, asked)
    else past == asked
  }

  lemma CountedOn(c: Config, past: seq<Hit>, keys: set<Route>, asked: seq<Hit>, x: Hit, bucket: Route)
    requires CountedAs(c, past, keys, asked)
    requires bucket == if !c.perRoute || x.route in keys || |keys| < c.maxRoutes then x.route else OTHER_ROUTE
    ensures CountedAs(c, past + [x.(route := bucket)], keys + {bucket}, asked + [x])
  {
    if c.perRoute { RoutedOn(c.maxRoutes, asked, x); }
  }

  /** As long as they are no more than *max*, every path has its own bucket and every request goes to its own path's. */
  lemma {:induction false} AllKnown(max: nat, asked: seq<Hit>)
    requires |Paths(asked)| <= max
    ensures Known(max, asked) == Paths(asked) && !Overflows(max, asked) && Routed(max, asked) == asked
    decreases |asked|
  {
    if asked != [] {
      var before, last := asked[..|asked| - 1], asked[|asked| - 1];
      assert before + [last] == asked;
      PathsAppend(before, last);
      FewerPaths(before, last.route, max);
      AllKnown(max, before);
      if |Paths(before)| == max { assert Paths(before) == Paths(asked) by { SameSize(Paths(before), Paths(asked)); } }
    }
  }

  lemma FewerPaths(asked: seq<Hit>, r: Route, max: nat)
    requires |Paths(asked) + {r}| <= max
    ensures |Paths(asked)| <= max
  {
    if r in Paths(asked) {
      assert Paths(asked) + {r} == Paths(asked);
    } else {
      assert |Paths(asked) + {r}| == |Paths(asked)| + 1;
    }
  }

  lemma SameSize(a: set<Route>, b: set<Route>)
    requires a <= b && |b| <= |a|
    ensures a == b
  {
    assert b == a + (b - a);
  }

  // ------------------------------------------------------------ the objects

  class RouteStats {
    const cfg: Config
    var figures: Figures
    var rttWindow: seq<real>
    var requestTimestamps: seq<real>
    var errorWindow: seq<bool>
    var windowErrorCount: int
    /** The requests recorded, and the route whose bucket this is: none for the aggregate. */
    ghost var past: seq<Hit>
    ghost const owner: Option<Route>

    ghost function WindowsView(): Sliding
      reads this
    {
      Sliding(rttWindow, requestTimestamps, errorWindow, windowErrorCount)
    }

    ghost predicate Valid()
      reads this
    {
      cfg.Valid() && (figures, WindowsView()) == Told(cfg, past)
    }

    constructor (cfg: Config, ghost owner: Option<Route>)
      requires cfg.Valid()
      ensures this.cfg == cfg && this.owner == owner && Valid() && past == []
    {
      this.cfg, this.owner := cfg, owner;
      figures := Figures(0, 0, 0, None);
      rttWindow, requestTimestamps, errorWindow, windowErrorCount := [], [], [], 0;
      past := [];
    }

    /** `record`, told the request *h*. */
    method Record(status: int, rtt: real, now: real, ghost h: Hit)
      requires Valid() && h == Hit(h.route, status, rtt, now)
      modifies this
      ensures Valid() && past == old(past) + [h]
    {
      ToldAppend(cfg, past, h);
      var isError := status >= cfg.minErrorStatus;
      Append(isError, rtt, now);
      Keep(isError, rtt);
      past := past + [h];
    }

    /** The lifetime figures of `record`. */
    method Keep(isError: bool, rtt: real)
      modifies this`figures
      ensures figures == AddFigures(cfg.alpha, old(figures), isError, rtt)
    {
      figures := figures.(requests := figures.requests + 1);
      if isError {
        figures := figures.(errors := figures.errors + 1, consecutive := figures.consecutive + 1);
      } else {
        figures := figures.(consecutive := 0);
      }
      figures := figures.(average := Some(CallStats.Ema(figures.average, rtt, cfg.alpha)));
    }

    /** The windows of `record`. */
    method Append(isError: bool, rtt: real, now: real)
      requires cfg.Valid() && |rttWindow| <= cfg.windowSize
      requires |requestTimestamps| <= cfg.windowSize && |errorWindow| <= cfg.windowSize
      modifies this`rttWindow, this`requestTimestamps, this`errorWindow, this`windowErrorCount
      ensures WindowsView() == Slide(cfg.windowSize, old(WindowsView()), isError, rtt, now)
    {
      requestTimestamps := Push(requestTimestamps, cfg.windowSize, now);
      if |errorWindow| == cfg.windowSize && errorWindow[0] { windowErrorCount := windowErrorCount - 1; }
      errorWindow := Push(errorWindow, cfg.windowSize, isError);
      windowErrorCount := windowErrorCount + (if isError then 1 else 0);
      rttWindow := Push(rttWindow, cfg.windowSize, rtt);
    }
  }

  /** The aggregate and the routes. */
  class Middleware {
    const cfg: Config
    const aggregate: RouteStats
    var routes: map<Route, RouteStats>
    ghost var buckets: set<RouteStats>

    /** The table is bounded, and past its bound holds `<other>`. */
    ghost predicate Bounded()
      reads this`routes
    {
      |routes| <= cfg.maxRoutes + 1 && (|routes| > cfg.maxRoutes ==> OTHER_ROUTE in routes)
    }

    ghost predicate Owned()
      reads this`routes, this`buckets, buckets
    {
      && (forall k :: k in routes ==> routes[k] in buckets)
      && (forall k :: k in routes ==> routes[k].owner == Some(k) && routes[k].cfg == cfg && routes[k].Valid())
    }

    /** Each bucket was told the requests of its route, and what has no bucket had no request. */
    ghost predicate PerRoute(log: seq<Hit>)
      reads this`routes, routes.Values
    {
      if cfg.perRoute then forall k :: if k in routes then routes[k].past == Of(log, k) else Of(log, k) == []
      else routes == map[]
    }

    /** The table when the requests of *log* were counted. */
    ghost predicate Table(log: seq<Hit>)
      reads this`routes, this`buckets, buckets
    {
      cfg.Valid() && Bounded() && Owned() && PerRoute(log)
    }

    /** The aggregate is no route's bucket. */
    ghost predicate Aggregate()
      reads this`buckets, buckets
    {
      aggregate in buckets && aggregate.owner == None && aggregate.cfg == cfg && aggregate.Valid()
    }

    /** Aggregate and table were told the same requests. */
    ghost predicate Valid()
      reads this`routes, this`buckets, buckets
    {
      Aggregate() && Table(aggregate.past)
    }

    /** They are those of *asked*, which has the paths asked for, counted by these as far as there is room. */
    ghost predicate Counted(asked: seq<Hit>)
      reads this`routes, aggregate
    {
      CountedAs(cfg, aggregate.past, routes.Keys, asked)
    }

    constructor (cfg: Config)
      requires cfg.Valid()
      ensures Valid() && this.cfg == cfg && aggregate.past == [] && Counted([]) && fresh(buckets)
    {
      this.cfg := cfg;
      aggregate := new RouteStats(cfg, None);
      routes, buckets := map[], {aggregate};
    }

    /** Where a request for *path* is counted. */
    ghost function Bucket(path: Route): Route
      reads this`routes
    {
      if path in routes || |routes| < cfg.maxRoutes then path else OTHER_ROUTE
    }

    /** `_get_or_create`: known routes keep their bucket, new ones past the bound share `<other>`. */
    method GetOrCreate(path: Route, ghost log: seq<Hit>) returns (stats: RouteStats)
      requires Table(log) && cfg.perRoute
      modifies this`routes, this`buckets
      ensures Table(log) && old(buckets) <= buckets && fresh(buckets - old(buckets))
      ensures old(Bucket(path)) in routes && stats == routes[old(Bucket(path))]
      ensures routes == old(routes) || (old(Bucket(path)) !in old(routes) && fresh(stats)
              && routes == old(routes)[old(Bucket(path)) := stats])
      ensures routes.Keys == old(routes.Keys) + {old(Bucket(path))}
      ensures path in old(routes) ==> stats == old(routes)[path]
      ensures path !in old(routes) && |old(routes)| < cfg.maxRoutes ==> path in routes && stats == routes[path]
      ensures path !in old(routes) && |old(routes)| >= cfg.maxRoutes ==>
                OTHER_ROUTE in routes && stats == routes[OTHER_ROUTE]
    {
      var key := path;
      if path in routes { return routes[path]; }
      if path !in routes && |routes| >= cfg.maxRoutes { key := OTHER_ROUTE; }
      if key in routes {
        stats := routes[key];
      } else {
        stats := Create(key, log);
      }
    }

    /** A bucket for a route that has none: the room for it is there. */
    method Create(key: Route, ghost log: seq<Hit>) returns (stats: RouteStats)
      requires Table(log) && cfg.perRoute && key !in routes && (|routes| < cfg.maxRoutes || key == OTHER_ROUTE)
      modifies this`routes, this`buckets
      ensures Table(log) && buckets == old(buckets) + {stats} && fresh(stats) && routes == old(routes)[key := stats]
    {
      stats := new RouteStats(cfg, Some(key));
      Enter(key, stats, log);
    }

    method Enter(key: Route, stats: RouteStats, ghost log: seq<Hit>)
      requires Table(log) && cfg.perRoute && key !in routes && (|routes| < cfg.maxRoutes || key == OTHER_ROUTE)
      requires stats.owner == Some(key) && stats.cfg == cfg && stats.Valid() && stats.past == []
      modifies this`routes, this`buckets
      ensures Table(log) && buckets == old(buckets) + {stats} && routes == old(routes)[key := stats]
    {
      routes := routes[key := stats];
      buckets := buckets + {stats};
      assert Bounded();
      assert Owned();
    }

    /** One more request for a bucket of the table. */
    method Tell(stats: RouteStats, status: int, rtt: real, now: real, ghost h: Hit, ghost log: seq<Hit>)
      requires Table(log) && cfg.perRoute && h == Hit(h.route, status, rtt, now)
      requires h.route in routes && stats == routes[h.route]
      modifies stats
      ensures Table(log + [h])
    {
      TellBucket(stats, status, rtt, now, h);
      forall k ensures if k in routes then routes[k].past == Of(log + [h], k) else Of(log + [h], k) == [] {
        OfAppend(log, h, k);
      }
    }

    /** Only that bucket notices. */
    method TellBucket(stats: RouteStats, status: int, rtt: real, now: real, ghost h: Hit)
      requires Owned() && h == Hit(h.route, status, rtt, now) && h.route in routes && stats == routes[h.route]
      modifies stats
      ensures Owned() && stats.past == old(stats.past) + [h]
      ensures forall k :: k in routes && k != h.route ==> routes[k].past == old(routes[k].past)
    {
      stats.Record(status, rtt, now, h);
    }

    /** The aggregate first: no bucket of a route notices. */
    method TellAggregate(status: int, rtt: real, now: real, ghost h: Hit)
      requires Valid() && h == Hit(h.route, status, rtt, now)
      modifies aggregate
      ensures Aggregate() && aggregate.past == old(aggregate.past) + [h]
      ensures Table(old(aggregate.past))
    {
      aggregate.Record(status, rtt, now, h);
    }

    /** Then the bucket of the route: the aggregate does not notice. */
    method TellRoute(path: Route, status: int, rtt: real, now: real, ghost h: Hit, ghost log: seq<Hit>)
      requires Table(log) && Aggregate() && cfg.perRoute && h == Hit(Bucket(path), status, rtt, now)
      modifies this`routes, this`buckets, buckets
      ensures Table(log + [h]) && fresh(buckets - old(buckets))
      ensures Aggregate() && aggregate.past == old(aggregate.past)
      ensures routes.Keys == old(routes.Keys) + {h.route}
    {
      var stats := GetOrCreate(path, log);
      Tell(stats, status, rtt, now, h, log);
    }

    /**
      `_record`: a request of the health routes leaves no trace; any other joins
      the aggregate and, when routes are kept, exactly one bucket.
    */
    method Record(health: bool, path: Route, status: int, rtt: real, now: real, ghost asked: seq<Hit>)
      requires Valid() && Counted(asked)
      modifies this`routes, this`buckets, buckets
      ensures Valid() && fresh(buckets - old(buckets))
      ensures Counted(asked + if health then [] else [Hit(path, status, rtt, now)])
      ensures health ==> aggregate.past == old(aggregate.past) && routes == old(routes)
      ensures !health ==> aggregate.past == old(aggregate.past)
                          + [Hit(if cfg.perRoute then old(Bucket(path)) else path, status, rtt, now)]
    {
      if health {
        assert asked + [] == asked;
        return;
      }
      ghost var bucket, x := if cfg.perRoute then Bucket(path) else path, Hit(path, status, rtt, now);
      assert |routes| == |routes.Keys|;
      CountedOn(cfg, aggregate.past, routes.Keys, asked, x, bucket);
      RecordCounted(path, status, rtt, now, x.(route := bucket));
    }

    lemma TableWithoutRoutes(log: seq<Hit>, more: seq<Hit>)
      requires Table(log) && !cfg.perRoute
      ensures Table(more)
    {
    }

    /** The table, when routes are kept. */
    method TellTable(path: Route, status: int, rtt: real, now: real, ghost h: Hit, ghost log: seq<Hit>)
      requires Table(log) && Aggregate() && h == Hit(if cfg.perRoute then Bucket(path) else path, status, rtt, now)
      modifies this`routes, this`buckets, buckets
      ensures Table(log + [h]) && fresh(buckets - old(buckets))
      ensures Aggregate() && aggregate.past == old(aggregate.past)
      ensures routes.Keys == if cfg.perRoute then old(routes.Keys) + {h.route} else old(routes.Keys)
    {
      if cfg.perRoute {
        TellRoute(path, status, rtt, now, h, log);
      } else {
        TableWithoutRoutes(log, log + [h]);
      }
    }

    /** The aggregate, and the bucket of its path. */
    method RecordCounted(path: Route, status: int, rtt: real, now: real, ghost h: Hit)
      requires Valid() && h == Hit(if cfg.perRoute then Bucket(path) else path, status, rtt, now)
      modifies this`routes, this`buckets, buckets
      ensures Valid() && fresh(buckets - old(buckets)) && aggregate.past == old(aggregate.past) + [h]
      ensures routes.Keys == if cfg.perRoute then old(routes.Keys) + {h.route} else old(routes.Keys)
    {
      ghost var log := aggregate.past;
      TellAggregate(status, rtt, now, h);
      TellTable(path, status, rtt, now, h, log);
    }

    /** While at most *maxRoutes* different paths were asked for, each has a bucket, told exactly its own requests. */
    lemma EachPathItsOwn(asked: seq<Hit>)
      requires Valid() && Counted(asked) && cfg.perRoute && |Paths(asked)| <= cfg.maxRoutes
      ensures routes.Keys == Paths(asked) && forall k :: k in routes ==> routes[k].past == Of(asked, k)
    {
      AllKnown(cfg.maxRoutes, asked);
    }

    /** The requests that the buckets of *keys* report together. */
    ghost function Requests(keys: seq<Route>): nat
      requires forall k :: k in keys ==> k in routes
      reads this, routes.Values
    {
      if keys == [] then 0 else routes[keys[0]].figures.requests + Requests(keys[1..])
    }

    ghost function Errors(keys: seq<Route>): nat
      requires forall k :: k in keys ==> k in routes
      reads this, routes.Values
    {
      if keys == [] then 0 else routes[keys[0]].figures.errors + Errors(keys[1..])
    }

    lemma {:induction false} ReportedIsHeld(keys: seq<Route>, log: seq<Hit>)
      requires cfg.Valid()
      requires forall k :: k in keys ==> k in routes && routes[k].figures == Told(cfg, Of(log, k)).0
      ensures Requests(keys) == Held(Any, keys, log) && Errors(keys) == Held(Bad(cfg), keys, log)
      decreases |keys|
    {
      if keys != [] {
        FiguresOfRoute(cfg, log, keys);
        ReportedIsHeld(keys[1..], log);
      }
    }

    /** The routes' requests and errors add up to the aggregate's, in a table of at most `max_routes` + 1. */
    lemma RoutesSumToAggregate(keys: seq<Route>)
      requires Valid() && cfg.perRoute && Distinct(keys) && forall k :: k in keys <==> k in routes
      ensures Requests(keys) == aggregate.figures.requests && Errors(keys) == aggregate.figures.errors
      ensures |routes| <= cfg.maxRoutes + 1
    {
      var log := aggregate.past;
      ReportedIsHeld(keys, log);
      FiguresCount(cfg, log);
      CoveredIf(log, set k | k in keys);
      Conserved(Any, keys, log);
      Conserved(Bad(cfg), keys, log);
    }
  }
}
