/**
  `_fit`: a result cut to a byte budget.  The largest details go first, then the
  free-text fields, then most of the error; lengths are those of the JSON text.
*/
module FitEntry {
  import opened Options

  datatype Key = Key(text: string)

  /** One entry of `details`, with the JSON lengths of its key and its value. */
  datatype Detail = Detail(key: Key, keyJson: nat, valueJson: nat) {
    /** With the colon, and the comma or brace that follows. */
    function Size(): nat { keyJson + valueJson + 2 }
  }

  /** A Unicode code point. */
  type Char = c: int | 0 <= c < 0x110000

  /**
    A result; *fixed* is the JSON length of the name, the fields never cut and
    the punctuation between all fields, *description* and *tags* those of their values.
  */
  datatype Result = Result(
    fixed: nat, details: Option<seq<Detail>>, description: nat, tags: nat, error: Option<seq<Char>>)

  const TRUNCATED := Key("_truncated")
  const MARKER := Detail(TRUNCATED, 12, 4)
  const NULL := 4
  const NO_TAGS := 2
  const DOTS: seq<Char> := [0x2E, 0x2E, 0x2E]

  // ------------------------------------------------------------ lengths

  function Sum(ds: seq<Detail>): nat {
    if ds == [] then 0 else ds[0].Size() + Sum(ds[1..])
  }

  function DetailsJson(details: Option<seq<Detail>>): nat {
    match details
    case None => NULL
    case Some(ds) => if ds == [] then 2 else 1 + Sum(ds)
  }

  function Utf8(c: Char): (n: nat)
    ensures 1 <= n <= 4
  {
    if c < 0x80 then 1 else if c < 0x800 then 2 else if c < 0x10000 then 3 else 4
  }

  /** Quotes, backslashes and control characters are escaped; the rest is plain UTF-8. */
  function Json(c: Char): nat {
    if c == 0x22 || c == 0x5C || c == 0x08 || c == 0x09 || c == 0x0A || c == 0x0C || c == 0x0D then 2
    else if c < 0x20 then 6
    else Utf8(c)
  }

  function Utf8Length(text: seq<Char>): nat {
    if text == [] then 0 else Utf8(text[0]) + Utf8Length(text[1..])
  }

  function JsonLength(text: seq<Char>): nat {
    if text == [] then 0 else Json(text[0]) + JsonLength(text[1..])
  }

  function ErrorJson(error: Option<seq<Char>>): nat {
    if error.None? then NULL else 2 + JsonLength(error.value)
  }

  function Length(r: Result): nat {
    r.fixed + DetailsJson(r.details) + r.description + r.tags + ErrorJson(r.error)
  }

  // ------------------------------------------------------------ cutting a text

  /** `text.encode()[:keep].decode("utf-8", "ignore")`: a character cut in two is dropped. */
  function Cut(text: seq<Char>, keep: nat): seq<Char> {
    if text == [] || Utf8(text[0]) > keep then [] else [text[0]] + Cut(text[1..], keep - Utf8(text[0]))
  }

  /** The longest prefix of at most *keep* bytes. */
  lemma {:induction false} CutIsPrefix(text: seq<Char>, keep: nat)
    ensures Cut(text, keep) <= text && Utf8Length(Cut(text, keep)) <= keep
    ensures var n := |Cut(text, keep)|; n < |text| ==> Utf8Length(Cut(text, keep)) + Utf8(text[n]) > keep
    decreases |text|
  {
    if text != [] && Utf8(text[0]) <= keep {
      CutIsPrefix(text[1..], keep - Utf8(text[0]));
      assert Cut(text, keep)[1..] == Cut(text[1..], keep - Utf8(text[0]));
    }
  }

  /** Escaping never shortens, so what is cut shortens the JSON by at least the bytes cut. */
  lemma {:induction false} CutShortens(text: seq<Char>, keep: nat)
    ensures JsonLength(Cut(text, keep)) + Utf8Length(text) <= JsonLength(text) + Utf8Length(Cut(text, keep))
    decreases |text|
  {
    if text == [] {
    } else if Utf8(text[0]) <= keep {
      CutShortens(text[1..], keep - Utf8(text[0]));
      assert Cut(text, keep)[1..] == Cut(text[1..], keep - Utf8(text[0]));
    } else {
      CutShortens(text[1..], 0);
      assert Cut(text[1..], 0) == [];
    }
  }

  lemma {:induction false} JsonAppend(a: seq<Char>, b: seq<Char>)
    ensures JsonLength(a + b) == JsonLength(a) + JsonLength(b)
    decreases |a|
  {
    if a == [] {
      assert a + b == b;
    } else {
      JsonAppend(a[1..], b);
      assert (a + b)[1..] == a[1..] + b;
    }
  }

  // ------------------------------------------------------------ the details

  /** Keys of a dictionary occur once. */
  ghost predicate Distinct(ds: seq<Detail>) {
    forall i, j :: 0 <= i < j < |ds| ==> ds[i].key != ds[j].key
  }

  ghost predicate Descending(ds: seq<Detail>) {
    forall i, j :: 0 <= i < j < |ds| ==> ds[i].Size() >= ds[j].Size()
  }

  ghost predicate SameItems(a: seq<Detail>, b: seq<Detail>) {
    forall d :: d in a <==> d in b
  }

  function Insert(d: Detail, ds: seq<Detail>): seq<Detail> {
    if ds == [] || d.Size() >= ds[0].Size() then [d] + ds else [ds[0]] + Insert(d, ds[1..])
  }

  /** `sorted(..., reverse=True)`: stable, largest first. */
  function LargestFirst(ds: seq<Detail>): seq<Detail> {
    if ds == [] then [] else Insert(ds[0], LargestFirst(ds[1..]))
  }

  lemma {:induction false} InsertItems(d: Detail, ds: seq<Detail>)
    ensures forall e :: e in Insert(d, ds) <==> e == d || e in ds
    decreases |ds|
  {
    if ds != [] && d.Size() < ds[0].Size() {
      InsertItems(d, ds[1..]);
      assert ds == [ds[0]] + ds[1..];
    }
  }

  lemma {:induction false} InsertDescends(d: Detail, ds: seq<Detail>)
    requires Descending(ds)
    ensures Descending(Insert(d, ds))
    decreases |ds|
  {
    if ds != [] && d.Size() < ds[0].Size() {
      InsertDescends(d, ds[1..]);
      InsertItems(d, ds[1..]);
      var rest := Insert(d, ds[1..]);
      forall i | 0 <= i < |rest| ensures ds[0].Size() >= rest[i].Size() { assert rest[i] in rest; }
    }
  }

  lemma {:induction false} InsertDistinct(d: Detail, ds: seq<Detail>)
    requires Distinct(ds) && forall e :: e in ds ==> e.key != d.key
    ensures Distinct(Insert(d, ds))
    decreases |ds|
  {
    if ds != [] && d.Size() < ds[0].Size() {
      InsertDistinct(d, ds[1..]);
      InsertItems(d, ds[1..]);
      var rest := Insert(d, ds[1..]);
      forall i | 0 <= i < |rest| ensures ds[0].key != rest[i].key { assert rest[i] in rest; }
    } else {
      assert forall i :: 0 <= i < |ds| ==> ds[i] in ds;
    }
  }

  lemma {:induction false} Sorts(ds: seq<Detail>)
    requires Distinct(ds)
    ensures Descending(LargestFirst(ds)) && Distinct(LargestFirst(ds)) && SameItems(LargestFirst(ds), ds)
    decreases |ds|
  {
    if ds != [] {
      var rest := LargestFirst(ds[1..]);
      Sorts(ds[1..]);
      InsertItems(ds[0], rest);
      assert ds == [ds[0]] + ds[1..];
      forall e | e in rest ensures e.key != ds[0].key { assert e in ds[1..]; }
      InsertDescends(ds[0], rest);
      InsertDistinct(ds[0], rest);
    }
  }

  /** `del details[key]`. */
  function Without(ds: seq<Detail>, key: Key): seq<Detail> {
    if ds == [] then []
    else if ds[0].key == key then Without(ds[1..], key)
    else [ds[0]] + Without(ds[1..], key)
  }

  lemma {:induction false} WithoutItems(ds: seq<Detail>, key: Key)
    ensures forall e :: e in Without(ds, key) <==> e in ds && e.key != key
    decreases |ds|
  {
    if ds != [] {
      WithoutItems(ds[1..], key);
      assert ds == [ds[0]] + ds[1..];
    }
  }

  lemma {:induction false} WithoutAbsent(ds: seq<Detail>, key: Key)
    requires forall e :: e in ds ==> e.key != key
    ensures Without(ds, key) == ds
    decreases |ds|
  {
    if ds != [] { WithoutAbsent(ds[1..], key); }
  }

  lemma {:induction false} WithoutDistinct(ds: seq<Detail>, key: Key)
    requires Distinct(ds)
    ensures Distinct(Without(ds, key))
    decreases |ds|
  {
    if ds != [] {
      WithoutDistinct(ds[1..], key);
      WithoutItems(ds[1..], key);
      var rest := Without(ds[1..], key);
      forall i | 0 <= i < |rest| ensures rest[i].key != ds[0].key { assert rest[i] in rest && rest[i] in ds[1..]; }
    }
  }

  lemma {:induction false} WithoutSum(ds: seq<Detail>, d: Detail)
    requires Distinct(ds) && d in ds
    ensures Sum(Without(ds, d.key)) == Sum(ds) - d.Size()
    decreases |ds|
  {
    if ds[0] == d {
      forall e | e in ds[1..] ensures e.key != d.key {}
      WithoutAbsent(ds[1..], d.key);
    } else {
      assert d in ds[1..];
      WithoutSum(ds[1..], d);
      assert Without(ds, d.key)[1..] == Without(ds[1..], d.key);
    }
  }

  lemma {:induction false} WithoutShrinks(ds: seq<Detail>, key: Key)
    ensures Sum(Without(ds, key)) <= Sum(ds)
    decreases |ds|
  {
    if ds != [] {
      WithoutShrinks(ds[1..], key);
      assert ds[0].key != key ==> Without(ds, key)[1..] == Without(ds[1..], key);
    }
  }

  lemma {:induction false} SumAppend(ds: seq<Detail>, d: Detail)
    ensures Sum(ds + [d]) == Sum(ds) + d.Size()
    decreases |ds|
  {
    if ds != [] {
      SumAppend(ds[1..], d);
      assert (ds + [d])[1..] == ds[1..] + [d];
    } else {
      assert ds + [d] == [d];
    }
  }

  /** The entries whose keys are in *keys*, in their order. */
  function Restrict(ds: seq<Detail>, keys: set<Key>): seq<Detail> {
    if ds == [] then []
    else if ds[0].key in keys then [ds[0]] + Restrict(ds[1..], keys)
    else Restrict(ds[1..], keys)
  }

  lemma {:induction false} RestrictAll(ds: seq<Detail>, keys: set<Key>)
    requires forall d :: d in ds ==> d.key in keys
    ensures Restrict(ds, keys) == ds
    decreases |ds|
  {
    if ds != [] { RestrictAll(ds[1..], keys); }
  }

  lemma {:induction false} RestrictLess(ds: seq<Detail>, keys: set<Key>, key: Key)
    ensures Without(Restrict(ds, keys), key) == Restrict(ds, keys - {key})
    decreases |ds|
  {
    if ds != [] {
      RestrictLess(ds[1..], keys, key);
      assert ds[0].key in keys ==> Restrict(ds, keys)[1..] == Restrict(ds[1..], keys);
    }
  }

  function Keys(ds: seq<Detail>): set<Key> {
    set d | d in ds :: d.key
  }

  // ------------------------------------------------------------ the stages

  /** The details that may be dropped: all but a marker left by an earlier cut. */
  function Values(r: Result): seq<Detail> {
    Without(r.details.GetOr([]), TRUNCATED)
  }

  function WithDetails(r: Result, kept: seq<Detail>): Result {
    r.(details := Some(kept + [MARKER]))
  }

  /** No details, description or tags. */
  function Bare(r: Result): Result {
    r.(details := Some([MARKER]), description := NULL, tags := NO_TAGS)
  }

  /** The shortest that an error can be made: a text that is there leaves its dots. */
  function LeastLength(r: Result): nat {
    r.fixed + DetailsJson(Some([MARKER])) + NULL + NO_TAGS
    + match r.error
      case None => NULL
      case Some(text) => if text == [] then 2 else 2 + |DOTS|
  }

  /** What the marker of an earlier cut took. */
  function OldMarker(r: Result): nat {
    WithoutShrinks(r.details.GetOr([]), TRUNCATED);
    Sum(r.details.GetOr([])) - Sum(Values(r))
  }

  ghost predicate IsDict(r: Result) { r.details.Some? ==> Distinct(r.details.value) }

  lemma CandidateLength(r: Result, kept: seq<Detail>)
    ensures Length(WithDetails(r, kept)) == r.fixed + 19 + Sum(kept) + r.description + r.tags + ErrorJson(r.error)
  {
    SumAppend(kept, MARKER);
  }

  /**
    The estimate of the first loop never errs on the wrong side: a candidate is
    at most 20 bytes longer than the original less what was dropped.
  */
  lemma EstimateSuffices(r: Result, kept: seq<Detail>)
    requires Sum(kept) <= Sum(Values(r))
    ensures Length(WithDetails(r, kept)) + Sum(Values(r)) - Sum(kept) <= Length(r) + 20
    ensures Values(r) != [] ==>
        Length(WithDetails(r, kept)) + OldMarker(r) == Length(r) + 18 - (Sum(Values(r)) - Sum(kept))
  {
    CandidateLength(r, kept);
    WithoutShrinks(r.details.GetOr([]), TRUNCATED);
  }

  /** One entry of the remaining ones is dropped: the largest. */
  lemma DropFirst(all: seq<Detail>, kept: seq<Detail>, left: seq<Detail>)
    requires left != [] && Distinct(left) && Descending(left) && Distinct(kept) && SameItems(kept, left)
    requires kept == Restrict(all, Keys(left))
    ensures var less := Without(kept, left[0].key);
            && Distinct(less) && SameItems(less, left[1..]) && Sum(less) == Sum(kept) - left[0].Size()
            && less == Restrict(all, Keys(left[1..])) && |left[1..]| < |left|
  {
    var d, less := left[0], Without(kept, left[0].key);
    assert d in left;
    WithoutItems(kept, d.key);
    WithoutDistinct(kept, d.key);
    WithoutSum(kept, d);
    RestrictLess(all, Keys(left), d.key);
    assert left == [d] + left[1..];
    forall e | e in left[1..] ensures e.key != d.key {}
    assert Keys(left) - {d.key} == Keys(left[1..]);
  }

  /** What stays is smaller than what went, in the order it had. */
  ghost predicate Greedy(all: seq<Detail>, kept: seq<Detail>) {
    && kept == Restrict(all, Keys(kept))
    && (forall d, e :: d in all && d !in kept && e in kept ==> d.Size() >= e.Size())
  }

  /** Nothing was dropped that could stay: but for the estimate's slack, none of it fits back. */
  ghost predicate Thrifty(r: Result, kept: seq<Detail>, budget: int) {
    forall d :: d in Values(r) && d !in kept ==>
        Length(WithDetails(r, kept)) + d.Size() + 2 + OldMarker(r) > budget
  }

  /** The details after some of the largest were dropped; *left* can still be, largest first. */
  ghost predicate Dropped(r: Result, kept: seq<Detail>, left: seq<Detail>, budget: int) {
    && Distinct(left) && Descending(left) && Distinct(kept) && SameItems(kept, left)
    && kept == Restrict(Values(r), Keys(left)) && Greedy(Values(r), kept) && Thrifty(r, kept, budget)
    && Sum(kept) <= Sum(Values(r))
  }

  lemma DropStart(r: Result, left: seq<Detail>, budget: int)
    requires IsDict(r) && left == LargestFirst(Values(r))
    ensures Dropped(r, Values(r), left, budget)
  {
    var all := Values(r);
    WithoutDistinct(r.details.GetOr([]), TRUNCATED);
    Sorts(all);
    forall d | d in all ensures d.key in Keys(left) && d.key in Keys(all) {}
    RestrictAll(all, Keys(left));
    RestrictAll(all, Keys(all));
  }

  /** All that is gone with the next entry is at least as large as it, and all that stays at most. */
  lemma LargestGoes(all: seq<Detail>, kept: seq<Detail>, left: seq<Detail>)
    requires left != [] && Descending(left) && Distinct(kept) && SameItems(kept, left) && Greedy(all, kept)
    ensures var d, less := left[0], Without(kept, left[0].key);
            && (forall e :: e in all && e !in less ==> e.Size() >= d.Size())
            && (forall e :: e in less ==> d.Size() >= e.Size())
  {
    var d, less := left[0], Without(kept, left[0].key);
    assert d in left;
    WithoutItems(kept, d.key);
    forall e | e in all && e !in less ensures e.Size() >= d.Size() {
      if e in kept { DistinctKeys(kept, e, d); }
    }
  }

  lemma DropStep(r: Result, kept: seq<Detail>, left: seq<Detail>, budget: int)
    requires Dropped(r, kept, left, budget) && left != []
    requires Length(WithDetails(r, kept)) + 2 + OldMarker(r) > budget
    ensures var less := Without(kept, left[0].key);
            && Dropped(r, less, left[1..], budget)
            && Sum(less) == Sum(kept) - left[0].Size()
            && Length(WithDetails(r, less)) == Length(WithDetails(r, kept)) - left[0].Size()
  {
    var less := Without(kept, left[0].key);
    DropFirst(Values(r), kept, left);
    SameKeys(less, left[1..]);
    LargestGoes(Values(r), kept, left);
    CandidateLength(r, kept);
    CandidateLength(r, less);
  }

  lemma SameKeys(a: seq<Detail>, b: seq<Detail>)
    requires SameItems(a, b)
    ensures Keys(a) == Keys(b)
  {
  }

  lemma DistinctKeys(ds: seq<Detail>, a: Detail, b: Detail)
    requires Distinct(ds) && a in ds && b in ds && a.key == b.key
    ensures a == b
  {
  }

  /** The first loop drops the largest values until the estimate fits; then the result does. */
  method DropByEstimate(r: Result, budget: int) returns (kept: seq<Detail>, left: seq<Detail>)
    requires IsDict(r) && Length(r) > budget
    ensures Dropped(r, kept, left, budget)
    ensures left != [] ==> Length(WithDetails(r, kept)) <= budget
  {
    kept := Values(r);
    left := LargestFirst(kept);
    var excess := Length(r) + 20 - budget;
    DropStart(r, left, budget);
    while left != [] && excess > 0
      invariant Dropped(r, kept, left, budget)
      invariant excess == Length(r) + 20 - budget - (Sum(Values(r)) - Sum(kept))
      decreases |left|
    {
      EstimateSuffices(r, kept);
      DropStep(r, kept, left, budget);
      kept, excess, left := Without(kept, left[0].key), excess - left[0].Size(), left[1..];
    }
    EstimateSuffices(r, kept);
  }

  /** The two loops over the details; the second one would go on where the estimate was short. */
  method DropDetails(r: Result, budget: int) returns (kept: seq<Detail>)
    requires IsDict(r) && Length(r) > budget
    ensures Greedy(Values(r), kept) && Thrifty(r, kept, budget)
    ensures Length(WithDetails(r, kept)) <= budget || kept == []
  {
    var left;
    kept, left := DropByEstimate(r, budget);
    while Length(WithDetails(r, kept)) > budget && left != []
      invariant Dropped(r, kept, left, budget)
      decreases |left|
    {
      DropStep(r, kept, left, budget);
      kept, left := Without(kept, left[0].key), left[1..];
    }
    if left == [] { assert forall d :: d !in kept; }
  }

  // ------------------------------------------------------------ the whole cut

  /** The shortened error: as much as the budget leaves, then dots. */
  function Shortened(text: seq<Char>, over: nat): seq<Char> {
    var room := Utf8Length(text) - over - |DOTS|;
    Cut(text, if room > 0 then room else 0) + DOTS
  }

  /** Shortening by *over* bytes does, unless only the dots are left. */
  lemma ShortenedSuffices(text: seq<Char>, over: nat)
    ensures JsonLength(Shortened(text, over)) + over <= JsonLength(text) || Shortened(text, over) == DOTS
    ensures JsonLength(Shortened(text, over)) >= JsonLength(DOTS) == |DOTS|
  {
    var room := Utf8Length(text) - over - |DOTS|;
    var keep := if room > 0 then room else 0;
    JsonAppend(Cut(text, keep), DOTS);
    assert JsonLength(DOTS) == 3 by { assert DOTS[1..] == [0x2E, 0x2E] && DOTS[1..][1..] == [0x2E]; }
    CutIsPrefix(text, keep);
    CutShortens(text, keep);
    if room <= 0 { Nothing(text); }
  }

  lemma Nothing(text: seq<Char>)
    ensures Cut(text, 0) == []
  {
  }

  /** What a cut of the details may be: nothing but the largest is gone, and no more than has to. */
  ghost predicate DetailsCut(r: Result, out: Result, budget: int) {
    && out.details.Some? && out.details.value != []
    && var kept := out.details.value[..|out.details.value| - 1];
       out == WithDetails(r, kept) && Greedy(Values(r), kept) && Thrifty(r, kept, budget)
  }

  /** As many whole characters from the start of *text* as go into *room* bytes; none when that is negative. */
  ghost predicate LongestPrefix(prefix: seq<Char>, text: seq<Char>, room: int) {
    if room < 0 then prefix == []
    else
      && prefix <= text && Utf8Length(prefix) <= room
      && (|prefix| < |text| ==> Utf8Length(prefix) + Utf8(text[|prefix|]) > room)
  }

  /** What is over the budget once details, description and tags are gone. */
  function Excess(r: Result, budget: int): int {
    Length(Bare(r)) - budget
  }

  /**
    What is left when that is not enough: a whole error when it fits without
    details, description and tags, and otherwise as much of it as the excess and
    the dots leave room for, with the dots behind it.
  */
  ghost predicate TextCut(r: Result, out: Result, budget: int) {
    && out == Bare(r).(error := out.error)
    && if Excess(r, budget) <= 0 || r.error.None? || r.error.value == [] then out.error == r.error
       else
         && out.error.Some? && |out.error.value| >= |DOTS|
         && var text, kept := r.error.value, |out.error.value| - |DOTS|;
            && out.error.value[kept..] == DOTS
            && LongestPrefix(out.error.value[..kept], text, Utf8Length(text) - Excess(r, budget) - |DOTS|)
  }

  lemma CutIsLongest(text: seq<Char>, room: int)
    ensures LongestPrefix(Cut(text, if room > 0 then room else 0), text, room)
  {
    CutIsPrefix(text, if room > 0 then room else 0);
    if room < 0 { Nothing(text); }
  }

  /**
    A result that fits is unchanged; otherwise the details are cut when that is
    enough, and the texts too when it is not.  The outcome is over the budget
    exactly when none of the stages can fit, and then it is the shortest there is.
  */
  method Fit(r: Result, budget: int) returns (out: Result, length: nat)
    requires IsDict(r)
    ensures length == Length(out)
    ensures Length(r) <= budget ==> out == r
    ensures Length(r) > budget && Length(WithDetails(r, [])) <= budget ==> DetailsCut(r, out, budget)
    ensures Length(r) > budget && Length(WithDetails(r, [])) > budget ==>
        TextCut(r, out, budget) && (Length(Bare(r)) <= budget ==> out == Bare(r))
    ensures length <= budget
            <==> Length(r) <= budget || Length(WithDetails(r, [])) <= budget
                 || Length(Bare(r)) <= budget || LeastLength(r) <= budget
    ensures length > budget ==> length == LeastLength(r)
  {
    if Length(r) <= budget { return r, Length(r); }
    var kept := DropDetails(r, budget);
    CandidateLength(r, kept);
    CandidateLength(r, []);
    out := WithDetails(r, kept);
    length := Length(out);
    if length <= budget {
      assert out.details.value[..|kept|] == kept;
      return;
    }
    out := Bare(r);
    length := Length(out);
    assert [] + [MARKER] == [MARKER];
    if length > budget && out.error.Some? && out.error.value != [] {
      var text := out.error.value;
      ghost var over := length - budget;
      ShortenedSuffices(text, over);
      var room := Utf8Length(text) - (length - budget) - 3;
      out := out.(error := Some(Cut(text, if room > 0 then room else 0) + DOTS));
      assert out.error.value == Shortened(text, over);
      CutIsLongest(text, room);
      assert out.error.value[..|out.error.value| - 3] == Cut(text, if room > 0 then room else 0);
      length := Length(out);
    }
  }

  /** Whatever the excess, shortening makes a text longer exactly if that is shorter than the dots alone. */
  lemma ShortErrorGrows(text: seq<Char>, over: nat)
    ensures JsonLength(Shortened(text, over)) > JsonLength(text) <==> JsonLength(text) < |DOTS|
    ensures JsonLength(text) < |DOTS| ==> Shortened(text, over) == DOTS
  {
    ShortenedSuffices(text, over);
  }
}
