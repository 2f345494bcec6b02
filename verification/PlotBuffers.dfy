/**
  The two buffers behind the realtime plots.  Coordinates are reals: rounding is not the
  point here.
 */
module PlotBuffers {

  datatype Point = Point(x: real, y: real)

  // ---------------------------------------------------------------------------
  // ScrollingBuffer: a ring of MaxSize points, overwritten from Offset on.

  /** What the plot draws: all of `data`, starting at `offset` and wrapping around. */
  function View(data: seq<Point>, offset: nat): seq<Point>
    requires offset <= |data|
  {
    data[offset..] + data[..offset]
  }

  /** The last `n` points, or all of them. */
  function Recent(history: seq<Point>, n: nat): seq<Point> {
    if |history| <= n then history else history[|history| - n..]
  }

  lemma RecentSnoc(history: seq<Point>, p: Point, n: nat)
    requires n > 0
    ensures |history| < n ==> Recent(history + [p], n) == Recent(history, n) + [p]
    ensures |history| >= n ==> Recent(history + [p], n) == Recent(history, n)[1..] + [p]
  {
  }

  lemma OverwriteRotates(data: seq<Point>, offset: nat, p: Point)
    requires offset < |data|
    ensures View(data[offset := p], (offset + 1) % |data|) == View(data, offset)[1..] + [p]
  {
    var n := |data|;
    ModOnce(offset + 1, n);
    if offset + 1 < n {
      assert data[offset := p][offset + 1..] == data[offset + 1..] == data[offset..][1..];
      assert data[offset := p][..offset + 1] == data[..offset] + [p];
    } else {
      assert data[offset := p] == data[..offset] + [p];
      assert View(data, offset)[1..] == data[..offset];
    }
  }

  class ScrollingBuffer {
    const maxSize: int
    var offset: nat
    var data: seq<Point>
    ghost var history: seq<Point>     // points added since the last Erase

    ghost predicate Valid()
      reads this
    {
      if maxSize <= 0 then offset == 0 && data == [] && history == []
      else
        && |data| <= maxSize
        && (if |data| < maxSize then offset == 0 else offset < maxSize)
        && View(data, offset) == Recent(history, maxSize)
    }

    constructor (maxSize: int)
      ensures Valid() && this.maxSize == maxSize && history == []
    {
      this.maxSize := maxSize;
      offset, data, history := 0, [], [];
    }

    /** Without room for a single point the code writes outside the buffer. */
    method AddPoint(x: real, y: real)
      requires Valid() && maxSize > 0
      modifies this
      ensures Valid() && history == old(history) + [Point(x, y)]
    {
      var p := Point(x, y);
      RecentSnoc(history, p, maxSize);
      if |data| < maxSize {
        data := data + [p];
      } else {
        OverwriteRotates(data, offset, p);
        data := data[offset := p];
        offset := (offset + 1) % maxSize;
      }
      history := history + [p];
    }

    method Erase()
      requires Valid()
      modifies this
      ensures Valid() && history == []
    {
      if |data| > 0 {
        data := [];
        offset := 0;
      }
      history := [];
    }

    /** The points drawn are the most recent ones, oldest first, as many as fit. */
    method PlotLine() returns (drawn: seq<Point>)
      requires Valid() && |data| > 0
      ensures drawn == Recent(history, maxSize)
      ensures |drawn| == if |history| <= maxSize then |history| else maxSize
      ensures forall i :: 0 <= i < |drawn| ==> drawn[i] == history[|history| - |drawn| + i]
    {
      drawn := [];
      for i := 0 to |data|
        invariant drawn == View(data, offset)[..i]
      {
        WrapIndex(data, offset, i);
        drawn := drawn + [data[(offset + i) % |data|]];
      }
    }
  }

  lemma WrapIndex(data: seq<Point>, offset: nat, i: nat)
    requires offset < |data| && i < |data|
    ensures View(data, offset)[i] == data[(offset + i) % |data|]
  {
    ModOnce(offset + i, |data|);
  }

  lemma ModOnce(a: nat, n: nat)
    requires n > 0 && a < 2 * n
    ensures a % n == if a < n then a else a - n
  {
  }

  /** The same over whole runs of the ring on values: any number of points. */
  function Store(maxSize: nat, r: (seq<Point>, nat), p: Point): (seq<Point>, nat)
    requires r.1 <= |r.0| <= maxSize && maxSize > 0 && (|r.0| == maxSize ==> r.1 < maxSize)
  {
    if |r.0| < maxSize then (r.0 + [p], r.1) else (r.0[r.1 := p], (r.1 + 1) % maxSize)
  }

  function Fill(maxSize: nat, history: seq<Point>): (r: (seq<Point>, nat))
    requires maxSize > 0
    ensures r.1 <= |r.0| <= maxSize && (|r.0| < maxSize ==> r.1 == 0) && (|r.0| == maxSize ==> r.1 < maxSize)
  {
    if history == [] then ([], 0)
    else Store(maxSize, Fill(maxSize, history[..|history| - 1]), history[|history| - 1])
  }

  lemma StoreKeepsView(maxSize: nat, data: seq<Point>, offset: nat, history: seq<Point>, p: Point)
    requires |data| <= maxSize && maxSize > 0 && if |data| < maxSize then offset == 0 else offset < maxSize
    requires View(data, offset) == Recent(history, maxSize)
    ensures var (data', offset') := Store(maxSize, (data, offset), p);
            offset' <= |data'| && View(data', offset') == Recent(history + [p], maxSize)
  {
    RecentSnoc(history, p, maxSize);
    if |data| == maxSize {
      OverwriteRotates(data, offset, p);
    } else {
      assert View(data, offset) == data && View(data + [p], offset) == data + [p];
    }
  }

  lemma {:induction false} ScrollingViewIsRecentHistory(maxSize: nat, history: seq<Point>)
    requires maxSize > 0
    ensures var (data, offset) := Fill(maxSize, history); View(data, offset) == Recent(history, maxSize)
  {
    if history != [] {
      var before, p := history[..|history| - 1], history[|history| - 1];
      var (data, offset) := Fill(maxSize, before);
      ScrollingViewIsRecentHistory(maxSize, before);
      StoreKeepsView(maxSize, data, offset, before, p);
      assert history == before + [p];
    }
  }

  // ---------------------------------------------------------------------------
  // RollingBuffer: the points of the current period, cut where fmod falls back.

  lemma Times(a: real, b: real, s: real)
    requires s > 0.0 && a < b
    ensures a * s < b * s
  {
  }

  lemma SameProduct(a: real, b: real, s: real)
    requires s > 0.0 && a * s == b * s
    ensures a == b
  {
    if a < b {
      Times(a, b, s);
    } else if b < a {
      Times(b, a, s);
    }
  }

  lemma QuotientLess(x: real, span: real)
    requires span > 0.0
    ensures (x - span) / span == x / span - 1.0
  {
    var r, t := x / span, (x - span) / span;
    assert r * span == x && t * span == x - span;
    assert (r - 1.0) * span == r * span - span;
    SameProduct(t, r - 1.0, span);
  }

  lemma QuotientBounds(x: real, span: real)
    requires span > 0.0
    ensures x >= span ==> x / span >= 1.0
    ensures 0.0 <= x < span ==> 0.0 <= x / span < 1.0
  {
    var r := x / span;
    assert r * span == x && 0.0 * span == 0.0 && 1.0 * span == span;
    if r < 1.0 {
      Times(r, 1.0, span);
    } else if r > 1.0 {
      Times(1.0, r, span);
    }
    if r < 0.0 {
      Times(r, 0.0, span);
    }
  }

  lemma OneSpanLess(x: real, span: real)
    requires span > 0.0
    ensures (x - span) / span == x / span - 1.0
    ensures x >= span ==> x / span >= 1.0
    ensures 0.0 <= x < span ==> 0.0 <= x / span < 1.0
  {
    QuotientLess(x, span);
    QuotientBounds(x, span);
  }

  /** fmod, by taking off whole spans; negative times keep their sign. */
  function Fmod(x: real, span: real): (r: real)
    requires span > 0.0
    ensures x >= 0.0 ==> 0.0 <= r < span && r <= x
    decreases x < 0.0, if x < 0.0 then 0 else (x / span).Floor
  {
    if x < 0.0 then -Fmod(-x, span)
    else if x < span then x
    else
      OneSpanLess(x, span);
      Fmod(x - span, span)
  }

  function Spans(n: int, span: real): real {
    n as real * span
  }

  /** `a` and `b` are a whole number of spans apart. */
  ghost predicate WholeSpansApart(a: real, b: real, span: real) {
    exists n: int :: b == a + Spans(n, span)
  }

  /** fmod of any time, negative ones included: what is left after taking off whole spans,
      shorter than a span and with the sign of the time. */
  lemma FmodSmall(x: real, span: real)
    requires 0.0 <= x < span
    ensures Fmod(x, span) == x
  {
  }

  lemma FmodNegative(x: real, span: real)
    requires span > 0.0 && x < 0.0
    ensures Fmod(x, span) == -Fmod(-x, span)
  {
  }

  lemma {:induction false} FmodIsRemainder(x: real, span: real) returns (n: int)
    requires span > 0.0
    ensures x == Fmod(x, span) + Spans(n, span)
    ensures if x >= 0.0 then 0.0 <= Fmod(x, span) < span && n >= 0 else -span < Fmod(x, span) <= 0.0 && n <= 0
    decreases x < 0.0, if x < 0.0 then 0 else (x / span).Floor
  {
    if x < 0.0 {
      var k := FmodIsRemainder(-x, span);
      n := -k;
      FmodNegative(x, span);
      SpansAdd(k, n, span);
    } else if x < span {
      n := 0;
      FmodSmall(x, span);
      SpansAdd(0, 0, span);
    } else {
      var k := FmodIsRemainder(x - span, span) by {
        OneSpanLess(x, span);
      }
      n := k + 1;
      TakeOne(x, span);
      SpansAdd(k, 1, span);
    }
  }

  lemma SpansAdd(a: int, b: int, span: real)
    ensures Spans(a + b, span) == Spans(a, span) + Spans(b, span)
    ensures Spans(0, span) == 0.0 && Spans(1, span) == span
  {
    assert (a as real + b as real) * span == a as real * span + b as real * span;
  }

  /** The period that a time lies in: how often the span can be taken off. */
  function Period(x: real, span: real): (n: nat)
    requires span > 0.0 && x >= 0.0
    decreases (x / span).Floor
  {
    if x < span then 0
    else
      OneSpanLess(x, span);
      1 + Period(x - span, span)
  }

  /** It is the floor of the quotient, and fmod is what remains. */
  lemma {:induction false} PeriodIsFloor(x: real, span: real)
    requires span > 0.0 && x >= 0.0
    ensures Period(x, span) == (x / span).Floor
    ensures x == Period(x, span) as real * span + Fmod(x, span)
    decreases (x / span).Floor
  {
    OneSpanLess(x, span);
    if x >= span {
      PeriodIsFloor(x - span, span);
      var n := Period(x - span, span) as real;
      assert (n + 1.0) * span == n * span + span;
    }
  }

  /** Later times lie in later periods, or later in the same one. */
  lemma {:induction false} PeriodsInOrder(a: real, b: real, span: real)
    requires span > 0.0 && 0.0 <= a <= b
    ensures Period(a, span) <= Period(b, span)
    ensures Period(a, span) == Period(b, span) ==> Fmod(b, span) - Fmod(a, span) == b - a
    ensures Period(a, span) < Period(b, span) ==>
              b - a >= span + (Fmod(b, span) - Fmod(a, span))
    decreases (a / span).Floor
  {
    OneSpanLess(a, span);
    if a >= span {
      PeriodsInOrder(a - span, b - span, span);
    }
  }

  /** The test of AddPoint between two consecutive times. */
  predicate Wraps(last: real, x: real, span: real)
    requires span > 0.0
  {
    Fmod(x, span) < Fmod(last, span)
  }

  /** Places in the period add up, less a span when they exceed it. */
  predicate PlacesAddUp(a: real, d: real, span: real)
    requires span > 0.0 && a >= 0.0 && d >= 0.0
  {
    var over := Fmod(a, span) + Fmod(d, span) >= span;
    && Fmod(a + d, span) == Fmod(a, span) + Fmod(d, span) - (if over then span else 0.0)
    && Period(a + d, span) == Period(a, span) + Period(d, span) + (if over then 1 else 0)
  }

  lemma OneSpanMore(a: real, d: real, span: real)
    requires span > 0.0 && a >= span && d >= 0.0 && PlacesAddUp(a - span, d, span)
    ensures PlacesAddUp(a, d, span)
  {
    TakeOne(a, span);
    TakeOne(a + d, span);
    assert a + d - span == a - span + d;
  }

  lemma {:induction false} PlacesAdd(a: real, d: real, span: real)
    requires span > 0.0 && a >= 0.0 && d >= 0.0
    ensures PlacesAddUp(a, d, span)
    decreases Period(a, span), Period(d, span)
  {
    if a >= span {
      TakeOne(a, span);
      PlacesAdd(a - span, d, span);
      OneSpanMore(a, d, span);
    } else if d >= span {
      TakeOne(d, span);
      PlacesAdd(a, d - span, span);
      assert PlacesAddUp(d - span, a, span) by {
        assert a + (d - span) == d - span + a;
      }
      OneSpanMore(d, a, span);
      assert a + d == d + a;
    } else {
      PlacesInFirstPeriod(a, d, span);
    }
  }

  lemma PlacesInFirstPeriod(a: real, d: real, span: real)
    requires 0.0 <= a < span && 0.0 <= d < span
    ensures PlacesAddUp(a, d, span)
  {
    if a + d >= span {
      TakeOne(a + d, span);
    }
  }

  lemma TakeOne(x: real, span: real)
    requires span > 0.0 && x >= span
    ensures Fmod(x, span) == Fmod(x - span, span) && Period(x, span) == 1 + Period(x - span, span)
  {
    OneSpanLess(x, span);
  }

  /** The step into a new period is short, or it lands earlier in its period than it began. */
  predicate Noticed(a: real, step: real, span: real)
    requires span > 0.0
  {
    step < span || Fmod(a, span) + Fmod(step, span) >= span
  }

  /** Between consecutive non-decreasing times the test tells exactly whether a new period has
      begun, if and only if the step is shorter than the span, or the places of the earlier
      time and of the step add up to a span. */
  lemma WrapTestIsExact(a: real, b: real, span: real)
    requires span > 0.0 && 0.0 <= a <= b
    ensures (Wraps(a, b, span) <==> Period(a, span) < Period(b, span)) <==> Noticed(a, b - a, span)
  {
    PlacesAdd(a, b - a, span);
    assert a + (b - a) == b;
    assert Period(b - a, span) == 0 <==> b - a < span;
  }

  /** It never fires within a period. */
  lemma WrapMeansNewPeriod(a: real, b: real, span: real)
    requires span > 0.0 && 0.0 <= a <= b && Wraps(a, b, span)
    ensures Period(a, span) < Period(b, span)
  {
    PeriodsInOrder(a, b, span);
  }

  lemma WholeSpanGoesUnnoticed()
    ensures Period(2.0, 10.0) < Period(12.0, 10.0) && !Wraps(2.0, 12.0, 10.0)
  {
    assert Period(12.0, 10.0) == 1 + Period(2.0, 10.0) && Fmod(12.0, 10.0) == Fmod(2.0, 10.0);
  }

  /** Where the last run of equal values begins. */
  function RunStart(qs: seq<int>): (k: nat)
    ensures k <= |qs|
  {
    if |qs| <= 1 then 0
    else if qs[|qs| - 2] != qs[|qs| - 1] then |qs| - 1
    else RunStart(qs[..|qs| - 1])
  }

  /** It is the longest suffix of equal values. */
  lemma {:induction false} RunStartIsLongest(qs: seq<int>)
    requires qs != []
    ensures var k := RunStart(qs);
            && k < |qs|
            && (forall i :: k <= i < |qs| ==> qs[i] == qs[|qs| - 1])
            && (k > 0 ==> qs[k - 1] != qs[|qs| - 1])
  {
    if |qs| > 1 {
      RunStartIsLongest(qs[..|qs| - 1]);
    }
  }

  // ---------------------------------------------------------------------------
  // The data, for any history.

  function Fold(p: Point, span: real): Point
    requires span > 0.0
  {
    Point(Fmod(p.x, span), p.y)
  }

  /** The points of the history from index `k` on, with their places in the period. */
  function Folded(history: seq<Point>, k: nat, span: real): (d: seq<Point>)
    requires span > 0.0 && k <= |history|
    ensures |d| == |history| - k
  {
    seq(|history| - k, i requires 0 <= i < |history| - k => Fold(history[k + i], span))
  }

  /** Adding a point: the buffer goes on, or is emptied first when fmod falls back. */
  function Rolled(data: seq<Point>, p: Point, span: real): seq<Point>
    requires span > 0.0
  {
    (if data != [] && Fmod(p.x, span) < data[|data| - 1].x then [] else data) + [Fold(p, span)]
  }

  /** What is left of a whole history after adding its points one by one. */
  function RolledAll(history: seq<Point>, span: real): seq<Point>
    requires span > 0.0
  {
    if history == [] then []
    else Rolled(RolledAll(history[..|history| - 1], span), history[|history| - 1], span)
  }

  lemma RolledAllSnoc(history: seq<Point>, p: Point, span: real)
    requires span > 0.0
    ensures RolledAll(history + [p], span) == Rolled(RolledAll(history, span), p, span)
  {
    assert (history + [p])[..|history|] == history;
  }

  /** The last point at which the test fired. */
  function LastWrap(history: seq<Point>, span: real): (k: nat)
    requires span > 0.0
    ensures k <= |history| && (history != [] ==> k < |history|)
  {
    var n := |history|;
    if n <= 1 then 0
    else if Wraps(history[n - 2].x, history[n - 1].x, span) then n - 1
    else LastWrap(history[..n - 1], span)
  }

  lemma FoldedSnoc(history: seq<Point>, p: Point, k: nat, span: real)
    requires span > 0.0 && k <= |history|
    ensures Folded(history + [p], k, span) == Folded(history, k, span) + [Fold(p, span)]
    ensures Folded(history, |history|, span) == []
    ensures k < |history| ==> var d := Folded(history, k, span); d[|d| - 1] == Fold(history[|history| - 1], span)
  {
  }

  lemma LastWrapSnoc(history: seq<Point>, p: Point, span: real)
    requires span > 0.0
    ensures LastWrap(history + [p], span) ==
            if history != [] && Wraps(history[|history| - 1].x, p.x, span) then |history| else LastWrap(history, span)
  {
    var h := history + [p];
    assert h[..|history|] == history && h[|h| - 1] == p;
    assert history != [] ==> h[|h| - 2] == history[|history| - 1];
  }

  /** Whatever the times are, the data is what came since the test last fired. */
  lemma {:induction false} DataIsSinceLastWrap(history: seq<Point>, span: real)
    requires span > 0.0
    ensures RolledAll(history, span) == Folded(history, LastWrap(history, span), span)
  {
    if history != [] {
      var before, p := history[..|history| - 1], history[|history| - 1];
      assert history == before + [p];
      DataIsSinceLastWrap(before, span);
      RolledSinceLastWrap(before, p, span);
    }
  }

  lemma RolledSinceLastWrap(before: seq<Point>, p: Point, span: real)
    requires span > 0.0 && RolledAll(before, span) == Folded(before, LastWrap(before, span), span)
    ensures RolledAll(before + [p], span) == Folded(before + [p], LastWrap(before + [p], span), span)
  {
    RolledAllSnoc(before, p, span);
    LastWrapSnoc(before, p, span);
    FoldedSnoc(before, p, LastWrap(before, span), span);
    FoldedSnoc(before, p, |before|, span);
  }

  /** Each point kept is a point of the history, in the same place from the end: with its y,
      and its x less whole spans, short of a span and with the sign of that x. */
  ghost predicate StandsFor(data: seq<Point>, history: seq<Point>, span: real) {
    && |data| <= |history|
    && forall i :: 0 <= i < |data| ==>
         var p := history[|history| - |data| + i];
         && data[i].y == p.y && WholeSpansApart(data[i].x, p.x, span)
         && if p.x >= 0.0 then 0.0 <= data[i].x < span else -span < data[i].x <= 0.0
  }

  lemma DataStandsForHistory(history: seq<Point>, span: real)
    requires span > 0.0
    ensures StandsFor(RolledAll(history, span), history, span)
    ensures history != [] ==> RolledAll(history, span) != []
  {
    DataIsSinceLastWrap(history, span);
    var k, data := LastWrap(history, span), RolledAll(history, span);
    forall i | 0 <= i < |data|
      ensures data[i].y == history[k + i].y && WholeSpansApart(data[i].x, history[k + i].x, span)
      ensures if history[k + i].x >= 0.0 then 0.0 <= data[i].x < span else -span < data[i].x <= 0.0
    {
      assert data[i] == Fold(history[k + i], span);
      var n := FmodIsRemainder(history[k + i].x, span);
    }
  }

  // ---------------------------------------------------------------------------
  // The data against the current period.

  /** Times are non-negative and never go back. */
  predicate Sorted(history: seq<Point>) {
    && (forall i :: 0 <= i < |history| ==> history[i].x >= 0.0)
    && (forall i :: 0 < i < |history| ==> history[i - 1].x <= history[i].x)
  }

  lemma {:induction false} SortedIsOrdered(history: seq<Point>, i: nat, j: nat)
    requires Sorted(history) && i <= j < |history|
    ensures 0.0 <= history[i].x <= history[j].x
    decreases j
  {
    if i < j {
      SortedIsOrdered(history, i, j - 1);
      assert history[j - 1].x <= history[j].x;
    }
  }

  /** The period of each point of the history. */
  function Periods(history: seq<Point>, span: real): (qs: seq<int>)
    requires span > 0.0 && Sorted(history)
    ensures |qs| == |history|
  {
    seq(|history|, i requires 0 <= i < |history| => Period(history[i].x, span))
  }

  /** Where the current period begins. */
  function PeriodStart(history: seq<Point>, span: real): (k: nat)
    requires span > 0.0 && Sorted(history)
    ensures k <= |history|
  {
    RunStart(Periods(history, span))
  }

  /** The current period's part of the history. */
  function Window(history: seq<Point>, span: real): seq<Point>
    requires span > 0.0 && Sorted(history)
  {
    Folded(history, PeriodStart(history, span), span)
  }

  /** The window is the longest suffix of the history in one period. */
  lemma WindowIsCurrentPeriod(history: seq<Point>, span: real)
    requires span > 0.0 && Sorted(history) && history != []
    ensures var k := PeriodStart(history, span);
            var last := Period(history[|history| - 1].x, span);
            && k < |history|
            && (forall i :: k <= i < |history| ==> Period(history[i].x, span) == last)
            && (k > 0 ==> Period(history[k - 1].x, span) < last)
  {
    var qs := Periods(history, span);
    var k := RunStart(qs);
    RunStartIsLongest(qs);
    forall i | k <= i < |history|
      ensures Period(history[i].x, span) == qs[|history| - 1]
    {
      assert qs[i] == Period(history[i].x, span);
    }
    if k > 0 {
      SortedIsOrdered(history, k - 1, |history| - 1);
      PeriodsInOrder(history[k - 1].x, history[|history| - 1].x, span);
      assert qs[k - 1] == Period(history[k - 1].x, span);
    }
  }

  /** The x-values kept lie in [0, span) and never go back. */
  lemma WindowIsSorted(history: seq<Point>, span: real, i: nat, j: nat)
    requires span > 0.0 && Sorted(history) && i <= j < |Window(history, span)|
    ensures var w := Window(history, span); 0.0 <= w[i].x <= w[j].x < span
  {
    var k, w := PeriodStart(history, span), Window(history, span);
    var a, b := history[k + i], history[k + j];
    assert w[i] == Fold(a, span) && w[j] == Fold(b, span);
    SamePeriod(history, span, k + i, k + j);
    SortedIsOrdered(history, k + i, k + j);
    PeriodsInOrder(a.x, b.x, span);
  }

  lemma SamePeriod(history: seq<Point>, span: real, i: nat, j: nat)
    requires span > 0.0 && Sorted(history) && PeriodStart(history, span) <= i <= j < |history|
    ensures Period(history[i].x, span) == Period(history[j].x, span)
  {
    WindowIsCurrentPeriod(history, span);
  }

  /** Characterises the last wrap: no test fires after it. */
  lemma {:induction false} LastWrapIsLast(history: seq<Point>, span: real)
    requires span > 0.0 && history != []
    ensures var k := LastWrap(history, span);
            && (k > 0 ==> Wraps(history[k - 1].x, history[k].x, span))
            && forall i :: k < i < |history| ==> !Wraps(history[i - 1].x, history[i].x, span)
  {
    var n := |history|;
    if n > 1 && !Wraps(history[n - 2].x, history[n - 1].x, span) {
      var before := history[..n - 1];
      LastWrapIsLast(before, span);
      assert forall i :: 0 <= i < n - 1 ==> before[i] == history[i];
    }
  }

  /** The test fires nowhere inside the current period. */
  lemma NoWrapInPeriod(history: seq<Point>, span: real, i: nat)
    requires span > 0.0 && Sorted(history) && PeriodStart(history, span) < i < |history|
    ensures !Wraps(history[i - 1].x, history[i].x, span)
  {
    SamePeriod(history, span, i - 1, i);
    SortedIsOrdered(history, i - 1, i);
    if Wraps(history[i - 1].x, history[i].x, span) {
      WrapMeansNewPeriod(history[i - 1].x, history[i].x, span);
    }
  }

  lemma LastWrapIsPeriodStart(history: seq<Point>, span: real)
    requires span > 0.0 && Sorted(history) && history != []
    ensures var k := PeriodStart(history, span);
            && k < |history| && LastWrap(history, span) <= k
            && (LastWrap(history, span) == k <==> k == 0 || Wraps(history[k - 1].x, history[k].x, span))
  {
    var k, j := PeriodStart(history, span), LastWrap(history, span);
    WindowIsCurrentPeriod(history, span);
    LastWrapIsLast(history, span);
    if j > k {
      NoWrapInPeriod(history, span, j);
    }
  }

  /** The step into the current period, where there was one, was of the kind that the test
      notices. */
  predicate EntryNoticed(history: seq<Point>, span: real)
    requires span > 0.0 && Sorted(history)
  {
    var k := PeriodStart(history, span);
    0 < k < |history| ==> Noticed(history[k - 1].x, history[k].x - history[k - 1].x, span)
  }

  /** For non-decreasing times: the data is exactly the current period's part of the history
      if and only if the step into that period was shorter than the span, or began and ended
      at places that add up to a span. */
  lemma RollingDataIsWindowExactly(history: seq<Point>, span: real)
    requires span > 0.0 && Sorted(history)
    ensures RolledAll(history, span) == Window(history, span) <==> EntryNoticed(history, span)
  {
    DataIsSinceLastWrap(history, span);
    if history != [] {
      var k, j := PeriodStart(history, span), LastWrap(history, span);
      LastWrapIsPeriodStart(history, span);
      assert |Folded(history, j, span)| == |Folded(history, k, span)| <==> j == k;
      if k > 0 {
        EntryIsNewPeriod(history, span);
        WrapTestIsExact(history[k - 1].x, history[k].x, span);
      }
    }
  }

  lemma EntryIsNewPeriod(history: seq<Point>, span: real)
    requires span > 0.0 && Sorted(history) && history != [] && PeriodStart(history, span) > 0
    ensures var k := PeriodStart(history, span);
            && k < |history| && 0.0 <= history[k - 1].x <= history[k].x
            && Period(history[k - 1].x, span) < Period(history[k].x, span)
  {
    WindowIsCurrentPeriod(history, span);
    var k := PeriodStart(history, span);
    SortedIsOrdered(history, k - 1, k);
    SamePeriod(history, span, k, |history| - 1);
  }

  /** So steps shorter than the span always keep the window. */
  lemma SteadyDataIsWindow(history: seq<Point>, span: real)
    requires span > 0.0 && Sorted(history)
    requires forall i :: 0 < i < |history| ==> history[i].x - history[i - 1].x < span
    ensures RolledAll(history, span) == Window(history, span)
  {
    RollingDataIsWindowExactly(history, span);
  }

  class RollingBuffer {
    var span: real
    var data: seq<Point>
    ghost var history: seq<Point>

    /** Whatever the times are, the data is what the history leaves. */
    ghost predicate Valid()
      reads this
    {
      span > 0.0 && data == RolledAll(history, span)
    }

    constructor ()
      ensures Valid() && span == 10.0 && history == []
    {
      span, data, history := 10.0, [], [];
    }

    method AddPoint(x: real, y: real)
      requires Valid()
      modifies this`data, this`history
      ensures Valid() && history == old(history) + [Point(x, y)]
      ensures data != [] && StandsFor(data, history, span)
      ensures Sorted(history) ==> (data == Window(history, span) <==> EntryNoticed(history, span))
    {
      RolledAllSnoc(history, Point(x, y), span);
      var xmod := Fmod(x, span);
      if data != [] && xmod < data[|data| - 1].x {
        data := [];
      }
      data := data + [Point(xmod, y)];
      history := history + [Point(x, y)];
      DataStandsForHistory(history, span);
      if Sorted(history) {
        RollingDataIsWindowExactly(history, span);
      }
    }
  }
}
