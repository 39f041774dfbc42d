/** Swings, structure breaks and trend bias, each known only once its bars have closed. */
module Structure {
  import opened Domain
  import opened Candles
  import Sorting

  datatype SwingKind = High | Low
  datatype Bias = Bullish | Bearish | Range
  datatype BreakKind = Bos | Choch

  datatype Swing = Swing(kind: SwingKind, index: nat, confirmedIndex: nat, price: real)

  datatype Break = Break(kind: BreakKind, direction: Bias, index: nat, level: real, swingIndex: nat)

  datatype Analysis = Analysis(
    bias: Bias,
    swings: seq<Swing>,
    breaks: seq<Break>,
    higherHigh: bool,
    higherLow: bool,
    lowerHigh: bool,
    lowerLow: bool,
    support: Option<real>,
    resistance: Option<real>)

  // ---------------------------------------------------------------------------
  // Swings
  // ---------------------------------------------------------------------------

  /** The sort key of a swing: confirmation, then pivot, then kind ("HIGH" before "LOW"). */
  predicate SwingLe(a: Swing, b: Swing) {
    || a.confirmedIndex < b.confirmedIndex
    || (a.confirmedIndex == b.confirmedIndex &&
        (a.index < b.index || (a.index == b.index && (a.kind == b.kind || a.kind == High))))
  }

  /**
   * The candidate is strictly beyond everything before it, never short of anything after it, and beyond something after
   * it.
   */
  predicate Dominates(kind: SwingKind, candidate: Candle, before: seq<Candle>, after: seq<Candle>) {
    match kind
    case High =>
      && (forall k :: 0 <= k < |before| ==> candidate.high > before[k].high)
      && (forall k :: 0 <= k < |after| ==> candidate.high >= after[k].high)
      && (exists k :: 0 <= k < |after| && candidate.high > after[k].high)
    case Low =>
      && (forall k :: 0 <= k < |before| ==> candidate.low < before[k].low)
      && (forall k :: 0 <= k < |after| ==> candidate.low <= after[k].low)
      && (exists k :: 0 <= k < |after| && candidate.low < after[k].low)
  }

  /** Bar `i` is a pivot among its `left` predecessors and `right` successors. */
  predicate IsSwing(kind: SwingKind, candles: seq<Candle>, i: nat, left: nat, right: nat)
    requires left <= i && i + right < |candles|
  {
    Dominates(kind, candles[i], candles[i - left..i], candles[i + 1..i + right + 1])
  }

  function SwingAt(kind: SwingKind, candles: seq<Candle>, i: nat, left: nat, right: nat): seq<Swing>
    requires left <= i && i + right < |candles|
  {
    if IsSwing(kind, candles, i, left, right)
    then [Swing(kind, i, i + right, if kind == High then candles[i].high else candles[i].low)]
    else []
  }

  /** The swings with pivot before `n`, in pivot order. */
  function SwingsBefore(candles: seq<Candle>, left: nat, right: nat, n: nat): seq<Swing>
    requires n + right <= |candles| || n <= left
  {
    if n <= left then []
    else
      SwingsBefore(candles, left, right, n - 1) + SwingPair(candles, left, right, n - 1)
  }

  function ConfirmedSwings(candles: seq<Candle>, left: nat, right: nat): seq<Swing> {
    SwingsBefore(candles, left, right, if |candles| > right then |candles| - right else 0)
  }

  function SwingPair(candles: seq<Candle>, left: nat, right: nat, i: nat): seq<Swing>
    requires left <= i && i + right < |candles|
  {
    SwingAt(High, candles, i, left, right) + SwingAt(Low, candles, i, left, right)
  }

  lemma SwingPairOrdered(candles: seq<Candle>, left: nat, right: nat, i: nat)
    requires left <= i && i + right < |candles|
    ensures var pair := SwingPair(candles, left, right, i);
            && (forall k :: 0 <= k < |pair| ==> pair[k].index == i && pair[k].confirmedIndex == i + right)
            && Sorting.SortedBy(pair, SwingLe)
  {
    hide IsSwing;
  }

  lemma OrderedConcat(a: seq<Swing>, b: seq<Swing>, n: nat, right: nat)
    requires Sorting.SortedBy(a, SwingLe) && Sorting.SortedBy(b, SwingLe)
    requires forall k :: 0 <= k < |a| ==> a[k].index < n && a[k].confirmedIndex == a[k].index + right
    requires forall k :: 0 <= k < |b| ==> b[k].index == n && b[k].confirmedIndex == n + right
    ensures Sorting.SortedBy(a + b, SwingLe)
  {
  }

  lemma {:induction false} SwingsBeforeOrdered(candles: seq<Candle>, left: nat, right: nat, n: nat)
    requires n + right <= |candles| || n <= left
    ensures var s := SwingsBefore(candles, left, right, n);
            && Sorting.SortedBy(s, SwingLe)
            && (forall i :: 0 <= i < |s| ==> s[i].index < n && s[i].confirmedIndex == s[i].index + right)
  {
    hide SwingPair;
    if n > left {
      SwingsBeforeOrdered(candles, left, right, n - 1);
      SwingPairOrdered(candles, left, right, n - 1);
      OrderedConcat(SwingsBefore(candles, left, right, n - 1), SwingPair(candles, left, right, n - 1), n - 1, right);
    }
  }

  /** Swings come out in the order of their sort key, so sorting them changes nothing. */
  lemma ConfirmedSwingsOrdered(candles: seq<Candle>, left: nat, right: nat)
    ensures Sorting.SortedBy(ConfirmedSwings(candles, left, right), SwingLe)
    ensures forall s :: s in ConfirmedSwings(candles, left, right) ==>
              s.confirmedIndex == s.index + right && s.confirmedIndex < |candles|
  {
    SwingsBeforeOrdered(candles, left, right, if |candles| > right then |candles| - right else 0);
  }

  lemma {:induction false} SwingsBeforeExact(candles: seq<Candle>, left: nat, right: nat, n: nat, s: Swing)
    requires n + right <= |candles| || n <= left
    ensures s in SwingsBefore(candles, left, right, n) <==>
            left <= s.index < n && s in SwingAt(s.kind, candles, s.index, left, right)
  {
    hide IsSwing;
    if n > left {
      SwingsBeforeExact(candles, left, right, n - 1, s);
    }
  }

  /** The list holds every pivot that has `left` bars before it and `right` after it, and nothing else. */
  lemma ConfirmedSwingsExact(candles: seq<Candle>, left: nat, right: nat, s: Swing)
    ensures s in ConfirmedSwings(candles, left, right) <==>
            && left <= s.index && s.index + right < |candles|
            && s.confirmedIndex == s.index + right
            && s.price == (if s.kind == High then candles[s.index].high else candles[s.index].low)
            && IsSwing(s.kind, candles, s.index, left, right)
  {
    hide IsSwing;
    var n := if |candles| > right then |candles| - right else 0;
    SwingsBeforeExact(candles, left, right, n, s);
  }

  /** Two swings of one kind never share a neighbourhood: they are further apart than the shorter span. */
  lemma SwingsApart(candles: seq<Candle>, left: nat, right: nat, s: Swing, t: Swing)
    requires s in ConfirmedSwings(candles, left, right) && t in ConfirmedSwings(candles, left, right)
    requires s.kind == t.kind && s.index < t.index
    ensures t.index - s.index > left || t.index - s.index > right
  {
    hide ConfirmedSwings;
    ConfirmedSwingsExact(candles, left, right, s);
    ConfirmedSwingsExact(candles, left, right, t);
    var gap := t.index - s.index;
    assert gap <= left ==> candles[t.index - left..t.index][left - gap] == candles[s.index];
    assert gap <= right ==> candles[s.index + 1..s.index + right + 1][gap - 1] == candles[t.index];
  }

  /** Scans for pivots; refuses non-positive spans and malformed sequences. */
  method FindSwings(candles: seq<Candle>, left: int, right: int) returns (r: Result<seq<Swing>>)
    ensures r.Ok? <==> left > 0 && right > 0 && ValidSequence(candles)
    ensures r.Ok? ==> r.value == ConfirmedSwings(candles, left, right)
  {
    hide Dominates, ValidSequence;
    if left <= 0 || right <= 0 {
      return Err("swing spans must be positive");
    }
    var validated := ValidateSequence(candles);
    if validated.Err? {
      return Err(validated.error);
    }
    var swings: seq<Swing> := [];
    var index := left;
    while index < |candles| - right
      invariant left <= index
      invariant index + right <= |candles| || index == left
      invariant swings == SwingsBefore(candles, left, right, index)
    {
      var candidate := candles[index];
      var before := candles[index - left..index];
      var after := candles[index + 1..index + right + 1];
      var highIsSwing := Dominates(High, candidate, before, after);
      var lowIsSwing := Dominates(Low, candidate, before, after);
      if highIsSwing {
        swings := swings + [Swing(High, index, index + right, candidate.high)];
      }
      if lowIsSwing {
        swings := swings + [Swing(Low, index, index + right, candidate.low)];
      }
      index := index + 1;
    }
    ConfirmedSwingsOrdered(candles, left, right);
    Sorting.SortByFixpoint(swings, SwingLe);
    return Ok(Sorting.SortBy(swings, SwingLe));
  }

  // ---------------------------------------------------------------------------
  // What is known when
  // ---------------------------------------------------------------------------

  ghost predicate InConfirmationOrder(swings: seq<Swing>) {
    forall i, j :: 0 <= i < j < |swings| ==> swings[i].confirmedIndex <= swings[j].confirmedIndex
  }

  /** The swings confirmed before bar `n`. */
  function KnownBefore(swings: seq<Swing>, n: int): seq<Swing> {
    if swings == [] then []
    else
      var last := swings[|swings| - 1];
      KnownBefore(swings[..|swings| - 1], n) + (if last.confirmedIndex < n then [last] else [])
  }

  /** The swings confirmed on bar `n` itself. */
  function ConfirmedAt(swings: seq<Swing>, n: int): seq<Swing> {
    if swings == [] then []
    else
      var last := swings[|swings| - 1];
      ConfirmedAt(swings[..|swings| - 1], n) + (if last.confirmedIndex == n then [last] else [])
  }

  function OfKind(swings: seq<Swing>, kind: SwingKind): seq<Swing> {
    if swings == [] then []
    else
      var last := swings[|swings| - 1];
      OfKind(swings[..|swings| - 1], kind) + (if last.kind == kind then [last] else [])
  }

  lemma {:induction false} OfKindConcat(a: seq<Swing>, b: seq<Swing>, kind: SwingKind)
    ensures OfKind(a + b, kind) == OfKind(a, kind) + OfKind(b, kind)
  {
    if b == [] {
      assert a + b == a;
    } else {
      OfKindConcat(a, b[..|b| - 1], kind);
      assert (a + b)[..|a + b| - 1] == a + b[..|b| - 1];
    }
  }

  lemma {:induction false} OfKindKind(s: seq<Swing>, kind: SwingKind)
    ensures forall x :: x in OfKind(s, kind) <==> x in s && x.kind == kind
  {
    if s != [] {
      OfKindKind(s[..|s| - 1], kind);
      assert s == s[..|s| - 1] + [s[|s| - 1]];
    }
  }

  lemma {:induction false} KnownBeforeExact(swings: seq<Swing>, n: int)
    ensures forall x :: x in KnownBefore(swings, n) <==> x in swings && x.confirmedIndex < n
  {
    if swings != [] {
      KnownBeforeExact(swings[..|swings| - 1], n);
      assert swings == swings[..|swings| - 1] + [swings[|swings| - 1]];
    }
  }

  lemma {:induction false} NoneConfirmedAt(swings: seq<Swing>, n: int)
    requires forall x :: x in swings ==> x.confirmedIndex != n
    ensures ConfirmedAt(swings, n) == []
  {
    if swings != [] {
      NoneConfirmedAt(swings[..|swings| - 1], n);
    }
  }

  lemma {:induction false} AllKnownBefore(swings: seq<Swing>, n: int)
    requires forall x :: x in swings ==> x.confirmedIndex < n
    ensures KnownBefore(swings, n) == swings
  {
    if swings != [] {
      var last := |swings| - 1;
      AllKnownBefore(swings[..last], n);
      assert swings[last] in swings;
      assert swings == swings[..last] + [swings[last]];
    }
  }

  lemma {:induction false} NoneKnownBefore(swings: seq<Swing>, n: int)
    requires forall x :: x in swings ==> x.confirmedIndex >= n
    ensures KnownBefore(swings, n) == []
  {
    if swings != [] {
      NoneKnownBefore(swings[..|swings| - 1], n);
    }
  }

  lemma {:induction false} KnownGrows(swings: seq<Swing>, n: int)
    requires InConfirmationOrder(swings)
    ensures KnownBefore(swings, n + 1) == KnownBefore(swings, n) + ConfirmedAt(swings, n)
  {
    if swings != [] {
      var front, last := swings[..|swings| - 1], swings[|swings| - 1];
      KnownGrows(front, n);
      if last.confirmedIndex < n {
        NoneConfirmedAt(front, n);
      }
    }
  }

  lemma {:induction false} ConfirmedAtKnown(swings: seq<Swing>, n: int, i: int)
    requires i < n
    ensures ConfirmedAt(KnownBefore(swings, n), i) == ConfirmedAt(swings, i)
  {
    if swings != [] {
      var front, last := swings[..|swings| - 1], swings[|swings| - 1];
      ConfirmedAtKnown(front, n, i);
      var known := KnownBefore(front, n);
      if last.confirmedIndex < n {
        assert KnownBefore(swings, n) == known + [last];
        assert (known + [last])[..|known|] == known;
      } else {
        assert KnownBefore(swings, n) == known;
      }
    }
  }

  lemma {:induction false} SwingsOfPrefix(candles: seq<Candle>, left: nat, right: nat, n: nat, m: nat)
    requires m <= n <= |candles|
    requires m + right <= n || m <= left
    ensures SwingsBefore(candles[..n], left, right, m) == SwingsBefore(candles, left, right, m)
  {
    if m > left {
      SwingsOfPrefix(candles, left, right, n, m - 1);
      SwingOfPrefix(High, candles, left, right, n, m - 1);
      SwingOfPrefix(Low, candles, left, right, n, m - 1);
    }
  }

  lemma SwingOfPrefix(kind: SwingKind, candles: seq<Candle>, left: nat, right: nat, n: nat, i: nat)
    requires left <= i && i + right < n <= |candles|
    ensures SwingAt(kind, candles[..n], i, left, right) == SwingAt(kind, candles, i, left, right)
  {
    assert candles[..n][i - left..i] == candles[i - left..i];
    assert candles[..n][i + 1..i + right + 1] == candles[i + 1..i + right + 1];
    hide Dominates;
  }

  /** Swings confirmed before `n` are those with pivot before `n - right`. */
  lemma {:induction false} KnownOfSwingsBefore(candles: seq<Candle>, left: nat, right: nat, m: nat, n: nat)
    requires m + right <= |candles| || m <= left
    requires n <= m + right
    ensures KnownBefore(SwingsBefore(candles, left, right, m), n) ==
            SwingsBefore(candles, left, right, if n > right then n - right else 0)
  {
    hide SwingPair;
    var k := if n > right then n - right else 0;
    if m == k {
      SwingsBeforeOrdered(candles, left, right, m);
      AllKnownBefore(SwingsBefore(candles, left, right, m), n);
    } else if m > left {
      var front, pair := SwingsBefore(candles, left, right, m - 1), SwingPair(candles, left, right, m - 1);
      KnownOfSwingsBefore(candles, left, right, m - 1, n);
      hide KnownBefore;
      SwingPairOrdered(candles, left, right, m - 1);
      KnownConcat(front, pair, n);
      NoneKnownBefore(pair, n);
    }
  }

  lemma {:induction false} KnownConcat(a: seq<Swing>, b: seq<Swing>, n: int)
    ensures KnownBefore(a + b, n) == KnownBefore(a, n) + KnownBefore(b, n)
  {
    if b == [] {
      assert a + b == a;
    } else {
      KnownConcat(a, b[..|b| - 1], n);
      assert (a + b)[..|a + b| - 1] == a + b[..|b| - 1];
    }
  }

  /**
   * Cutting the history at bar `n` leaves exactly the swings confirmed before it: none appears, moves or vanishes
   * later.
   */
  lemma SwingsNeverRepaint(candles: seq<Candle>, left: nat, right: nat, n: nat)
    requires n <= |candles|
    ensures ConfirmedSwings(candles[..n], left, right) == KnownBefore(ConfirmedSwings(candles, left, right), n)
  {
    var m := if |candles| > right then |candles| - right else 0;
    var k := if n > right then n - right else 0;
    KnownOfSwingsBefore(candles, left, right, m, n);
    SwingsOfPrefix(candles, left, right, n, k);
  }

  // ---------------------------------------------------------------------------
  // Bias
  // ---------------------------------------------------------------------------

  /** The sign of the last move between the two newest levels: +1 rising, -1 falling, 0 otherwise. */
  function Move(levels: seq<Swing>): int {
    if |levels| < 2 then 0
    else
      var newest, previous := levels[|levels| - 1].price, levels[|levels| - 2].price;
      if newest > previous then 1 else if newest < previous then -1 else 0
  }

  function Trend(highs: seq<Swing>, lows: seq<Swing>): Bias {
    if Move(highs) == 1 && Move(lows) == 1 then Bullish
    else if Move(highs) == -1 && Move(lows) == -1 then Bearish
    else Range
  }

  function BiasFromSwings(swings: seq<Swing>): Bias {
    Trend(OfKind(swings, High), OfKind(swings, Low))
  }

  // ---------------------------------------------------------------------------
  // Breaks
  // ---------------------------------------------------------------------------

  predicate Crosses(kind: SwingKind, close: real, level: real) {
    match kind
    case High => close > level
    case Low => close < level
  }

  /** The direction a break of this kind of level announces, and the bias it contradicts. */
  function Toward(kind: SwingKind): Bias {
    if kind == High then Bullish else Bearish
  }

  function Against(kind: SwingKind): Bias {
    if kind == High then Bearish else Bullish
  }

  function BreakAt(kind: SwingKind, prior: Bias, index: nat, level: Swing): Break {
    Break(if prior == Against(kind) then Choch else Bos, Toward(kind), index, level.price, level.index)
  }

  datatype Scan = Scan(
    highs: seq<Swing>,
    lows: seq<Swing>,
    broken: set<(SwingKind, nat)>,
    events: seq<Break>,
    bias: Bias)

  const EMPTY_SCAN := Scan([], [], {}, [], Range)

  /** Tests the newest level of one kind against the bar's close. */
  function TestLevel(scan: Scan, kind: SwingKind, prior: Bias, index: nat, close: real): Scan {
    var known := if kind == High then scan.highs else scan.lows;
    if known == [] then scan
    else
      var level := known[|known| - 1];
      if level.index < index && Crosses(kind, close, level.price) && (level.kind, level.index) !in scan.broken
      then scan.(events := scan.events + [BreakAt(kind, prior, index, level)],
                 broken := scan.broken + {(level.kind, level.index)})
      else scan
  }

  function Learn(scan: Scan, newly: seq<Swing>): Scan {
    var highs := scan.highs + OfKind(newly, High);
    var lows := scan.lows + OfKind(newly, Low);
    scan.(highs := highs, lows := lows, bias := Trend(highs, lows))
  }

  function BarStep(scan: Scan, index: nat, close: real, newly: seq<Swing>): Scan {
    TestLevel(TestLevel(Learn(scan, newly), High, scan.bias, index, close), Low, scan.bias, index, close)
  }

  /** The scanner after the first `n` bars. */
  function ScanUpTo(candles: seq<Candle>, swings: seq<Swing>, n: nat): Scan
    requires n <= |candles|
  {
    if n == 0 then EMPTY_SCAN
    else BarStep(ScanUpTo(candles, swings, n - 1), n - 1, candles[n - 1].close, ConfirmedAt(swings, n - 1))
  }

  function Breaks(candles: seq<Candle>, swings: seq<Swing>): seq<Break> {
    ScanUpTo(candles, swings, |candles|).events
  }

  method GroupByConfirmation(swings: seq<Swing>) returns (groups: map<int, seq<Swing>>)
    ensures forall k: int :: ConfirmedAt(swings, k) == if k in groups then groups[k] else []
  {
    groups := map[];
    for j := 0 to |swings|
      invariant forall k: int :: ConfirmedAt(swings[..j], k) == if k in groups then groups[k] else []
    {
      var swing := swings[j];
      var group := if swing.confirmedIndex in groups then groups[swing.confirmedIndex] else [];
      assert swings[..j + 1][..j] == swings[..j];
      groups := groups[swing.confirmedIndex as int := group + [swing]];
    }
    assert swings[..|swings|] == swings;
  }

  /** Scans closes against the newest confirmed levels, one bar at a time. */
  method StructureBreaks(candles: seq<Candle>, swings: seq<Swing>) returns (events: seq<Break>, bias: Bias)
    ensures events == Breaks(candles, swings)
    ensures bias == ScanUpTo(candles, swings, |candles|).bias
  {
    var newlyConfirmed := GroupByConfirmation(swings);
    hide TestLevel, OfKind, ConfirmedAt, Trend;
    var highs: seq<Swing>, lows: seq<Swing> := [], [];
    var broken: set<(SwingKind, nat)> := {};
    events := [];
    bias := Range;
    for index := 0 to |candles|
      invariant Scan(highs, lows, broken, events, bias) == ScanUpTo(candles, swings, index)
    {
      ghost var before := Scan(highs, lows, broken, events, bias);
      var newly := if index in newlyConfirmed then newlyConfirmed[index] else [];
      highs, lows := AppendByKind(highs, lows, newly);
      var prior := bias;
      bias := NewestTrend(highs, lows);
      ghost var learned := Learn(before, newly);
      events, broken := CheckLevel(learned, High, highs, prior, index, candles[index].close, events, broken);
      ghost var middle := learned.(events := events, broken := broken);
      events, broken := CheckLevel(middle, Low, lows, prior, index, candles[index].close, events, broken);
      ScanNext(candles, swings, index);
    }
  }

  method AppendByKind(highs: seq<Swing>, lows: seq<Swing>, newly: seq<Swing>)
    returns (highs': seq<Swing>, lows': seq<Swing>)
    ensures highs' == highs + OfKind(newly, High)
    ensures lows' == lows + OfKind(newly, Low)
  {
    highs', lows' := highs, lows;
    for j := 0 to |newly|
      invariant highs' == highs + OfKind(newly[..j], High)
      invariant lows' == lows + OfKind(newly[..j], Low)
    {
      assert newly[..j + 1][..j] == newly[..j];
      if newly[j].kind == High {
        highs' := highs' + [newly[j]];
      } else {
        lows' := lows' + [newly[j]];
      }
    }
    assert newly[..|newly|] == newly;
  }

  method Comparisons(highs: seq<Swing>, lows: seq<Swing>)
    returns (higherHigh: bool, higherLow: bool, lowerHigh: bool, lowerLow: bool)
    ensures higherHigh == (Move(highs) == 1) && higherLow == (Move(lows) == 1)
    ensures lowerHigh == (Move(highs) == -1) && lowerLow == (Move(lows) == -1)
  {
    higherHigh := |highs| >= 2 && highs[|highs| - 1].price > highs[|highs| - 2].price;
    lowerHigh := |highs| >= 2 && highs[|highs| - 1].price < highs[|highs| - 2].price;
    higherLow := |lows| >= 2 && lows[|lows| - 1].price > lows[|lows| - 2].price;
    lowerLow := |lows| >= 2 && lows[|lows| - 1].price < lows[|lows| - 2].price;
  }

  method NewestTrend(highs: seq<Swing>, lows: seq<Swing>) returns (bias: Bias)
    ensures bias == Trend(highs, lows)
  {
    var higherHigh, higherLow, lowerHigh, lowerLow := Comparisons(highs, lows);
    if higherHigh && higherLow {
      return Bullish;
    } else if lowerHigh && lowerLow {
      return Bearish;
    }
    return Range;
  }

  method CheckLevel(ghost scan: Scan, kind: SwingKind, known: seq<Swing>, prior: Bias, index: nat, close: real,
                    events: seq<Break>, broken: set<(SwingKind, nat)>)
    returns (events': seq<Break>, broken': set<(SwingKind, nat)>)
    requires known == (if kind == High then scan.highs else scan.lows)
    requires events == scan.events && broken == scan.broken
    ensures TestLevel(scan, kind, prior, index, close) == scan.(events := events', broken := broken')
  {
    events', broken' := events, broken;
    if known != [] && known[|known| - 1].index < index {
      var level := known[|known| - 1];
      var key := (level.kind, level.index);
      if (if kind == High then close > level.price else close < level.price) && key !in broken {
        var breakKind := if prior == (if kind == High then Bearish else Bullish) then Choch else Bos;
        var direction := if kind == High then Bullish else Bearish;
        events' := events + [Break(breakKind, direction, index, level.price, level.index)];
        broken' := broken + {key};
      }
    }
  }

  // ---------------------------------------------------------------------------
  // What a break is, without the scanner
  // ---------------------------------------------------------------------------

  /** The newest level of a kind that is confirmed by bar `i`. */
  function Latest(swings: seq<Swing>, kind: SwingKind, i: nat): Option<Swing> {
    var known := OfKind(KnownBefore(swings, i + 1), kind);
    if known == [] then None else Some(known[|known| - 1])
  }

  /** Bar `i` closes beyond the newest level of the kind, whose pivot is `pivot`. */
  predicate ClosesBeyond(candles: seq<Candle>, swings: seq<Swing>, kind: SwingKind, i: nat, pivot: nat)
    requires i < |candles|
  {
    var latest := Latest(swings, kind, i);
    latest.Some? && latest.value.index == pivot < i && Crosses(kind, candles[i].close, latest.value.price)
  }

  /** No earlier bar closed beyond that same level. */
  predicate FirstClose(candles: seq<Candle>, swings: seq<Swing>, kind: SwingKind, i: nat, pivot: nat)
    requires i < |candles|
  {
    ClosesBeyond(candles, swings, kind, i, pivot)
    && forall j :: 0 <= j < i ==> !ClosesBeyond(candles, swings, kind, j, pivot)
  }

  function BreakOn(candles: seq<Candle>, swings: seq<Swing>, kind: SwingKind, i: nat): seq<Break>
    requires i < |candles|
  {
    var latest := Latest(swings, kind, i);
    if latest.Some? && FirstClose(candles, swings, kind, i, latest.value.index)
    then [BreakAt(kind, BiasFromSwings(KnownBefore(swings, i)), i, latest.value)]
    else []
  }

  /** The breaks of the first `n` bars: each level once, when a bar first closes beyond it while it is the newest. */
  function FirstCloses(candles: seq<Candle>, swings: seq<Swing>, n: nat): seq<Break>
    requires n <= |candles|
  {
    if n == 0 then []
    else
      FirstCloses(candles, swings, n - 1)
      + BreakOn(candles, swings, High, n - 1)
      + BreakOn(candles, swings, Low, n - 1)
  }

  ghost predicate ScanExact(candles: seq<Candle>, swings: seq<Swing>, n: nat)
    requires n <= |candles|
  {
    var scan := ScanUpTo(candles, swings, n);
    && scan.highs == OfKind(KnownBefore(swings, n), High)
    && scan.lows == OfKind(KnownBefore(swings, n), Low)
    && scan.bias == BiasFromSwings(KnownBefore(swings, n))
    && scan.events == FirstCloses(candles, swings, n)
    && (forall kind: SwingKind, pivot: nat ::
          (kind, pivot) in scan.broken <==> exists j :: 0 <= j < n && ClosesBeyond(candles, swings, kind, j, pivot))
  }

  /**
   * The one-pass scanner computes the declarative definition: its events are the first closes beyond
   * each newest level, and its running bias is the bias of the swings known so far.
   */
  lemma {:induction false} ScanMeetsDefinition(candles: seq<Candle>, swings: seq<Swing>, n: nat)
    requires n <= |candles| && InConfirmationOrder(swings)
    ensures ScanExact(candles, swings, n)
  {
    hide ScanExact;
    if n == 0 {
      ScanStartExact(candles, swings);
    } else {
      ScanMeetsDefinition(candles, swings, n - 1);
      ScanStepExact(candles, swings, n - 1);
    }
  }

  lemma ScanStartExact(candles: seq<Candle>, swings: seq<Swing>)
    ensures ScanExact(candles, swings, 0)
  {
    NoneKnownBefore(swings, 0);
  }

  lemma ScanNext(candles: seq<Candle>, swings: seq<Swing>, i: nat)
    requires i < |candles|
    ensures var scan := ScanUpTo(candles, swings, i);
            ScanUpTo(candles, swings, i + 1) ==
            TestLevel(TestLevel(Learn(scan, ConfirmedAt(swings, i)), High, scan.bias, i, candles[i].close),
                      Low, scan.bias, i, candles[i].close)
    ensures FirstCloses(candles, swings, i + 1) ==
            FirstCloses(candles, swings, i) + BreakOn(candles, swings, High, i) + BreakOn(candles, swings, Low, i)
  {
    hide TestLevel, Learn, BreakOn, ConfirmedAt;
  }

  lemma ScanStepExact(candles: seq<Candle>, swings: seq<Swing>, i: nat)
    requires i < |candles| && InConfirmationOrder(swings)
    requires ScanExact(candles, swings, i)
    ensures ScanExact(candles, swings, i + 1)
  {
    hide ScanUpTo, FirstCloses, BreakOn, ClosesBeyond, OfKind, KnownBefore, ConfirmedAt, TestLevel, Trend,
         InConfirmationOrder;
    var scan := ScanUpTo(candles, swings, i);
    var newly := ConfirmedAt(swings, i);
    var close := candles[i].close;
    var learned := Learn(scan, newly);
    var middle := TestLevel(learned, High, scan.bias, i, close);
    var next := TestLevel(middle, Low, scan.bias, i, close);
    ScanNext(candles, swings, i);
    KnownGrows(swings, i);
    OfKindConcat(KnownBefore(swings, i), newly, High);
    OfKindConcat(KnownBefore(swings, i), newly, Low);
    TestLevelExact(candles, swings, i, learned, High, scan.bias);
    TestLevelExact(candles, swings, i, middle, Low, scan.bias);
    forall kind: SwingKind, pivot: nat
      ensures (kind, pivot) in next.broken <==>
              exists j :: 0 <= j < i + 1 && ClosesBeyond(candles, swings, kind, j, pivot)
    {
      assert (kind, pivot) in next.broken <==>
             (kind, pivot) in scan.broken || ClosesBeyond(candles, swings, kind, i, pivot);
    }
  }

  lemma TestLevelExact(candles: seq<Candle>, swings: seq<Swing>, i: nat, scan: Scan, kind: SwingKind, prior: Bias)
    requires i < |candles|
    requires (if kind == High then scan.highs else scan.lows) == OfKind(KnownBefore(swings, i + 1), kind)
    requires prior == BiasFromSwings(KnownBefore(swings, i))
    requires forall pivot: nat ::
               (kind, pivot) in scan.broken <==> exists j :: 0 <= j < i && ClosesBeyond(candles, swings, kind, j, pivot)
    ensures var next := TestLevel(scan, kind, prior, i, candles[i].close);
            && next.events == scan.events + BreakOn(candles, swings, kind, i)
            && next.highs == scan.highs && next.lows == scan.lows && next.bias == scan.bias
            && (forall k: SwingKind, pivot: nat :: (k, pivot) in next.broken <==>
                  (k, pivot) in scan.broken || (k == kind && ClosesBeyond(candles, swings, kind, i, pivot)))
  {
    OfKindKind(KnownBefore(swings, i + 1), kind);
    var latest := Latest(swings, kind, i);
    hide OfKind, KnownBefore, BiasFromSwings;
    if latest.Some? {
      assert latest.value.kind == kind;
      var pivot := latest.value.index;
      assert (kind, pivot) in scan.broken <==> exists j :: 0 <= j < i && ClosesBeyond(candles, swings, kind, j, pivot);
    }
  }

  /** The breaks reported for a history are its first closes beyond each newest confirmed level. */
  lemma BreaksMeetDefinition(candles: seq<Candle>, left: nat, right: nat)
    ensures var swings := ConfirmedSwings(candles, left, right);
            Breaks(candles, swings) == FirstCloses(candles, swings, |candles|)
  {
    hide ConfirmedSwings, ScanUpTo, FirstCloses, KnownBefore, BiasFromSwings, OfKind;
    ConfirmedSwingsOrdered(candles, left, right);
    ScanMeetsDefinition(candles, ConfirmedSwings(candles, left, right), |candles|);
  }

  /** The bias the scanner keeps bar by bar ends as the bias of the whole swing list. */
  lemma IncrementalBias(candles: seq<Candle>, left: nat, right: nat)
    ensures ScanUpTo(candles, ConfirmedSwings(candles, left, right), |candles|).bias
            == BiasFromSwings(ConfirmedSwings(candles, left, right))
  {
    var swings := ConfirmedSwings(candles, left, right);
    ConfirmedSwingsOrdered(candles, left, right);
    ScanMeetsDefinition(candles, swings, |candles|);
    AllKnownBefore(swings, |candles|);
  }

  // ---------------------------------------------------------------------------
  // Breaks never repaint
  // ---------------------------------------------------------------------------

  /** The breaks on bars before `n`. */
  function BreaksBefore(events: seq<Break>, n: int): seq<Break> {
    if events == [] then []
    else
      var last := events[|events| - 1];
      BreaksBefore(events[..|events| - 1], n) + (if last.index < n then [last] else [])
  }

  lemma {:induction false} BreaksBeforeAll(events: seq<Break>, n: int)
    requires forall e :: e in events ==> e.index < n
    ensures BreaksBefore(events, n) == events
  {
    if events != [] {
      var front, last := events[..|events| - 1], events[|events| - 1];
      assert events == front + [last] && last in events;
      BreaksBeforeAll(front, n);
    }
  }

  lemma {:induction false} BreaksBeforeTail(events: seq<Break>, more: seq<Break>, n: int)
    requires forall e :: e in more ==> e.index >= n
    ensures BreaksBefore(events + more, n) == BreaksBefore(events, n)
  {
    if more == [] {
      assert events + more == events;
    } else {
      var front := more[..|more| - 1];
      BreaksBeforeTail(events, front, n);
      assert (events + more)[..|events + more| - 1] == events + front;
    }
  }

  lemma TestLevelEvents(scan: Scan, kind: SwingKind, prior: Bias, index: nat, close: real) returns (more: seq<Break>)
    ensures TestLevel(scan, kind, prior, index, close).events == scan.events + more
    ensures forall e :: e in more ==> e.index == index
  {
    more := TestLevel(scan, kind, prior, index, close).events[|scan.events|..];
  }

  lemma BarStepEvents(scan: Scan, index: nat, close: real, newly: seq<Swing>) returns (more: seq<Break>)
    ensures BarStep(scan, index, close, newly).events == scan.events + more
    ensures forall e :: e in more ==> e.index == index
  {
    var learned := Learn(scan, newly);
    assert learned.events == scan.events;
    hide TestLevel, Learn;
    var high := TestLevelEvents(learned, High, scan.bias, index, close);
    var low := TestLevelEvents(TestLevel(learned, High, scan.bias, index, close), Low, scan.bias, index, close);
    more := high + low;
  }

  lemma {:induction false} EventsTimed(candles: seq<Candle>, swings: seq<Swing>, n: nat, m: nat)
    requires n <= m <= |candles|
    ensures forall e :: e in ScanUpTo(candles, swings, n).events ==> e.index < n
    ensures BreaksBefore(ScanUpTo(candles, swings, m).events, n) == ScanUpTo(candles, swings, n).events
    decreases m
  {
    hide BarStep, ConfirmedAt, BreaksBefore;
    if m == 0 {
      BreaksBeforeAll([], n);
    } else {
      var scan := ScanUpTo(candles, swings, m - 1);
      var more := BarStepEvents(scan, m - 1, candles[m - 1].close, ConfirmedAt(swings, m - 1));
      assert ScanUpTo(candles, swings, m).events == scan.events + more;
      if n < m {
        EventsTimed(candles, swings, n, m - 1);
        BreaksBeforeTail(scan.events, more, n);
      } else {
        EventsTimed(candles, swings, n - 1, n - 1);
        BreaksBeforeAll(scan.events + more, n);
      }
    }
  }

  lemma {:induction false} ScanOfPrefix(candles: seq<Candle>, swings: seq<Swing>, n: nat, m: nat)
    requires m <= n <= |candles|
    ensures ScanUpTo(candles[..n], KnownBefore(swings, n), m) == ScanUpTo(candles, swings, m)
  {
    hide BarStep, KnownBefore, ConfirmedAt;
    if m > 0 {
      ScanOfPrefix(candles, swings, n, m - 1);
      ConfirmedAtKnown(swings, n, m - 1);
    }
  }

  /** Cutting the history at bar `n` leaves exactly the breaks on earlier bars, and the same bias as was kept then. */
  lemma BreaksNeverRepaint(candles: seq<Candle>, left: nat, right: nat, n: nat)
    requires n <= |candles|
    ensures Breaks(candles[..n], ConfirmedSwings(candles[..n], left, right))
            == BreaksBefore(Breaks(candles, ConfirmedSwings(candles, left, right)), n)
    ensures BiasFromSwings(ConfirmedSwings(candles[..n], left, right))
            == ScanUpTo(candles, ConfirmedSwings(candles, left, right), n).bias
  {
    var swings := ConfirmedSwings(candles, left, right);
    SwingsNeverRepaint(candles, left, right, n);
    ScanOfPrefix(candles, swings, n, n);
    EventsTimed(candles, swings, n, |candles|);
    ConfirmedSwingsOrdered(candles, left, right);
    ScanMeetsDefinition(candles, swings, n);
  }

  lemma BreakOnFacts(candles: seq<Candle>, swings: seq<Swing>, kind: SwingKind, i: nat, b: Break)
    requires i < |candles|
    ensures |BreakOn(candles, swings, kind, i)| <= 1
    ensures b in BreakOn(candles, swings, kind, i) ==>
              b.index == i && b.direction == Toward(kind) && FirstClose(candles, swings, kind, i, b.swingIndex)
  {
    hide Latest, FirstClose, BiasFromSwings, KnownBefore;
  }

  lemma {:induction false} FirstClosesExact(candles: seq<Candle>, swings: seq<Swing>, n: nat, b: Break)
    requires n <= |candles|
    ensures b in FirstCloses(candles, swings, n) <==>
            b.index < n && (b in BreakOn(candles, swings, High, b.index) || b in BreakOn(candles, swings, Low, b.index))
  {
    hide BreakOn;
    if n > 0 {
      FirstClosesExact(candles, swings, n - 1, b);
      BreakOnFacts(candles, swings, High, n - 1, b);
      BreakOnFacts(candles, swings, Low, n - 1, b);
    }
  }

  /** Every break crosses a confirmed level that is the newest of its kind, on the first bar to close beyond it. */
  lemma BreaksExact(candles: seq<Candle>, left: nat, right: nat, b: Break)
    ensures var swings := ConfirmedSwings(candles, left, right);
            b in Breaks(candles, swings) <==>
            && b.index < |candles|
            && (b in BreakOn(candles, swings, High, b.index) || b in BreakOn(candles, swings, Low, b.index))
  {
    hide ConfirmedSwings, Breaks, FirstCloses, BreakOn;
    var swings := ConfirmedSwings(candles, left, right);
    BreaksMeetDefinition(candles, left, right);
    FirstClosesExact(candles, swings, |candles|, b);
  }

  lemma BreakUsesConfirmedSwing(candles: seq<Candle>, left: nat, right: nat, b: Break) returns (s: Swing)
    requires b in Breaks(candles, ConfirmedSwings(candles, left, right))
    ensures s in ConfirmedSwings(candles, left, right)
    ensures s.confirmedIndex <= b.index < |candles| && s.index == b.swingIndex && s.price == b.level
    ensures b.direction == Toward(s.kind) && Crosses(s.kind, candles[b.index].close, b.level)
  {
    hide Breaks, ConfirmedSwings, KnownBefore, OfKind, BiasFromSwings;
    var swings := ConfirmedSwings(candles, left, right);
    BreaksExact(candles, left, right, b);
    var kind := if b in BreakOn(candles, swings, High, b.index) then High else Low;
    s := Latest(swings, kind, b.index).value;
    OfKindKind(KnownBefore(swings, b.index + 1), kind);
    KnownBeforeExact(swings, b.index + 1);
  }

  /** No level is broken twice. */
  lemma NoSwingBrokenTwice(candles: seq<Candle>, left: nat, right: nat, i: nat, j: nat)
    requires i < j < |Breaks(candles, ConfirmedSwings(candles, left, right))|
    ensures var events := Breaks(candles, ConfirmedSwings(candles, left, right));
            !(events[i].direction == events[j].direction && events[i].swingIndex == events[j].swingIndex)
  {
    hide ConfirmedSwings, Breaks, FirstCloses;
    var swings := ConfirmedSwings(candles, left, right);
    BreaksMeetDefinition(candles, left, right);
    DistinctUpTo(candles, swings, |candles|, i, j);
  }

  lemma {:induction false} DistinctUpTo(candles: seq<Candle>, swings: seq<Swing>, n: nat, i: nat, j: nat)
    requires n <= |candles| && i < j < |FirstCloses(candles, swings, n)|
    ensures var events := FirstCloses(candles, swings, n);
            !(events[i].direction == events[j].direction && events[i].swingIndex == events[j].swingIndex)
  {
    hide BreakOn, ClosesBeyond;
    var before := FirstCloses(candles, swings, n - 1);
    if j < |before| {
      DistinctUpTo(candles, swings, n - 1, i, j);
    } else {
      var events := FirstCloses(candles, swings, n);
      var earlier, later := events[i], events[j];
      BreakOnFacts(candles, swings, High, n - 1, later);
      BreakOnFacts(candles, swings, Low, n - 1, later);
      BreakOnFacts(candles, swings, High, n - 1, earlier);
      BreakOnFacts(candles, swings, Low, n - 1, earlier);
      if i < |before| {
        FirstClosesExact(candles, swings, n - 1, earlier);
        BreakOnFacts(candles, swings, High, earlier.index, earlier);
        BreakOnFacts(candles, swings, Low, earlier.index, earlier);
      }
    }
  }

  /** `i` and `j` are the two newest swings of a kind. */
  ghost predicate NewestTwo(swings: seq<Swing>, kind: SwingKind, i: nat, j: nat) {
    && i < j < |swings| && swings[i].kind == kind && swings[j].kind == kind
    && (forall k :: i < k < |swings| && k != j ==> swings[k].kind != kind)
  }

  /** The newest swing of a kind lies above the one before it, or below it. */
  ghost predicate Rises(swings: seq<Swing>, kind: SwingKind) {
    exists i: nat, j: nat :: NewestTwo(swings, kind, i, j) && swings[j].price > swings[i].price
  }

  ghost predicate Falls(swings: seq<Swing>, kind: SwingKind) {
    exists i: nat, j: nat :: NewestTwo(swings, kind, i, j) && swings[j].price < swings[i].price
  }

  lemma {:induction false} NewestOfKind(swings: seq<Swing>, kind: SwingKind) returns (j: nat)
    requires OfKind(swings, kind) != []
    ensures var all := OfKind(swings, kind);
            && j < |swings| && swings[j] == all[|all| - 1] && OfKind(swings[..j], kind) == all[..|all| - 1]
    ensures swings[j].kind == kind && forall k :: j < k < |swings| ==> swings[k].kind != kind
  {
    var front := swings[..|swings| - 1];
    if swings[|swings| - 1].kind == kind {
      j := |swings| - 1;
    } else {
      j := NewestOfKind(front, kind);
      assert front[..j] == swings[..j];
    }
  }

  lemma {:induction false} NoneOfKind(swings: seq<Swing>, kind: SwingKind)
    requires OfKind(swings, kind) == []
    ensures forall k :: 0 <= k < |swings| ==> swings[k].kind != kind
  {
    if swings != [] {
      NoneOfKind(swings[..|swings| - 1], kind);
    }
  }

  /** Comparing the last two levels of a kind is comparing its two newest swings. */
  lemma MoveIsOfNewestTwo(swings: seq<Swing>, kind: SwingKind)
    ensures Move(OfKind(swings, kind)) == 1 <==> Rises(swings, kind)
    ensures Move(OfKind(swings, kind)) == -1 <==> Falls(swings, kind)
  {
    hide OfKind;
    var all := OfKind(swings, kind);
    if all == [] {
      NoneOfKind(swings, kind);
    } else {
      var j := NewestOfKind(swings, kind);
      var before := swings[..j];
      if |all| == 1 {
        NoneOfKind(before, kind);
        assert forall k :: 0 <= k < j ==> before[k] == swings[k];
      } else {
        var i := NewestOfKind(before, kind);
        assert forall k :: 0 <= k < j ==> before[k] == swings[k];
        assert NewestTwo(swings, kind, i, j);
      }
    }
  }

  /** The structure summary; its bias is the one the break scanner kept. */
  method AnalyzeStructure(candles: seq<Candle>, left: int, right: int) returns (r: Result<Analysis>)
    ensures r.Ok? <==> left > 0 && right > 0 && ValidSequence(candles)
    ensures r.Ok? ==>
              && r.value.swings == ConfirmedSwings(candles, left, right)
              && r.value.breaks == FirstCloses(candles, r.value.swings, |candles|)
              && r.value.bias == ScanUpTo(candles, r.value.swings, |candles|).bias
              && r.value.support == LevelPrice(Latest(r.value.swings, Low, |candles|))
              && r.value.resistance == LevelPrice(Latest(r.value.swings, High, |candles|))
    ensures r.Ok? ==>
              && (r.value.higherHigh <==> Rises(r.value.swings, High))
              && (r.value.lowerHigh <==> Falls(r.value.swings, High))
              && (r.value.higherLow <==> Rises(r.value.swings, Low))
              && (r.value.lowerLow <==> Falls(r.value.swings, Low))
              && (r.value.bias == Bullish <==> r.value.higherHigh && r.value.higherLow)
              && (r.value.bias == Bearish <==> r.value.lowerHigh && r.value.lowerLow)
  {
    hide ValidSequence, ConfirmedSwings, ScanUpTo, FirstCloses, OfKind, Latest, Move;
    var found := FindSwings(candles, left, right);
    if found.Err? {
      return Err(found.error);
    }
    var swings := found.value;
    var breaks, _ := StructureBreaks(candles, swings);
    ConfirmedSwingsOrdered(candles, left, right);
    BreaksMeetDefinition(candles, left, right);
    IncrementalBias(candles, left, right);
    LatestOfAll(swings, High, |candles|);
    LatestOfAll(swings, Low, |candles|);
    MoveIsOfNewestTwo(swings, High);
    MoveIsOfNewestTwo(swings, Low);
    hide Rises, Falls;
    var lows, highs := OfKind(swings, Low), OfKind(swings, High);
    var higherHigh, higherLow, lowerHigh, lowerLow := Comparisons(highs, lows);
    return Ok(Analysis(
                Trend(highs, lows), swings, breaks, higherHigh, higherLow, lowerHigh, lowerLow,
                if lows == [] then None else Some(lows[|lows| - 1].price),
                if highs == [] then None else Some(highs[|highs| - 1].price)));
  }

  lemma LatestOfAll(swings: seq<Swing>, kind: SwingKind, n: nat)
    requires forall s :: s in swings ==> s.confirmedIndex < n
    ensures var all := OfKind(swings, kind);
            Latest(swings, kind, n) == if all == [] then None else Some(all[|all| - 1])
  {
    AllKnownBefore(swings, n + 1);
  }

  function LevelPrice(level: Option<Swing>): Option<real> {
    if level.None? then None else Some(level.value.price)
  }
}
