/** Candle validation and point-in-time-safe selection. */
module Candles {
  import opened Domain
  import Sorting

  datatype CandleData = CandleData(
    symbol: string,
    timeframe: Timeframe,
    timestamp: Time,
    open: real,
    high: real,
    low: real,
    close: real,
    volume: real,
    spread: real,
    complete: bool)

  /** The checks every candle passes on construction. */
  type Candle = c: CandleData |
      && c.open <= c.high && c.close <= c.high && c.low <= c.high
      && c.low <= c.open && c.low <= c.close
      && 0.0 <= c.volume && 0.0 <= c.spread
    witness CandleData("", M5, 0, 1.0, 1.0, 1.0, 1.0, 0.0, 0.0, true)

  /** The instant at which a bar is fully known. */
  function CloseTime(candle: Candle): Time {
    candle.timestamp + candle.timeframe.Seconds() * SECOND
  }

  predicate Earlier(a: Candle, b: Candle) {
    a.timestamp <= b.timestamp
  }

  ghost predicate ValidSequence(candles: seq<Candle>) {
    && (forall i :: 0 <= i < |candles| ==>
          candles[i].symbol == candles[0].symbol && candles[i].timeframe == candles[0].timeframe)
    && (forall i, j :: 0 <= i < j < |candles| ==> candles[i].timestamp < candles[j].timestamp)
  }

  lemma CloseTimesIncrease(candles: seq<Candle>)
    requires ValidSequence(candles)
    ensures forall i, j :: 0 <= i < j < |candles| ==> CloseTime(candles[i]) < CloseTime(candles[j])
  {
  }

  /** Accepts exactly the homogeneous, strictly increasing sequences, unchanged. */
  method ValidateSequence(candles: seq<Candle>) returns (r: Result<seq<Candle>>)
    ensures r.Ok? <==> ValidSequence(candles)
    ensures r.Ok? ==> r.value == candles
  {
    if |candles| == 0 {
      return Ok([]);
    }
    var symbol, timeframe := candles[0].symbol, candles[0].timeframe;
    var previous: Option<Time> := None;
    for i := 0 to |candles|
      invariant ValidSequence(candles[..i])
      invariant i == 0 <==> previous.None?
      invariant i > 0 ==> previous == Some(candles[i - 1].timestamp)
    {
      var candle := candles[i];
      if candle.symbol != symbol || candle.timeframe != timeframe {
        return Err("a candle sequence must use one symbol and timeframe");
      }
      if previous.Some? && candle.timestamp <= previous.value {
        return Err("candle timestamps must be strictly increasing");
      }
      previous := Some(candle.timestamp);
      assert forall k :: 0 <= k < i ==> candles[..i][k] == candles[k];
      assert candles[..i + 1] == candles[..i] + [candle];
    }
    assert candles[..|candles|] == candles;
    return Ok(candles);
  }

  predicate IsAvailable(candle: Candle, asOf: Option<Time>, closedOnly: bool) {
    && (asOf.Some? ==> (if closedOnly then CloseTime(candle) else candle.timestamp) <= asOf.value)
    && (closedOnly ==> candle.complete)
  }

  /** The candles of `s` that are available, in their order. */
  function Available(s: seq<Candle>, asOf: Option<Time>, closedOnly: bool): (r: seq<Candle>) {
    if s == [] then []
    else
      var rest := Available(s[..|s| - 1], asOf, closedOnly);
      if IsAvailable(s[|s| - 1], asOf, closedOnly) then rest + [s[|s| - 1]] else rest
  }

  /** Selects, in time order, exactly the candles available at `asOf`. */
  method ClosedCandles(candles: seq<Candle>, asOf: Option<Time>, closedOnly: bool)
    returns (r: Result<seq<Candle>>)
    ensures r.Ok? <==> ValidSequence(Sorting.SortBy(candles, Earlier))
    ensures r.Ok? ==> r.value == Available(Sorting.SortBy(candles, Earlier), asOf, closedOnly)
  {
    var ordered := Sorting.SortBy(candles, Earlier);
    var validated := ValidateSequence(ordered);
    if validated.Err? {
      return Err(validated.error);
    }
    var selected: seq<Candle> := [];
    for i := 0 to |ordered|
      invariant selected == Available(ordered[..i], asOf, closedOnly)
    {
      var candle := ordered[i];
      assert ordered[..i + 1][..i] == ordered[..i];
      if asOf.Some? {
        var availability := if closedOnly then CloseTime(candle) else candle.timestamp;
        if availability > asOf.value {
          continue;
        }
      }
      if closedOnly && !candle.complete {
        continue;
      }
      selected := selected + [candle];
    }
    assert ordered[..|ordered|] == ordered;
    return Ok(selected);
  }

  function LastOf<T>(s: seq<T>, count: nat): seq<T> {
    if |s| <= count then s else s[|s| - count..]
  }

  /** At most `count` closed bars available at a historical instant. */
  method LatestAvailableCandles(candles: seq<Candle>, asOf: Time, count: int)
    returns (r: Result<seq<Candle>>)
    ensures r.Ok? <==> count > 0 && ValidSequence(Sorting.SortBy(candles, Earlier))
    ensures r.Ok? ==> r.value == LastOf(Available(Sorting.SortBy(candles, Earlier), Some(asOf), true), count)
  {
    if count <= 0 {
      return Err("count must be positive");
    }
    var available := ClosedCandles(candles, Some(asOf), true);
    if available.Err? {
      return available;
    }
    return Ok(LastOf(available.value, count));
  }

  /** Selection keeps exactly the available elements. */
  lemma {:induction false} AvailableExact(s: seq<Candle>, asOf: Option<Time>, closedOnly: bool, c: Candle)
    ensures c in Available(s, asOf, closedOnly) <==> c in s && IsAvailable(c, asOf, closedOnly)
  {
    if s != [] {
      AvailableExact(s[..|s| - 1], asOf, closedOnly, c);
      assert s == s[..|s| - 1] + [s[|s| - 1]];
    }
  }

  /** Selection keeps a valid sequence valid, in particular in time order. */
  lemma {:induction false} AvailableValid(s: seq<Candle>, asOf: Option<Time>, closedOnly: bool)
    requires ValidSequence(s)
    ensures ValidSequence(Available(s, asOf, closedOnly))
  {
    if s != [] {
      var front, last := s[..|s| - 1], s[|s| - 1];
      AvailableValid(front, asOf, closedOnly);
      var rest := Available(front, asOf, closedOnly);
      forall i | 0 <= i < |rest|
        ensures rest[i].symbol == last.symbol && rest[i].timeframe == last.timeframe
        ensures rest[i].timestamp < last.timestamp
      {
        AvailableExact(front, asOf, closedOnly, rest[i]);
        var k :| 0 <= k < |front| && front[k] == rest[i];
        assert s[k] == rest[i];
      }
    }
  }

  /**
   * When the complete bars of a sequence that have closed by `asOf` come first, the available
   * bars are that leading run.
   */
  lemma {:induction false} AvailableIsPrefix(s: seq<Candle>, asOf: Time, end: nat)
    requires end <= |s|
    requires forall i :: 0 <= i < |s| ==> s[i].complete && (CloseTime(s[i]) <= asOf <==> i < end)
    ensures Available(s, Some(asOf), true) == s[..end]
  {
    if s != [] {
      var front := s[..|s| - 1];
      if end == |s| {
        AvailableIsPrefix(front, asOf, end - 1);
        assert s[..end] == front[..end - 1] + [s[|s| - 1]];
      } else {
        AvailableIsPrefix(front, asOf, end);
        assert front[..end] == s[..end];
      }
    }
  }
}
