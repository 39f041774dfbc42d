/** The sliding-window request limiter. */
module RateLimiter {

  const WINDOW := 60.0

  /** Removes expired instants from the front, up to the first that is still live. */
  function DropExpired(times: seq<real>, cutoff: real): seq<real> {
    if times != [] && times[0] <= cutoff then DropExpired(times[1..], cutoff) else times
  }

  function BucketOf(requests: map<string, seq<real>>, key: string): seq<real> {
    if key in requests then requests[key] else []
  }

  /** One request: the surviving bucket, extended if there is room. */
  function Decided(requests: map<string, seq<real>>, limit: nat, key: string, now: real)
    : (map<string, seq<real>>, bool)
  {
    var live := DropExpired(BucketOf(requests, key), now - WINDOW);
    if |live| >= limit then (requests[key := live], false) else (requests[key := live + [now]], true)
  }

  class SlidingWindowRateLimiter {
    const limit: nat
    var requests: map<string, seq<real>>

    constructor (limit: nat)
      requires limit >= 1
      ensures this.limit == limit && requests == map[]
    {
      this.limit := limit;
      requests := map[];
    }

    method Allowed(key: string, now: real) returns (ok: bool)
      modifies this
      ensures (requests, ok) == Decided(old(requests), limit, key, now)
    {
      var cutoff := now - WINDOW;
      var bucket := if key in requests then requests[key] else [];
      while bucket != [] && bucket[0] <= cutoff
        invariant DropExpired(bucket, cutoff) == DropExpired(BucketOf(requests, key), cutoff)
        decreases |bucket|
      {
        bucket := bucket[1..];
      }
      if |bucket| >= limit {
        requests := requests[key := bucket];
        return false;
      }
      bucket := bucket + [now];
      requests := requests[key := bucket];
      return true;
    }
  }

  // ---------------------------------------------------------------------------
  // Whole runs
  // ---------------------------------------------------------------------------

  datatype Request = Request(key: string, now: real)

  /** The limiter's buckets next to the full record of what it accepted. */
  datatype Log = Log(requests: map<string, seq<real>>, accepted: map<string, seq<real>>)

  function Served(calls: seq<Request>, limit: nat): Log {
    if calls == [] then Log(map[], map[])
    else
      var before, call := Served(calls[..|calls| - 1], limit), calls[|calls| - 1];
      var (requests, ok) := Decided(before.requests, limit, call.key, call.now);
      Log(requests,
          if ok then before.accepted[call.key := BucketOf(before.accepted, call.key) + [call.now]] else before.accepted)
  }

  ghost predicate NonDecreasing(times: seq<real>) {
    forall i, j :: 0 <= i < j < |times| ==> times[i] <= times[j]
  }

  ghost predicate ClockForward(calls: seq<Request>) {
    forall i, j :: 0 <= i < j < |calls| ==> calls[i].now <= calls[j].now
  }

  /** How many instants fall after `after`, up to and including `upto`. */
  function CountWithin(times: seq<real>, after: real, upto: real): nat {
    if times == [] then 0
    else
      var last := times[|times| - 1];
      CountWithin(times[..|times| - 1], after, upto) + (if after < last <= upto then 1 else 0)
  }

  /** How many instants fall in the 60 s that end with `t`, the start excluded. */
  function InWindow(times: seq<real>, t: real): nat {
    CountWithin(times, t - WINDOW, t)
  }

  lemma {:induction false} DropTwice(times: seq<real>, early: real, late: real)
    requires early <= late
    ensures DropExpired(DropExpired(times, early), late) == DropExpired(times, late)
  {
    if times != [] && times[0] <= early {
      DropTwice(times[1..], early, late);
    }
  }

  lemma {:induction false} DropAppend(times: seq<real>, x: real, cutoff: real)
    requires x > cutoff
    ensures DropExpired(times + [x], cutoff) == DropExpired(times, cutoff) + [x]
  {
    if times != [] && times[0] <= cutoff {
      DropAppend(times[1..], x, cutoff);
      assert (times + [x])[1..] == times[1..] + [x];
    } else if times == [] {
      assert times + [x] == [x];
    }
  }

  lemma {:induction false} CountAll(times: seq<real>, after: real, upto: real)
    requires forall i :: 0 <= i < |times| ==> after < times[i] <= upto
    ensures CountWithin(times, after, upto) == |times|
  {
    if times != [] {
      CountAll(times[..|times| - 1], after, upto);
    }
  }

  lemma {:induction false} CountHead(times: seq<real>, after: real, upto: real)
    requires times != []
    ensures CountWithin(times, after, upto) ==
            CountWithin(times[1..], after, upto) + (if after < times[0] <= upto then 1 else 0)
  {
    if |times| == 1 {
      assert times[..0] == [] && times[1..] == [];
    } else {
      var n := |times| - 1;
      CountHead(times[..n], after, upto);
      assert times[1..][..n - 1] == times[..n][1..];
    }
  }

  /** In time order, what survives the front pops is exactly what is inside the window. */
  lemma {:induction false} LiveIsWindow(times: seq<real>, cutoff: real, now: real)
    requires NonDecreasing(times) && forall i :: 0 <= i < |times| ==> times[i] <= now
    ensures |DropExpired(times, cutoff)| == CountWithin(times, cutoff, now)
  {
    if times != [] {
      if times[0] <= cutoff {
        LiveIsWindow(times[1..], cutoff, now);
        CountHead(times, cutoff, now);
      } else {
        CountAll(times, cutoff, now);
      }
    }
  }

  lemma {:induction false} CountNested(times: seq<real>, after: real, upto: real, after': real, upto': real)
    requires after' <= after
    requires forall i :: 0 <= i < |times| && times[i] <= upto ==> times[i] <= upto'
    ensures CountWithin(times, after, upto) <= CountWithin(times, after', upto')
  {
    if times != [] {
      CountNested(times[..|times| - 1], after, upto, after', upto');
    }
  }

  /** What holds for one key after a run whose clock stands at `now`. */
  ghost predicate KeyOk(log: Log, limit: nat, key: string, now: real) {
    var accepted := BucketOf(log.accepted, key);
    && NonDecreasing(accepted)
    && (forall i :: 0 <= i < |accepted| ==> accepted[i] <= now)
    && (forall d :: d >= now - WINDOW ==> DropExpired(BucketOf(log.requests, key), d) == DropExpired(accepted, d))
    && (forall t: real :: InWindow(accepted, t) <= limit)
  }

  lemma {:induction false} RunOk(calls: seq<Request>, limit: nat, key: string, now: real)
    requires ClockForward(calls) && forall i :: 0 <= i < |calls| ==> calls[i].now <= now
    ensures KeyOk(Served(calls, limit), limit, key, now)
  {
    hide InWindow;
    if calls == [] {
      var accepted := BucketOf(Served(calls, limit).accepted, key);
      forall t: real
        ensures InWindow(accepted, t) <= limit
      {
        EmptyWindow(t);
      }
    } else {
      var front, call := calls[..|calls| - 1], calls[|calls| - 1];
      RunOk(front, limit, key, call.now);
      var before, log := Served(front, limit), Served(calls, limit);
      if call.key == key {
        StepOk(before, limit, key, call.now);
      } else {
        assert BucketOf(log.accepted, key) == BucketOf(before.accepted, key);
        assert BucketOf(log.requests, key) == BucketOf(before.requests, key);
      }
      assert KeyOk(log, limit, key, call.now);
      hide Served;
      KeyLater(log, limit, key, call.now, now);
    }
  }

  lemma EmptyWindow(t: real)
    ensures InWindow([], t) == 0
  {
  }

  lemma KeyLater(log: Log, limit: nat, key: string, early: real, late: real)
    requires KeyOk(log, limit, key, early) && early <= late
    ensures KeyOk(log, limit, key, late)
  {
    hide DropExpired, InWindow;
  }

  lemma StepOk(before: Log, limit: nat, key: string, now: real)
    requires KeyOk(before, limit, key, now)
    ensures var (requests, ok) := Decided(before.requests, limit, key, now);
            var accepted := BucketOf(before.accepted, key);
            && (ok <==> InWindow(accepted, now) < limit)
            && KeyOk(Log(requests, if ok then before.accepted[key := accepted + [now]] else before.accepted), limit,
                     key, now)
  {
    hide CountWithin;
    var accepted, bucket := BucketOf(before.accepted, key), BucketOf(before.requests, key);
    var live := DropExpired(bucket, now - WINDOW);
    assert live == DropExpired(accepted, now - WINDOW);
    LiveIsWindow(accepted, now - WINDOW, now);
    DropKeeps(accepted, now - WINDOW);
    hide InWindow;
    var (requests, ok) := Decided(before.requests, limit, key, now);
    forall d | d >= now - WINDOW
      ensures DropExpired(BucketOf(requests, key), d) == DropExpired(if ok then accepted + [now] else accepted, d)
    {
      DropTwice(bucket, now - WINDOW, d);
      if ok {
        if d < now {
          DropAppend(live, now, d);
          DropAppend(accepted, now, d);
        } else {
          DropEverything(live + [now], d);
          DropEverything(accepted + [now], d);
        }
      }
    }
    if ok {
      forall t: real
        ensures InWindow(accepted + [now], t) <= limit
      {
        WindowsStayWithin(accepted, limit, now, t);
      }
    }
  }

  lemma {:induction false} DropKeeps(times: seq<real>, cutoff: real)
    ensures forall i :: 0 <= i < |DropExpired(times, cutoff)| ==> DropExpired(times, cutoff)[i] in times
  {
    if times != [] && times[0] <= cutoff {
      DropKeeps(times[1..], cutoff);
    }
  }

  lemma {:induction false} DropEverything(times: seq<real>, d: real)
    requires forall i :: 0 <= i < |times| ==> times[i] <= d
    ensures DropExpired(times, d) == []
  {
    if times != [] {
      DropEverything(times[1..], d);
    }
  }

  lemma WindowsStayWithin(accepted: seq<real>, limit: nat, now: real, t: real)
    requires forall i :: 0 <= i < |accepted| ==> accepted[i] <= now
    requires InWindow(accepted, now) < limit
    requires InWindow(accepted, t) <= limit
    ensures InWindow(accepted + [now], t) <= limit
  {
    assert (accepted + [now])[..|accepted|] == accepted;
    if now <= t {
      CountNested(accepted, t - WINDOW, t, now - WINDOW, now);
    }
  }

  /**
   * On a clock that does not go back, a request is accepted exactly when fewer than the limit were accepted for its key
   * in the last 60 s.
   */
  lemma AcceptedIffRoom(calls: seq<Request>, limit: nat, next: Request)
    requires ClockForward(calls + [next])
    ensures Decided(Served(calls, limit).requests, limit, next.key, next.now).1 <==>
            InWindow(BucketOf(Served(calls, limit).accepted, next.key), next.now) < limit
  {
    hide InWindow;
    var all := calls + [next];
    assert forall i :: 0 <= i < |calls| ==> calls[i] == all[i] && calls[i].now <= all[|calls|].now;
    RunOk(calls, limit, next.key, next.now);
    hide Served;
    StepOk(Served(calls, limit), limit, next.key, next.now);
  }

  /** So no window of 60 s, open at its start, ever holds more than the limit. */
  lemma NoWindowExceedsLimit(calls: seq<Request>, limit: nat, key: string, t: real)
    requires ClockForward(calls)
    ensures InWindow(BucketOf(Served(calls, limit).accepted, key), t) <= limit
  {
    hide InWindow;
    if calls == [] {
      RunOk(calls, limit, key, 0.0);
    } else {
      RunOk(calls, limit, key, calls[|calls| - 1].now);
    }
  }

  /** Closed at both ends a window can hold twice as many: a limit of one accepts at 0 s and again at 60 s. */
  lemma ClosedWindowCanExceed()
    ensures BucketOf(Served([Request("k", 0.0), Request("k", 60.0)], 1).accepted, "k") == [0.0, 60.0]
  {
    var calls := [Request("k", 0.0), Request("k", 60.0)];
    assert calls[..1] == [Request("k", 0.0)] && [Request("k", 0.0)][..0] == [];
    assert Served([], 1) == Log(map[], map[]);
    var none: seq<real> := [];
    assert none + [0.0] == [0.0];
    var first := Served([Request("k", 0.0)], 1);
    assert first.requests == map["k" := [0.0]] && first.accepted == map["k" := [0.0]];
    assert DropExpired([0.0], 0.0) == DropExpired([], 0.0) == [] by {
      assert [0.0][1..] == [];
    }
    assert [0.0] + [60.0] == [0.0, 60.0];
  }
}
