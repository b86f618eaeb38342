/**
 * MetricsSampler.java: a first-in first-out window of the last 200 tick
 * durations (nanoseconds), the mean tick time in milliseconds derived from
 * it, and ticks per second capped at 20. Java's `Double.NaN` ("no data") is
 * `None`; means are exact `real` values.
 */
module TickSampling {
  import opened Base

  /** WINDOW: 200 ticks, about 10 s at 20 ticks per second. */
  const Window: nat := 200
  const NanosPerMilli: real := 1000000.0
  const MaxTps: real := 20.0

  /** The duration recorded by `onTickEnd`: clock anomalies are clamped to zero. */
  function TickDuration(lastTickNanos: int, now: int): (dt: int)
    ensures dt >= 0
    ensures now >= lastTickNanos ==> dt == now - lastTickNanos
    ensures now < lastTickNanos ==> dt == 0
  {
    Max(0, now - lastTickNanos)
  }

  /** The window after one `onTickEnd` that recorded `dt`. */
  function Push(w: seq<int>, dt: int): (r: seq<int>)
  {
    (if |w| >= Window then w[1..] else w) + [dt]
  }

  /** The window after recording `dts`, oldest first. */
  function Feed(w: seq<int>, dts: seq<int>): seq<int>
    decreases |dts|
  {
    if dts == [] then w else Feed(Push(w, dts[0]), dts[1..])
  }

  /** One tick appends at the back and, on a full window, drops only the oldest entry. */
  lemma PushIsFifo(w: seq<int>, dt: int)
    requires |w| <= Window
    ensures |Push(w, dt)| == Min(|w| + 1, Window)
    ensures Push(w, dt) == (w + [dt])[|w| + 1 - |Push(w, dt)|..]
    ensures Push(w, dt)[|Push(w, dt)| - 1] == dt
  {
    if |w| == Window {
      assert (w + [dt])[1..] == w[1..] + [dt];
    } else {
      assert (w + [dt])[0..] == w + [dt];
    }
  }

  lemma DropOfConcat(a: seq<int>, b: seq<int>, k: nat)
    requires k <= |a|
    ensures (a + b)[k..] == a[k..] + b
  {
  }

  lemma DropOfDrop(x: seq<int>, i: nat, j: nat)
    requires i + j <= |x|
    ensures x[i..][j..] == x[i + j..]
  {
  }

  /** Any run of ticks leaves exactly the last (at most) 200 durations, in arrival order. */
  lemma {:induction false} FeedKeepsNewest(w: seq<int>, dts: seq<int>)
    requires |w| <= Window
    ensures |Feed(w, dts)| == Min(|w| + |dts|, Window)
    ensures Feed(w, dts) == (w + dts)[|w| + |dts| - |Feed(w, dts)|..]
    decreases |dts|
  {
    if dts == [] {
      assert w + dts == w;
    } else {
      var rest := dts[1..];
      var w' := Push(w, dts[0]);
      PushIsFifo(w, dts[0]);
      var drop := |w| + 1 - |w'|;
      FeedKeepsNewest(w', rest);
      var f := Feed(w', rest);
      assert f == Feed(w, dts);
      var k := |w'| + |rest| - |f|;
      assert w + dts == (w + [dts[0]]) + rest;
      DropOfConcat(w + [dts[0]], rest, drop);
      assert w' + rest == (w + dts)[drop..];
      DropOfDrop(w + dts, drop, k);
      assert drop + k == |w| + |dts| - |f|;
    }
  }

  /** Starting empty, the window grows by one per tick up to 200 and then stays at 200. */
  lemma WindowLengthFromEmpty(dts: seq<int>)
    ensures |Feed([], dts)| == Min(|dts|, Window)
  {
    FeedKeepsNewest([], dts);
  }

  /** The sum of a window, added up front to back as `avgTickMs` does. */
  function Sum(s: seq<int>): int
  {
    if s == [] then 0 else Sum(s[..|s| - 1]) + s[|s| - 1]
  }

  lemma {:induction false} SumNonNegative(s: seq<int>)
    requires forall i :: 0 <= i < |s| ==> s[i] >= 0
    ensures Sum(s) >= 0
  {
    if s != [] {
      SumNonNegative(s[..|s| - 1]);
    }
  }

  lemma {:induction false} SumConstant(s: seq<int>, v: int)
    requires forall i :: 0 <= i < |s| ==> s[i] == v
    ensures Sum(s) == |s| * v
  {
    if s != [] {
      SumConstant(s[..|s| - 1], v);
    }
  }

  /** `avgTickMs` as a value: no data on an empty window, else the mean in milliseconds. */
  function AverageMs(w: seq<int>): (ms: Option<real>)
    ensures ms.None? <==> w == []
  {
    if w == [] then None else Some((Sum(w) as real / |w| as real) / NanosPerMilli)
  }

  /** `tps`: no data when the mean is missing or not positive, otherwise 1000 / mean capped at 20. */
  function Tps(ms: Option<real>): (tps: Option<real>)
    ensures tps.None? <==> ms.None? || ms.value <= 0.0
    ensures tps.Some? ==> 0.0 < tps.value <= MaxTps
    ensures tps.Some? ==> tps.value == MaxTps || tps.value * ms.value == 1000.0
    ensures tps.Some? ==> (tps.value == MaxTps <==> MaxTps * ms.value <= 1000.0)
  {
    if ms.None? || ms.value <= 0.0 then None
    else
      var t := 1000.0 / ms.value;
      if MaxTps <= t then Some(MaxTps) else Some(t)
  }

  /** A window of identical durations `v` averages to `v` nanoseconds. */
  lemma AverageOfConstantWindow(w: seq<int>, v: int)
    requires w != []
    requires forall i :: 0 <= i < |w| ==> w[i] == v
    ensures AverageMs(w) == Some(v as real / NanosPerMilli)
  {
    SumConstant(w, v);
    var n := |w| as real;
    assert Sum(w) as real == n * v as real;
    assert (n * v as real) / n == v as real;
  }

  /** Steady 50 ms ticks give a mean of 50 ms and the capped rate of 20 ticks per second. */
  lemma SteadyServerRunsAtCap(w: seq<int>)
    requires w != []
    requires forall i :: 0 <= i < |w| ==> w[i] == 50000000
    ensures AverageMs(w) == Some(50.0)
    ensures Tps(AverageMs(w)) == Some(MaxTps)
  {
    AverageOfConstantWindow(w, 50000000);
  }

  class MetricsSampler {
    /** tickDurationsNanos, oldest first. */
    var window: seq<int>
    var lastTickNanos: int

    ghost predicate Valid()
      reads this
    {
      |window| <= Window && forall i :: 0 <= i < |window| ==> window[i] >= 0
    }

    /** The sampler starts empty, timed from the clock reading `now`. */
    constructor (now: int)
      ensures Valid() && window == [] && lastTickNanos == now
    {
      window := [];
      lastTickNanos := now;
    }

    /** `onTickEnd`, with `now` the reading of `System.nanoTime`. */
    method OnTickEnd(now: int)
      requires Valid()
      modifies this
      ensures Valid()
      ensures lastTickNanos == now
      ensures window == Push(old(window), TickDuration(old(lastTickNanos), now))
      ensures |window| == Min(|old(window)| + 1, Window)
    {
      var dt := Max(0, now - lastTickNanos);
      lastTickNanos := now;
      if |window| >= Window {
        window := window[1..];
      }
      window := window + [dt];
    }

    /** `avgTickMs`: sums the window in a loop then divides. */
    method AvgTickMs() returns (ms: Option<real>)
      ensures ms == AverageMs(window)
      ensures Valid() && ms.Some? ==> ms.value >= 0.0
    {
      if |window| == 0 {
        return None;
      }
      var sum := 0;
      for i := 0 to |window|
        invariant sum == Sum(window[..i])
      {
        assert window[..i + 1][..i] == window[..i];
        sum := sum + window[i];
      }
      assert window[..|window|] == window;
      ms := Some((sum as real / |window| as real) / NanosPerMilli);
      if Valid() {
        SumNonNegative(window);
      }
    }

    /** `tps`, computed from the current mean. */
    method CurrentTps() returns (tps: Option<real>)
      ensures tps == Tps(AverageMs(window))
      ensures tps.Some? ==> tps.value <= MaxTps
    {
      var ms := AvgTickMs();
      tps := Tps(ms);
    }
  }
}
