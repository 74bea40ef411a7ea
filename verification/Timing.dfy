/**
 * From 32-bit RTP timestamps to microseconds on one clock shared by both tracks. Numbers are ideal:
 * timestamps are integers and arrival times are reals, in milliseconds.
 */
module Timing {
  import opened Integers
  import opened Sequences

  const CLOCK_RATE: nat := 90_000
  const AUDIO_CLOCK_RATE: nat := 48_000

  /** The `x | 0` conversion to a signed 32-bit integer. */
  function ToInt32(x: int): int
  {
    (x + 0x8000_0000) % 0x1_0000_0000 - 0x8000_0000
  }

  /** `Math.round`: the nearest integer, halves upwards. */
  function Round(x: real): (r: int)
    ensures x - 0.5 < r as real <= x + 0.5
  {
    (x + 0.5).Floor
  }

  // ---------------------------------------------------------------------------------------------
  // One track
  // ---------------------------------------------------------------------------------------------

  datatype Clock = Clock(base: Option<int>, last: int, ticks: int)

  function NewClock(): Clock { Clock(None, 0, 0) }

  function Tick(c: Clock, timestamp: int): Clock
  {
    if c.base.None? then Clock(Some(timestamp), timestamp, c.ticks)
    else Clock(c.base, timestamp, c.ticks + ToInt32(timestamp - c.last))
  }

  /** Exact, possibly fractional, microseconds. */
  function Exact(ticks: int, rate: nat): real
    requires rate > 0
  {
    (ticks * 1_000_000) as real / rate as real
  }

  function Micros(ticks: int, rate: nat): int
    requires rate > 0
  {
    Max(0, Round(Exact(ticks, rate)))
  }

  class TimestampConverter {
    const clockRate: nat
    var base: Option<int>
    var last: int
    var ticks: int

    ghost function View(): Clock
      reads this
    {
      Clock(base, last, ticks)
    }

    constructor (clockRate: nat)
      ensures this.clockRate == clockRate && View() == NewClock()
    {
      this.clockRate := clockRate;
      base, last, ticks := None, 0, 0;
    }

    method ToMicros(timestamp: int) returns (micros: int)
      requires clockRate > 0
      modifies this
      ensures View() == Tick(old(View()), timestamp)
      ensures micros == Micros(ticks, clockRate)
    {
      if base.None? {
        base := Some(timestamp);
      } else {
        ticks := ticks + ToInt32(timestamp - last);
      }
      last := timestamp;
      micros := Max(0, Round(Exact(ticks, clockRate)));
    }
  }

  /** The RTP timestamp of a point on the unbounded timeline. */
  function Rtp(time: int): int { time % 0x1_0000_0000 }

  function RunClock(times: seq<int>): Clock
  {
    if times == [] then NewClock() else Tick(RunClock(times[..|times| - 1]), Rtp(times[|times| - 1]))
  }

  /** Successive differences a signed 32-bit delta can express. */
  predicate SmallSteps(times: seq<int>)
  {
    forall i :: 0 < i < |times| ==> -0x8000_0000 <= times[i] - times[i - 1] < 0x8000_0000
  }

  lemma DeltaIsExact(a: int, b: int)
    ensures ToInt32(Rtp(a) - Rtp(b)) == a - b <==> -0x8000_0000 <= a - b < 0x8000_0000
  {
    var k := a / 0x1_0000_0000 - b / 0x1_0000_0000;
    var x := Rtp(a) - Rtp(b) + 0x8000_0000;
    assert a - b + 0x8000_0000 == x + 0x1_0000_0000 * k;
    assert (x + 0x1_0000_0000 * k) % 0x1_0000_0000 == x % 0x1_0000_0000;
  }

  lemma RunClockState(times: seq<int>)
    requires times != []
    ensures RunClock(times).base.Some? && RunClock(times).last == Rtp(times[|times| - 1])
  {
  }

  lemma RunClockAppend(times: seq<int>, t: int)
    ensures RunClock(times + [t]) == Tick(RunClock(times), Rtp(t))
  {
  }

  predicate ExactAfter(times: seq<int>, n: nat)
    requires 0 < n <= |times|
  {
    RunClock(times[..n]).ticks == times[n - 1] - times[0]
  }

  lemma StepIsExact(times: seq<int>, n: nat)
    requires 0 < n < |times| && ExactAfter(times, n)
    ensures ExactAfter(times, n + 1) <==> -0x8000_0000 <= times[n] - times[n - 1] < 0x8000_0000
  {
    assert times[..n + 1][..n] == times[..n];
    RunClockState(times[..n]);
    DeltaIsExact(times[n], times[n - 1]);
  }

  lemma {:induction false} SmallStepsAreExact(times: seq<int>, n: nat)
    requires 0 < n <= |times| && SmallSteps(times)
    ensures ExactAfter(times, n)
  {
    if n == 1 {
      assert times[..1][..0] == [];
    } else {
      SmallStepsAreExact(times, n - 1);
      StepIsExact(times, n - 1);
    }
  }

  /** The accumulated ticks never drift, through any number of wraps, exactly when no step is too large. */
  lemma UnwrapsExactly(times: seq<int>)
    ensures SmallSteps(times) <==> forall n :: 0 < n <= |times| ==> ExactAfter(times, n)
  {
    if SmallSteps(times) {
      forall n | 0 < n <= |times| ensures ExactAfter(times, n) {
        SmallStepsAreExact(times, n);
      }
    } else {
      var i :| 0 < i < |times| && !(-0x8000_0000 <= times[i] - times[i - 1] < 0x8000_0000);
      if ExactAfter(times, i) {
        StepIsExact(times, i);
      }
    }
  }

  lemma ExactMonotone(t: int, u: int, rate: nat)
    requires rate > 0 && t <= u
    ensures Exact(t, rate) <= Exact(u, rate)
  {
  }

  /** The nearest microsecond, clamped at zero, and monotone. */
  lemma MicrosNearestAndMonotone(t: int, u: int, rate: nat)
    requires rate > 0 && t <= u
    ensures 0 <= t ==> -0.5 <= Micros(t, rate) as real - Exact(t, rate) <= 0.5
    ensures t <= 0 ==> Micros(t, rate) == 0
    ensures Micros(t, rate) <= Micros(u, rate)
  {
    ExactMonotone(t, u, rate);
    assert Exact(0, rate) == 0.0;
    if 0 <= t { ExactMonotone(0, t, rate); } else { ExactMonotone(t, 0, rate); }
  }

  lemma {:induction false} NotNegative(a: real, b: real)
    requires a >= 0.0 && b >= 0.0
    ensures a * b >= 0.0
  {
  }

  lemma {:induction false} Scaled(d: real, rate: real) returns (z: real)
    requires rate > 0.0 && -0.5 <= d <= 0.5
    ensures z == d * rate && -0.5 * rate <= z <= 0.5 * rate
  {
    z := d * rate;
    NotNegative(0.5 - d, rate);
    NotNegative(0.5 + d, rate);
    assert (0.5 - d) * rate == 0.5 * rate - z && (0.5 + d) * rate == 0.5 * rate + z;
  }

  lemma {:induction false} ExactTimesRate(t: int, rate: int)
    requires rate > 0
    ensures Exact(t, rate) * rate as real == (t * 1_000_000) as real
  {
  }

  lemma {:induction false} Products(x: real, m: int, rate: int)
    ensures (m as real - x) * rate as real == (m * rate) as real - x * rate as real
  {
    assert (m * rate) as real == m as real * rate as real;
  }

  lemma {:induction false} BackToIntegers(p: int, n: int, z: real, w: real, rate: int)
    requires z == p as real - w && w == n as real && -0.5 * rate as real <= z <= 0.5 * rate as real
    ensures -rate <= 2 * (p - n) <= rate
  {
  }

  lemma {:induction false} NearestInIntegers(x: real, m: int, n: int, rate: int)
    requires rate > 0 && x * rate as real == n as real && -0.5 <= m as real - x <= 0.5
    ensures -rate <= 2 * (m * rate - n) <= rate
  {
    var z := Scaled(m as real - x, rate as real);
    Products(x, m, rate);
    BackToIntegers(m * rate, n, z, x * rate as real, rate);
  }

  /** The same in integers: `t` ticks of a clock of `rate` are 10^6 `t` / `rate` µs, rounded. */
  lemma {:induction false} MicrosInIntegers(t: int, rate: int)
    requires rate > 0 && 0 <= t
    ensures -rate <= 2 * (Micros(t, rate) * rate - t * 1_000_000) <= rate
  {
    MicrosNearestAndMonotone(t, t, rate);
    ExactTimesRate(t, rate);
    NearestInIntegers(Exact(t, rate), Micros(t, rate), t * 1_000_000, rate);
  }

  // ---------------------------------------------------------------------------------------------
  // Two tracks on one clock
  // ---------------------------------------------------------------------------------------------

  datatype Track = Video | Audio

  function Rate(track: Track): nat
  {
    match track
    case Video => CLOCK_RATE
    case Audio => AUDIO_CLOCK_RATE
  }

  datatype Timeline = Timeline(
    video: Clock, audio: Clock,
    origin: Option<real>, videoOffset: Option<int>, audioOffset: Option<int>)
  {
    function ClockOf(track: Track): Clock { if track.Video? then video else audio }
    function OffsetOf(track: Track): Option<int> { if track.Video? then videoOffset else audioOffset }
  }

  function NewTimeline(): Timeline { Timeline(NewClock(), NewClock(), None, None, None) }

  function OffsetFrom(origin: real, at: real): int
  {
    Max(0, Round((at - origin) * 1000.0))
  }

  /** One unit of `track` arrives: its clock moves; the track's offset is set only by its first unit. */
  function Stamp(t: Timeline, track: Track, timestamp: int, at: real): Timeline
  {
    var clock := Tick(t.ClockOf(track), timestamp);
    var first := t.OffsetOf(track).None?;
    var origin := if first && t.origin.None? then Some(at) else t.origin;
    var offset := if first then Some(OffsetFrom(if origin.Some? then origin.value else at, at)) else t.OffsetOf(track);
    if track.Video? then t.(video := clock, origin := origin, videoOffset := offset)
    else t.(audio := clock, origin := origin, audioOffset := offset)
  }

  /** What the native side is given for the unit just stamped. */
  function NativeMicros(t: Timeline, track: Track): int
  {
    Micros(t.ClockOf(track).ticks, Rate(track)) + if t.OffsetOf(track).Some? then t.OffsetOf(track).value else 0
  }

  /** A unit at point `time` of its track's unbounded media timeline, arriving at `at` ms. */
  datatype Sample = Sample(track: Track, time: int, at: real)

  function RunTimeline(ss: seq<Sample>): Timeline
  {
    if ss == [] then NewTimeline()
    else var s := ss[|ss| - 1]; Stamp(RunTimeline(ss[..|ss| - 1]), s.track, Rtp(s.time), s.at)
  }

  /** The timestamp handed over for the last of `ss`. */
  function LastStamp(ss: seq<Sample>): int
    requires ss != []
  {
    NativeMicros(RunTimeline(ss), ss[|ss| - 1].track)
  }

  function Times(ss: seq<Sample>, track: Track): seq<int>
  {
    if ss == [] then []
    else Times(ss[..|ss| - 1], track) + (if ss[|ss| - 1].track == track then [ss[|ss| - 1].time] else [])
  }

  function FirstArrival(ss: seq<Sample>, track: Track): Option<real>
  {
    if ss == [] then None
    else if ss[0].track == track then Some(ss[0].at)
    else FirstArrival(ss[1..], track)
  }

  lemma {:induction false} FirstArrivalAppend(ss: seq<Sample>, s: Sample, track: Track)
    ensures FirstArrival(ss + [s], track) ==
      if FirstArrival(ss, track).Some? then FirstArrival(ss, track) else if s.track == track then Some(s.at) else None
  {
    if ss == [] {
      assert (ss + [s])[1..] == [];
    } else {
      FirstArrivalAppend(ss[1..], s, track);
      assert (ss + [s])[1..] == ss[1..] + [s];
    }
  }

  /** What one unit does to each track, and to the origin. */
  lemma StampEffect(t: Timeline, s: Sample, track: Track)
    ensures var t' := Stamp(t, s.track, Rtp(s.time), s.at);
      && t'.ClockOf(track) == (if s.track == track then Tick(t.ClockOf(track), Rtp(s.time)) else t.ClockOf(track))
      && t'.origin == (if t.OffsetOf(s.track).None? && t.origin.None? then Some(s.at) else t.origin)
      && t'.OffsetOf(track) ==
           (if s.track == track && t.OffsetOf(track).None?
            then Some(OffsetFrom(if t.origin.Some? then t.origin.value else s.at, s.at))
            else t.OffsetOf(track))
  {
  }

  lemma TimesAppend(ss: seq<Sample>, s: Sample, track: Track)
    ensures Times(ss + [s], track) == Times(ss, track) + (if s.track == track then [s.time] else [])
  {
  }

  /** Each track is a converter of its own. */
  lemma {:induction false} ClockState(ss: seq<Sample>, track: Track)
    ensures RunTimeline(ss).ClockOf(track) == RunClock(Times(ss, track))
  {
    if ss != [] {
      var init, s := ss[..|ss| - 1], ss[|ss| - 1];
      ClockState(init, track);
      StampEffect(RunTimeline(init), s, track);
      TimesAppend(init, s, track);
      assert ss == init + [s];
      if s.track == track {
        RunClockAppend(Times(init, track), s.time);
      } else {
        assert Times(ss, track) == Times(init, track);
      }
    }
  }

  lemma {:induction false} OriginState(ss: seq<Sample>)
    ensures RunTimeline(ss).origin == if ss == [] then None else Some(ss[0].at)
    ensures ss == [] ==> RunTimeline(ss).videoOffset.None? && RunTimeline(ss).audioOffset.None?
  {
    if ss != [] {
      OriginState(ss[..|ss| - 1]);
      StampEffect(RunTimeline(ss[..|ss| - 1]), ss[|ss| - 1], Video);
    }
  }

  /** The offset of a track is a function of first arrivals alone. */
  lemma {:induction false} OffsetState(ss: seq<Sample>, track: Track)
    ensures RunTimeline(ss).OffsetOf(track) ==
      if FirstArrival(ss, track).Some? then Some(OffsetFrom(ss[0].at, FirstArrival(ss, track).value)) else None
    ensures FirstArrival(ss, track).Some? <==> Times(ss, track) != []
  {
    if ss != [] {
      var init, s := ss[..|ss| - 1], ss[|ss| - 1];
      OffsetState(init, track);
      OriginState(init);
      StampEffect(RunTimeline(init), s, track);
      FirstArrivalAppend(init, s, track);
      TimesAppend(init, s, track);
      assert ss == init + [s];
    }
  }

  /** Media time elapsed on a track since its first unit. */
  function Elapsed(ss: seq<Sample>, track: Track): int
  {
    var ts := Times(ss, track);
    if ts == [] then 0 else ts[|ts| - 1] - ts[0]
  }

  /** How late, in µs, a track started after the first unit of either track. */
  function Lateness(ss: seq<Sample>, track: Track): int
  {
    if FirstArrival(ss, track).Some? then OffsetFrom(ss[0].at, FirstArrival(ss, track).value) else 0
  }

  lemma NativeMicrosOf(t: Timeline, track: Track, ticks: int, offset: int)
    requires t.ClockOf(track).ticks == ticks && t.OffsetOf(track) == Some(offset)
    ensures NativeMicros(t, track) == Micros(ticks, Rate(track)) + offset
  {
  }

  lemma {:induction false} TrackState(ss: seq<Sample>, track: Track)
    requires Times(ss, track) != [] && SmallSteps(Times(ss, track))
    ensures RunTimeline(ss).ClockOf(track).ticks == Elapsed(ss, track)
    ensures RunTimeline(ss).OffsetOf(track) == Some(Lateness(ss, track))
  {
    var ts := Times(ss, track);
    ClockState(ss, track);
    OffsetState(ss, track);
    SmallStepsAreExact(ts, |ts|);
    assert ts[..|ts|] == ts;
  }

  lemma LastIsListed(ss: seq<Sample>)
    requires ss != []
    ensures Times(ss, ss[|ss| - 1].track) != []
  {
  }

  /**
   * The timestamp in closed form: the nearest microsecond of media time since the track began, plus
   * the nearest microsecond between the first arrival overall and the track's first arrival.
   */
  lemma {:induction false} StampClosedForm(ss: seq<Sample>)
    requires ss != [] && SmallSteps(Times(ss, ss[|ss| - 1].track))
    ensures var track := ss[|ss| - 1].track;
      LastStamp(ss) == Micros(Elapsed(ss, track), Rate(track)) + Lateness(ss, track)
  {
    var track := ss[|ss| - 1].track;
    LastIsListed(ss);
    TrackState(ss, track);
    NativeMicrosOf(RunTimeline(ss), track, Elapsed(ss, track), Lateness(ss, track));
  }

  lemma {:induction false} SecondsAreMicros(k: nat, rate: int)
    requires rate == 90_000 || rate == 48_000
    ensures Micros(k * rate, rate) == k * 1_000_000
  {
    var m := Micros(k * rate, rate);
    MicrosInIntegers(k * rate, rate);
    if rate == 90_000 {
      assert m * 90_000 - k * 90_000 * 1_000_000 == 90_000 * (m - k * 1_000_000);
    } else {
      assert m * 48_000 - k * 48_000 * 1_000_000 == 48_000 * (m - k * 1_000_000);
    }
  }

  /**
   * The scale of it: on a video track of 90 kHz or an audio track of 48 kHz that began `late` ms
   * after the stream, `k` seconds of media time are stamped `k` * 10^6 + `late` * 10^3.
   */
  lemma {:induction false} SecondsOfMedia(ss: seq<Sample>, k: nat, late: nat)
    requires ss != [] && SmallSteps(Times(ss, ss[|ss| - 1].track))
    requires var track := ss[|ss| - 1].track;
      && Elapsed(ss, track) == k * (if track.Video? then 90_000 else 48_000)
      && FirstArrival(ss, track) == Some(ss[0].at + late as real)
    ensures LastStamp(ss) == k * 1_000_000 + late * 1_000
  {
    StampClosedForm(ss);
    SecondsAreMicros(k, Rate(ss[|ss| - 1].track));
    LatenessIsNearest(ss, ss[|ss| - 1].track);
    assert ExactLateness(ss, ss[|ss| - 1].track) == (late * 1_000) as real;
  }

  /** The very first unit, of either track, is the zero of the clock. */
  lemma StreamStartsAtZero(s: Sample)
    ensures LastStamp([s]) == 0
  {
    assert [s][..0] == [];
    assert Times([s], s.track) == [s.time];
    StampClosedForm([s]);
    MicrosNearestAndMonotone(0, 0, Rate(s.track));
  }

  /** An offset, once set, stays; and no timestamp is negative. */
  lemma {:induction false} OffsetsAreWriteOnce(ss: seq<Sample>, s: Sample, track: Track)
    requires RunTimeline(ss).OffsetOf(track).Some?
    ensures RunTimeline(ss + [s]).OffsetOf(track) == RunTimeline(ss).OffsetOf(track)
    ensures RunTimeline(ss).OffsetOf(track).value >= 0
    ensures LastStamp(ss + [s]) >= 0
  {
    OffsetState(ss, track);
    FirstArrivalAppend(ss, s, track);
    OffsetState(ss + [s], track);
    FirstArrivalAppend(ss, s, s.track);
    OffsetState(ss + [s], s.track);
  }

  lemma {:induction false} TimesPrefix(ss: seq<Sample>, n: nat, track: Track)
    requires n <= |ss|
    ensures |Times(ss[..n], track)| <= |Times(ss, track)|
    ensures Times(ss[..n], track) == Times(ss, track)[..|Times(ss[..n], track)|]
    ensures n > 0 ==> FirstArrival(ss[..n], track).Some? ==> FirstArrival(ss, track) == FirstArrival(ss[..n], track)
    decreases |ss|
  {
    if n == |ss| {
      assert ss[..n] == ss;
    } else {
      var init := ss[..|ss| - 1];
      TimesPrefix(init, n, track);
      assert init[..n] == ss[..n] && ss == init + [ss[|ss| - 1]];
      FirstArrivalAppend(init, ss[|ss| - 1], track);
    }
  }

  predicate NonDecreasing(ts: seq<int>)
  {
    forall i, j :: 0 <= i <= j < |ts| ==> ts[i] <= ts[j]
  }

  /** What holds of a track in the whole stream holds of it in a prefix ending on that track. */
  lemma {:induction false} PrefixOfTrack(ss: seq<Sample>, n: nat, track: Track)
    requires 0 < n <= |ss| && ss[n - 1].track == track && SmallSteps(Times(ss, track))
    ensures SmallSteps(Times(ss[..n], track))
    ensures NonDecreasing(Times(ss, track)) ==> 0 <= Elapsed(ss[..n], track) <= Elapsed(ss, track)
    ensures Lateness(ss[..n], track) == Lateness(ss, track)
    ensures ExactLateness(ss[..n], track) == ExactLateness(ss, track)
  {
    var ts, us := Times(ss, track), Times(ss[..n], track);
    TimesPrefix(ss, n, track);
    assert us != [] by { assert ss[..n][..n - 1] == ss[..n - 1]; }
    assert forall i :: 0 <= i < |us| ==> us[i] == ts[i];
    OffsetState(ss[..n], track);
  }

  /** A track whose media time does not go back is handed non-decreasing timestamps. */
  lemma {:induction false} TrackIsMonotone(ss: seq<Sample>, n: nat)
    requires 0 < n <= |ss| && ss[n - 1].track == ss[|ss| - 1].track
    requires SmallSteps(Times(ss, ss[n - 1].track)) && NonDecreasing(Times(ss, ss[n - 1].track))
    ensures LastStamp(ss[..n]) <= LastStamp(ss)
  {
    var track := ss[n - 1].track;
    PrefixOfTrack(ss, n, track);
    StampClosedForm(ss);
    StampClosedForm(ss[..n]);
    MicrosNearestAndMonotone(Elapsed(ss[..n], track), Elapsed(ss, track), Rate(track));
  }

  /** How far a track's first arrival is from the stream's, exactly. */
  function ExactLateness(ss: seq<Sample>, track: Track): real
  {
    if FirstArrival(ss, track).Some? then (FirstArrival(ss, track).value - ss[0].at) * 1000.0 else 0.0
  }

  lemma {:induction false} LatenessIsNearest(ss: seq<Sample>, track: Track)
    requires ss != [] && ExactLateness(ss, track) >= 0.0
    ensures -0.5 <= Lateness(ss, track) as real - ExactLateness(ss, track) <= 0.5
    ensures track == ss[0].track ==> Lateness(ss, track) == 0 && ExactLateness(ss, track) == 0.0
  {
  }

  /** The timestamp the last of `ss` would have without rounding. */
  function Ideal(ss: seq<Sample>): real
    requires ss != []
  {
    var track := ss[|ss| - 1].track;
    Exact(Elapsed(ss, track), Rate(track)) + ExactLateness(ss, track)
  }

  lemma {:induction false} StampIsNearIdeal(ss: seq<Sample>)
    requires ss != [] && SmallSteps(Times(ss, ss[|ss| - 1].track))
    requires Elapsed(ss, ss[|ss| - 1].track) >= 0 && ExactLateness(ss, ss[|ss| - 1].track) >= 0.0
    ensures var slack := if ss[|ss| - 1].track == ss[0].track then 0.5 else 1.0;
      -slack <= LastStamp(ss) as real - Ideal(ss) <= slack
  {
    var track := ss[|ss| - 1].track;
    var x := Elapsed(ss, track);
    StampClosedForm(ss);
    MicrosNearestAndMonotone(x, x, Rate(track));
    LatenessIsNearest(ss, track);
  }

  /**
   * Between the tracks, timestamps differ by media time plus arrival offset to within a microsecond
   * and a half, as long as none of the clamps at zero is in force.
   */
  lemma {:induction false} TracksStayAligned(ss: seq<Sample>, n: nat)
    requires 0 < n < |ss| && ss[n - 1].track != ss[|ss| - 1].track
    requires forall track: Track :: SmallSteps(Times(ss, track)) && ExactLateness(ss, track) >= 0.0
    requires Elapsed(ss[..n], ss[n - 1].track) >= 0 && Elapsed(ss, ss[|ss| - 1].track) >= 0
    ensures -1.5 <= (LastStamp(ss) as real - LastStamp(ss[..n]) as real) - (Ideal(ss) - Ideal(ss[..n])) <= 1.5
  {
    PrefixOfTrack(ss, n, ss[n - 1].track);
    StampIsNearIdeal(ss);
    StampIsNearIdeal(ss[..n]);
    assert ss[..n][0] == ss[0] && ss[..n][n - 1] == ss[n - 1];
    Combine(LastStamp(ss) as real, Ideal(ss), LastStamp(ss[..n]) as real, Ideal(ss[..n]),
            ss[|ss| - 1].track == ss[0].track);
  }

  lemma Combine(a: real, x: real, b: real, y: real, firstOnA: bool)
    requires var slack := if firstOnA then 0.5 else 1.0; -slack <= a - x <= slack
    requires var slack := if firstOnA then 1.0 else 0.5; -slack <= b - y <= slack
    ensures -1.5 <= (a - b) - (x - y) <= 1.5
  {
  }
}
