/**
 * What crosses the border to the native side: every access unit fed, with its payload and its time,
 * and every unit that comes back, with its payload and its number.
 */
module NativeTraffic {
  import opened Sequences
  import opened UnitQueues
  import opened Timing
  import opened Transcoders
  import opened TranscoderRuns
  import opened Streams

  // ---------------------------------------------------------------------------------------------
  // Into the native side
  // ---------------------------------------------------------------------------------------------

  /** An access unit on its way in. Only video has keyframes. */
  datatype Arrival = Arrival(track: Track, timestamp: int, at: real, data: nat, isKeyFrame: bool)

  /** The access unit that reaches the native side by an action: it arrived when it says so, or else now. */
  function FedBy(s: Session, a: Action): seq<Arrival>
  {
    match a
    case DoPush(au, now) =>
      var at := if au.receivedAt.Some? then au.receivedAt.value else now;
      if s.closing == Open then [Arrival(Video, au.timestamp, at, au.data, au.isKeyFrame)] else []
    case DoPushAudio(au, now) =>
      var at := if au.receivedAt.Some? then au.receivedAt.value else now;
      if s.closing == Open && s.config.hasAudio then [Arrival(Audio, au.timestamp, at, au.data, false)] else []
    case _ => []
  }

  /** The access units that reach the native side, in order. */
  function Fed(c: Config, actions: seq<Action>): seq<Arrival>
  {
    if actions == [] then []
    else
      var init, a := actions[..|actions| - 1], actions[|actions| - 1];
      Fed(c, init) + FedBy(RunSession(NewSession(c), init), a)
  }

  /** The arrivals are those of a media timeline, whose times are seen modulo 2^32. */
  predicate OnTheWire(xs: seq<Arrival>, ss: seq<Sample>)
  {
    |xs| == |ss| && forall k :: 0 <= k < |xs| ==>
      xs[k].track == ss[k].track && xs[k].timestamp == Rtp(ss[k].time) && xs[k].at == ss[k].at
  }

  /** The call that hands an access unit over with this time. */
  function CallFor(x: Arrival, micros: int): NativeCall
  {
    match x.track
    case Video => PushCall(x.data, micros, x.isKeyFrame)
    case Audio => PushAudioCall(x.data, micros)
  }

  predicate IsPush(call: NativeCall) { call.PushCall? || call.PushAudioCall? }
  predicate IsRequest(call: NativeCall) { call == RequestKeyFrame }

  /** The calls are those for these arrivals, each stamped as the shared clock has it at that point. */
  predicate Stamped(calls: seq<NativeCall>, xs: seq<Arrival>, ss: seq<Sample>)
    requires |xs| == |ss|
  {
    |calls| == |xs| && forall k :: 0 <= k < |xs| ==> calls[k] == CallFor(xs[k], LastStamp(ss[..k + 1]))
  }

  /** What is fed goes through the shared clock and is handed over with its stamp. */
  lemma FeedingStamps(s: Session, a: Action, x: Arrival)
    requires FedBy(s, a) == [x]
    ensures var t := Act(s, a);
      && t.timeline == Stamp(s.timeline, x.track, x.timestamp, x.at)
      && t.calls == s.calls + [CallFor(x, NativeMicros(t.timeline, x.track))]
  {
    assert [x][0] == x;
  }

  lemma NotFeedingCalls(s: Session, a: Action)
    requires FedBy(s, a) == []
    ensures var t := Act(s, a);
      && t.timeline == s.timeline
      && (t.calls == s.calls || t.calls == s.calls + [RequestKeyFrame] || t.calls == s.calls + [CloseCall])
  {
    assert s.calls + [] == s.calls;
    if a.DoPush? || a.DoPushAudio? {
      assert Act(s, a) == s;
    }
  }

  lemma NotFeedingHandsNothing(s: Session, a: Action)
    requires FedBy(s, a) == []
    ensures Act(s, a).timeline == s.timeline && Filter(Act(s, a).calls, IsPush) == Filter(s.calls, IsPush)
  {
    NotFeedingCalls(s, a);
    FilterAppend(s.calls, RequestKeyFrame, IsPush);
    FilterAppend(s.calls, CloseCall, IsPush);
    assert Filter(s.calls, IsPush) + [] == Filter(s.calls, IsPush);
  }

  lemma StampedAppend(calls: seq<NativeCall>, xs: seq<Arrival>, ss: seq<Sample>, x: Arrival, last: Sample)
    requires |xs| == |ss| && Stamped(calls, xs, ss)
    ensures Stamped(calls + [CallFor(x, LastStamp(ss + [last]))], xs + [x], ss + [last])
  {
    var all := ss + [last];
    assert all[..|ss| + 1] == all && forall n :: 0 < n <= |ss| ==> all[..n] == ss[..n];
  }

  lemma WireLast(xs: seq<Arrival>, x: Arrival, ss: seq<Sample>)
    requires OnTheWire(xs + [x], ss)
    ensures ss != [] && OnTheWire(xs, ss[..|ss| - 1])
    ensures var last := ss[|ss| - 1]; x.track == last.track && x.timestamp == Rtp(last.time) && x.at == last.at
  {
    var all := xs + [x];
    assert all[|xs|] == x && forall k :: 0 <= k < |xs| ==> all[k] == xs[k];
  }

  lemma HandOver(s: Session, a: Action, x: Arrival, xs: seq<Arrival>, init: seq<Sample>, last: Sample)
    requires FedBy(s, a) == [x] && |xs| == |init|
    requires s.timeline == RunTimeline(init) && Stamped(Filter(s.calls, IsPush), xs, init)
    requires x.track == last.track && x.timestamp == Rtp(last.time) && x.at == last.at
    ensures var t := Act(s, a);
      t.timeline == RunTimeline(init + [last]) && Stamped(Filter(t.calls, IsPush), xs + [x], init + [last])
  {
    FeedingStamps(s, a, x);
    assert (init + [last])[..|init|] == init;
    FilterAppend(s.calls, CallFor(x, LastStamp(init + [last])), IsPush);
    StampedAppend(Filter(s.calls, IsPush), xs, init, x, last);
  }

  lemma FeedsOne(s: Session, a: Action)
    ensures FedBy(s, a) == [] || FedBy(s, a) == [FedBy(s, a)[0]]
  {
  }

  lemma SameEnd(ss: seq<Sample>)
    ensures ss != [] ==> ss == ss[..|ss| - 1] + [ss[|ss| - 1]]
  {
  }

  /**
   * In any interleaving of `push`, `pushAudio` and everything else, the native side is handed each
   * access unit fed before the close, in that order, with its payload, its keyframe flag and the time
   * that the clock shared by the tracks has for it.
   */
  lemma {:induction false} NativeIsHanded(c: Config, actions: seq<Action>, ss: seq<Sample>)
    requires OnTheWire(Fed(c, actions), ss)
    ensures var s := RunSession(NewSession(c), actions);
      s.timeline == RunTimeline(ss) && Stamped(Filter(s.calls, IsPush), Fed(c, actions), ss)
    decreases |actions|
  {
    if actions != [] {
      var before, a := actions[..|actions| - 1], actions[|actions| - 1];
      var s := RunSession(NewSession(c), before);
      if FedBy(s, a) == [] {
        assert Fed(c, actions) == Fed(c, before);
        NativeIsHanded(c, before, ss);
        NotFeedingHandsNothing(s, a);
      } else {
        var x, init := FedBy(s, a)[0], if ss == [] then [] else ss[..|ss| - 1];
        FeedsOne(s, a);
        WireLast(Fed(c, before), x, ss);
        NativeIsHanded(c, before, init);
        HandOver(s, a, x, Fed(c, before), init, ss[|ss| - 1]);
        SameEnd(ss);
      }
    }
  }

  lemma OverflowsByOne(o: Options<Unit>, q: State<Unit>, u: Unit)
    ensures PushStep(o, q, u).overflows == q.overflows || PushStep(o, q, u).overflows == q.overflows + 1
  {
  }

  /** Any other action calls the native side at most once, and not for a keyframe. */
  lemma OtherActsCall(s: Session, a: Action)
    requires !a.DoEmit?
    ensures var calls := Act(s, a).calls;
      calls == s.calls || (|calls| == |s.calls| + 1 && calls[..|s.calls|] == s.calls && !IsRequest(calls[|s.calls|]))
  {
  }

  lemma OtherActsAskNothing(s: Session, a: Action)
    requires !a.DoEmit?
    ensures Filter(Act(s, a).calls, IsRequest) == Filter(s.calls, IsRequest)
  {
    var calls := Act(s, a).calls;
    OtherActsCall(s, a);
    if calls != s.calls {
      assert calls == s.calls + [calls[|s.calls|]];
      FilterAppend(s.calls, calls[|s.calls|], IsRequest);
    }
  }

  /** In h264 mode a keyframe is requested once for each overflow, and never in MJPEG mode. */
  lemma {:induction false} RequestsMatchOverflows(c: Config, actions: seq<Action>)
    ensures var s := RunSession(NewSession(c), actions);
      |Filter(s.calls, IsRequest)| == if c.isVideo then s.queue.overflows else 0
    decreases |actions|
  {
    if actions != [] {
      var init, a := actions[..|actions| - 1], actions[|actions| - 1];
      var s := RunSession(NewSession(c), init);
      RequestsMatchOverflows(c, init);
      RunKeepsSession(c, init);
      if a.DoEmit? {
        OverflowsByOne(QueueOptions(c), s.queue, Numbered(s, a.unit));
        FilterAppend(s.calls, RequestKeyFrame, IsRequest);
        assert s.calls + [] == s.calls;
      } else {
        OtherActsAskNothing(s, a);
        OtherActsAreCalm(s, a);
      }
    }
  }

  // ---------------------------------------------------------------------------------------------
  // Out of the native side
  // ---------------------------------------------------------------------------------------------

  /** The units as the native side delivers them. */
  function Raw(s: Session, actions: seq<Action>): seq<NativeUnit>
  {
    if actions == [] then []
    else
      var init, a := actions[..|actions| - 1], actions[|actions| - 1];
      Raw(s, init) + if a.DoEmit? && Enabled(RunSession(s, init), a) then [a.unit] else []
  }

  /** How many of the units are audio, or how many are not. */
  function CountOf(raw: seq<NativeUnit>, audio: bool): nat
  {
    if raw == [] then 0
    else CountOf(raw[..|raw| - 1], audio) + if raw[|raw| - 1].audio == audio then 1 else 0
  }

  /**
   * `u` is what a consumer is to get for `raw[k]`: the payload, the time and the flag as delivered, the
   * track, and the number of units of that track before it; in MJPEG mode the number of all before it.
   */
  predicate Carries(c: Config, u: Unit, raw: seq<NativeUnit>, k: nat)
    requires k < |raw|
  {
    var n := raw[k];
    if c.isVideo then
      && u.Access? && u.data == n.data && u.timestampMicros == n.timestampMicros && u.isKeyFrame == n.isKeyFrame
      && u.track == (if n.audio then Audio else Video) && u.sequence == CountOf(raw[..k], n.audio)
    else
      u.Jpeg? && u.data == n.data && u.timestampMicros == n.timestampMicros && u.sequence == k
  }

  predicate AllCarried(c: Config, us: seq<Unit>, raw: seq<NativeUnit>)
  {
    |us| == |raw| && forall k :: 0 <= k < |us| ==> Carries(c, us[k], raw, k)
  }

  lemma CarriedAppend(c: Config, us: seq<Unit>, raw: seq<NativeUnit>, u: Unit, n: NativeUnit)
    requires AllCarried(c, us, raw) && Carries(c, u, raw + [n], |raw|)
    ensures AllCarried(c, us + [u], raw + [n])
  {
    var all := raw + [n];
    forall k | 0 <= k < |all|
      ensures Carries(c, (us + [u])[k], all, k)
    {
      assert all[..k] == raw[..k];
      assert k < |raw| ==> Carries(c, us[k], raw, k);
    }
  }

  /** The counters of the session count what has been delivered. */
  predicate Counted(s: Session, raw: seq<NativeUnit>)
  {
    if s.config.isVideo then s.sequence == CountOf(raw, false) && s.audioSequence == CountOf(raw, true)
    else s.sequence == |raw|
  }

  lemma EmitCarries(s: Session, n: NativeUnit, raw: seq<NativeUnit>)
    requires Counted(s, raw)
    ensures Carries(s.config, Numbered(s, n), raw + [n], |raw|) && Counted(Emit(s, n), raw + [n])
  {
    assert (raw + [n])[..|raw|] == raw && (raw + [n])[|raw|] == n;
  }

  lemma NextIsCounted(s: Session, a: Action, us: seq<Unit>, raw: seq<NativeUnit>)
    requires Counted(s, raw) && AllCarried(s.config, us, raw)
    ensures var more := if a.DoEmit? && Enabled(s, a) then [a.unit] else [];
      Counted(Act(s, a), raw + more) && AllCarried(s.config, us + Made(s, a), raw + more)
  {
    if a.DoEmit? && Enabled(s, a) {
      EmitCarries(s, a.unit, raw);
      CarriedAppend(s.config, us, raw, Numbered(s, a.unit), a.unit);
    } else {
      assert us + [] == us && raw + [] == raw;
      if !a.DoEmit? {
        OtherActsNumberNothing(s, a);
        ConfigStays(s, a);
      }
    }
  }

  lemma ConfigStays(s: Session, a: Action)
    ensures Act(s, a).config == s.config
  {
  }

  lemma {:induction false} ProducedIsCounted(c: Config, actions: seq<Action>)
    ensures var s := RunSession(NewSession(c), actions); var raw := Raw(NewSession(c), actions);
      s.config == c && Counted(s, raw) && AllCarried(c, Produced(NewSession(c), actions), raw)
    decreases |actions|
  {
    RunKeepsSession(c, actions);
    if actions != [] {
      var init, a := actions[..|actions| - 1], actions[|actions| - 1];
      ProducedIsCounted(c, init);
      NextIsCounted(RunSession(NewSession(c), init), a, Produced(NewSession(c), init), Raw(NewSession(c), init));
    }
  }

  /** One unit is produced for each that the native side delivers, in that order, carrying what it brought. */
  lemma ProducedIsDelivered(c: Config, actions: seq<Action>)
    ensures AllCarried(c, Produced(NewSession(c), actions), Raw(NewSession(c), actions))
  {
    ProducedIsCounted(c, actions);
  }

  lemma {:induction false} SubseqMember<T>(a: seq<T>, b: seq<T>, i: nat) returns (k: nat)
    requires Subseq(a, b) && i < |a|
    ensures k < |b| && a[i] == b[k]
    decreases |b|
  {
    if a[|a| - 1] == b[|b| - 1] && Subseq(a[..|a| - 1], b[..|b| - 1]) {
      if i == |a| - 1 {
        k := |b| - 1;
      } else {
        k := SubseqMember(a[..|a| - 1], b[..|b| - 1], i);
      }
    } else {
      k := SubseqMember(a, b[..|b| - 1], i);
    }
  }

  /** Whatever a consumer is given carries what some unit of the native side brought. */
  lemma GivenIsDelivered(c: Config, actions: seq<Action>, i: nat) returns (k: nat)
    requires i < |Yields(NewSession(c), actions)|
    ensures var raw := Raw(NewSession(c), actions);
      k < |raw| && Carries(c, Yields(NewSession(c), actions)[i], raw, k)
  {
    ConsumersGetTheStream(c, actions);
    ProducedIsDelivered(c, actions);
    k := SubseqMember(Yields(NewSession(c), actions), Produced(NewSession(c), actions), i);
  }

  // ---------------------------------------------------------------------------------------------
  // The limits in numbers
  // ---------------------------------------------------------------------------------------------

  /** At most 60 units are ever held back, and 500 more when there is audio. */
  lemma {:induction false} BacklogLimit(c: Config, actions: seq<Action>)
    ensures QueueOptions(c).Capacity() == if c.isVideo && c.hasAudio then 560 else 60
    ensures |RunSession(NewSession(c), actions).queue.buffer| <= if c.isVideo && c.hasAudio then 560 else 60
  {
    if c.isVideo {
      VideoRun(c, actions);
    } else {
      MjpegRun(c, actions);
    }
  }
}
