/** What holds of every run of a transcoder: close once, decodability, audio conservation, resync. */
module TranscoderRuns {
  import opened Sequences
  import opened UnitQueues
  import opened QueueRuns
  import opened Transcoders

  // ---------------------------------------------------------------------------------------------
  // Closing
  // ---------------------------------------------------------------------------------------------

  /** The native handle is closed at most once, and is fed nothing afterwards. */
  lemma ClosedAtMostOnce(c: Config, actions: seq<Action>)
    ensures var calls := RunSession(NewSession(c), actions).calls;
      forall i, j :: 0 <= i < j < |calls| && calls[i] == CloseCall ==> calls[j] == RequestKeyFrame
  {
    RunKeepsSession(c, actions);
  }

  /** One consumer at a time is not an assumption: `units()` never asks while a request is parked. */
  lemma {:induction false} OneConsumer(c: Config, actions: seq<Action>, a: Action)
    ensures var s := RunSession(NewSession(c), actions);
      Act(s, a).queue.issued > s.queue.issued ==> s.queue.waiter.None?
  {
    RunKeepsSession(c, actions);
    var s := RunSession(NewSession(c), actions);
    if Enabled(s, a) && a.DoAbort? { AbortEffect(s.queue, s.signal); }
    if Enabled(s, a) && a.DoClose? { AbortEffect(s.queue, s.signal); }
  }

  lemma QuietStep(o: Options<Unit>, q: State<Unit>, e: QueueRuns.Event<Unit>)
    requires Valid(q) && q.ended && !q.draining
    ensures var t := QueueRuns.Step(o, q, e); Delivered(t.log) == Delivered(q.log) && t.buffer == []
  {
    if !e.Push? {
      OtherContents(o, q, e);
    }
  }

  lemma StoppedStaysQuiet(s: Session, a: Action)
    requires SessionValid(s) && s.stopped
    ensures Act(s, a).stopped && Delivered(Act(s, a).queue.log) == Delivered(s.queue.log)
  {
    var o := QueueOptions(s.config);
    if !Enabled(s, a) { return; }
    match a
    case DoEmit(n) => QuietStep(o, s.queue, QueueRuns.Push(Numbered(s, n)));
    case DoError(e) => QuietStep(o, s.queue, QueueRuns.Fail(WrapNativeError(e)));
    case DoClose =>
      QuietStep(o, s.queue, QueueRuns.Abort(s.signal));
      QueueKeepsItsEnd(o, s.queue, QueueRuns.Abort(s.signal));
      QuietStep(o, AbortStep(s.queue, s.signal), QueueRuns.End(false));
    case DoResumeEnd =>
      QuietStep(o, s.queue, QueueRuns.End(true));
    case DoStart(caller) =>
      if s.consumer == Idle {
        DeriveKeepsValid(s, caller);
        QuietStep(o, DeriveSignal(s, caller).queue, QueueRuns.Next(s.signal + 1));
      }
    case DoPull => QuietStep(o, s.queue, QueueRuns.Next(s.signal));
    case DoAbort(c) => QuietStep(o, s.queue, QueueRuns.Abort(s.signal));
    case _ =>
  }

  lemma {:induction false} StoppedRun(s: Session, actions: seq<Action>)
    requires SessionValid(s) && s.stopped
    ensures var t := RunSession(s, actions);
      SessionValid(t) && t.stopped && Delivered(t.queue.log) == Delivered(s.queue.log)
    decreases |actions|
  {
    if actions != [] {
      StoppedRun(s, actions[..|actions| - 1]);
      ActKeepsValid(RunSession(s, actions[..|actions| - 1]), actions[|actions| - 1]);
      StoppedStaysQuiet(RunSession(s, actions[..|actions| - 1]), actions[|actions| - 1]);
    }
  }

  lemma AbortKeepsDelivered(q: State<Unit>, signal: nat)
    requires Valid(q)
    ensures Delivered(AbortStep(q, signal).log) == Delivered(q.log)
  {
    AbortEffect(q, signal);
    if q.waiter.Some? { SettleContents(q, Done); }
  }

  lemma EndKeepsDelivered(q: State<Unit>)
    requires Valid(q)
    ensures Delivered(EndStep(q, false).log) == Delivered(q.log)
  {
  }

  lemma CloseKeepsDelivered(s: Session)
    requires SessionValid(s)
    ensures Delivered(Close(s).queue.log) == Delivered(s.queue.log)
  {
    QueueKeepsItsEnd(QueueOptions(s.config), s.queue, QueueRuns.Abort(s.signal));
    AbortKeepsDelivered(s.queue, s.signal);
    EndKeepsDelivered(AbortStep(s.queue, s.signal));
  }

  /** `close()` is final, even over an `end()` still in flight: no later request gets a unit. */
  lemma CloseIsFinal(c: Config, before: seq<Action>, after: seq<Action>)
    ensures var s := RunSession(NewSession(c), before);
      Delivered(RunSession(Close(s), after).queue.log) == Delivered(s.queue.log)
  {
    RunKeepsSession(c, before);
    var s := RunSession(NewSession(c), before);
    CloseKeepsValid(s);
    CloseKeepsDelivered(s);
    StoppedRun(Close(s), after);
  }

  // ---------------------------------------------------------------------------------------------
  // What one unit does to the two tracks (h264)
  // ---------------------------------------------------------------------------------------------

  function Videos(us: seq<Unit>): seq<Unit> { Filter(us, IsVideo) }
  function Audios(us: seq<Unit>): seq<Unit> { Filter(us, IsAudio) }

  /** Nothing but audio is buffered, there is no room, and one more audio unit arrives. */
  predicate AudioOverflow(o: Options<Unit>, q: State<Unit>, u: Unit)
  {
    && Admits(o, q, u) && q.waiter.None? && |q.buffer| == o.Capacity()
    && IsAudio(u) && forall v :: v in q.buffer ==> IsAudio(v)
  }

  /** The backlog, with the new unit, does not fit and holds video. */
  predicate VideoOverflow(o: Options<Unit>, q: State<Unit>, u: Unit)
  {
    Admits(o, q, u) && q.waiter.None? && |q.buffer| == o.Capacity() && !AudioOverflow(o, q, u)
  }

  lemma AudioHasNoVideo(us: seq<Unit>)
    ensures Videos(Audios(us)) == [] && Audios(Audios(us)) == Audios(us)
  {
    FilterMembers(us, IsAudio);
    FilterExtremes(Audios(us), IsVideo);
    FilterExtremes(Audios(us), IsAudio);
  }

  /** All buffered is audio exactly when filtering for audio keeps everything. */
  lemma AllAudio(b: seq<Unit>, u: Unit)
    ensures Audios(b + [u]) == b + [u] <==> IsAudio(u) && forall v :: v in b ==> IsAudio(v)
  {
    FilterExtremes(b + [u], IsAudio);
    assert u in b + [u];
    assert forall v :: v in b ==> v in b + [u];
    assert forall v :: v in b + [u] ==> v in b || v == u;
  }

  lemma {:induction false} OverflowOutcome(c: Config, q: State<Unit>, u: Unit)
    requires c.isVideo && q.waiter.None? && |q.buffer| == QueueOptions(c).Capacity()
    requires Admits(QueueOptions(c), q, u)
    ensures var o := QueueOptions(c); var t := PushStep(o, q, u);
      if AudioOverflow(o, q, u) then t == q.(buffer := (q.buffer + [u])[1..])
      else t == q.(resyncing := true, overflows := q.overflows + 1, buffer := Audios(q.buffer + [u]))
  {
    var o, b := QueueOptions(c), q.buffer + [u];
    AllAudio(q.buffer, u);
    assert |Audios(b)| <= |b| && (|Audios(b)| == |b| ==> Audios(b) == b);
    var s := q.(resyncing := q.resyncing && !EndsResync(u), buffer := b);
    assert PushStep(o, q, u) == Overflow(o, s);
  }

  lemma JoinOutcome(o: Options<Unit>, q: State<Unit>, u: Unit)
    requires Valid(q) && Admits(o, q, u) && (q.waiter.None? ==> |q.buffer| < o.Capacity())
    ensures var t := PushStep(o, q, u);
      && Contents(t) == Contents(q) + [u]
      && t.resyncing == (q.resyncing && !o.endsResync(u)) && t.overflows == q.overflows && t.ended == q.ended
      && t.buffer == (if q.waiter.Some? then [] else q.buffer + [u])
  {
  }

  /**
   * A pushed unit is refused, or joins the end; unless the buffer is full. Then either all is audio
   * and exactly the oldest unit goes, or all buffered video goes, no audio does, and a resync begins.
   */
  lemma PushOutcome(c: Config, q: State<Unit>, u: Unit)
    requires c.isVideo && Valid(q) && |q.buffer| <= QueueOptions(c).Capacity()
    ensures var o := QueueOptions(c); var t := PushStep(o, q, u);
      if !Admits(o, q, u) then t == q
      else if AudioOverflow(o, q, u) then t == q.(buffer := (q.buffer + [u])[1..])
      else if VideoOverflow(o, q, u) then
        t == q.(resyncing := true, overflows := q.overflows + 1, buffer := Audios(q.buffer + [u]))
      else
        && Contents(t) == Contents(q) + [u] && t.overflows == q.overflows
        && t.resyncing == (q.resyncing && !EndsResync(u))
  {
    var o := QueueOptions(c);
    if Admits(o, q, u) {
      if q.waiter.None? && |q.buffer| == o.Capacity() {
        OverflowOutcome(c, q, u);
      } else {
        JoinOutcome(o, q, u);
      }
    }
  }

  // ---------------------------------------------------------------------------------------------
  // Decodability
  // ---------------------------------------------------------------------------------------------

  function NextSequence(vs: seq<Unit>): nat
  {
    if vs == [] then 0 else vs[|vs| - 1].sequence + 1
  }

  /** Numbers only grow, and wherever one is missing the next unit is a keyframe. */
  predicate Decodable(vs: seq<Unit>)
  {
    forall k :: 0 <= k < |vs| ==>
      && vs[k].Access? && vs[k].sequence >= NextSequence(vs[..k])
      && (vs[k].sequence != NextSequence(vs[..k]) ==> vs[k].isKeyFrame)
  }

  lemma DecodableAppend(vs: seq<Unit>, u: Unit)
    requires Decodable(vs) && u.Access? && u.sequence >= NextSequence(vs)
    requires u.sequence != NextSequence(vs) ==> u.isKeyFrame
    ensures Decodable(vs + [u]) && NextSequence(vs + [u]) == u.sequence + 1
  {
  }

  lemma DecodablePrefix(vs: seq<Unit>, ws: seq<Unit>)
    requires Decodable(vs + ws)
    ensures Decodable(vs) && NextSequence(vs) <= NextSequence(vs + ws)
    decreases |ws|
  {
    if ws == [] {
      assert vs + ws == vs;
    } else {
      var n := |ws| - 1;
      var all := vs + ws;
      assert all[..|all| - 1] == vs + ws[..n];
      forall k | 0 <= k < |all| - 1 ensures (vs + ws[..n])[..k] == all[..k] && (vs + ws[..n])[k] == all[k] { }
      DecodablePrefix(vs, ws[..n]);
    }
  }

  /** The video held so far can be decoded; after what is missing, only a keyframe can come next. */
  predicate VideoInvariant(q: State<Unit>, sequence: nat)
  {
    var vs := Videos(Contents(q));
    && Decodable(vs) && NextSequence(vs) <= sequence
    && (!q.ended && !q.resyncing ==> NextSequence(vs) == sequence)
    && (!q.ended && q.resyncing ==> Videos(q.buffer) == [])
  }

  lemma ContentsTracks(q: State<Unit>)
    ensures Videos(Contents(q)) == Videos(Delivered(q.log)) + Videos(q.buffer)
    ensures Audios(Contents(q)) == Audios(Delivered(q.log)) + Audios(q.buffer)
  {
    FilterConcat(Delivered(q.log), q.buffer, IsVideo);
    FilterConcat(Delivered(q.log), q.buffer, IsAudio);
  }

  /** A unit let in during a resync is a keyframe or audio, so the numbering constraint is met. */
  lemma JoinKeepsVideo(q: State<Unit>, t: State<Unit>, u: Unit, sequence: nat)
    requires VideoInvariant(q, sequence) && !q.ended && (q.resyncing ==> !DropsDuringResync(u))
    requires IsVideo(u) ==> u.sequence == sequence
    requires Contents(t) == Contents(q) + [u] && t.ended == q.ended && t.resyncing == (q.resyncing && !EndsResync(u))
    requires t.buffer == q.buffer + [u] || t.buffer == []
    ensures VideoInvariant(t, sequence + if IsVideo(u) then 1 else 0)
  {
    var vs := Videos(Contents(q));
    FilterAppend(Contents(q), u, IsVideo);
    FilterAppend(q.buffer, u, IsVideo);
    if IsVideo(u) {
      DecodableAppend(vs, u);
      assert Videos(Contents(t)) == vs + [u];
    } else {
      assert Videos(Contents(t)) == vs;
    }
  }

  lemma AudioOverflowKeepsVideo(q: State<Unit>, t: State<Unit>, u: Unit, sequence: nat)
    requires VideoInvariant(q, sequence) && IsAudio(u) && forall v :: v in q.buffer ==> IsAudio(v)
    requires t == q.(buffer := (q.buffer + [u])[1..])
    ensures VideoInvariant(t, sequence)
  {
    ContentsTracks(q);
    ContentsTracks(t);
    var b := q.buffer + [u];
    assert forall v :: v in b[1..] ==> v in b;
    FilterExtremes(q.buffer, IsVideo);
    FilterExtremes(t.buffer, IsVideo);
    assert Videos(Contents(t)) == Videos(Delivered(q.log)) == Videos(Contents(q));
  }

  lemma {:induction false} VideoOverflowKeepsVideo(q: State<Unit>, t: State<Unit>, u: Unit, sequence: nat)
    requires VideoInvariant(q, sequence)
    requires t == q.(resyncing := true, overflows := q.overflows + 1, buffer := Audios(q.buffer + [u]))
    ensures VideoInvariant(t, sequence)
  {
    ContentsTracks(q);
    ContentsTracks(t);
    AudioHasNoVideo(q.buffer + [u]);
    DecodablePrefix(Videos(Delivered(q.log)), Videos(q.buffer));
    assert Videos(t.buffer) == [] && Videos(Contents(t)) == Videos(Delivered(q.log)) + [];
    assert Videos(Delivered(q.log)) + [] == Videos(Delivered(q.log));
  }

  lemma RefusalKeepsVideo(q: State<Unit>, u: Unit, sequence: nat)
    requires VideoInvariant(q, sequence) && (q.ended || (q.resyncing && DropsDuringResync(u)))
    ensures VideoInvariant(q, sequence + if IsVideo(u) then 1 else 0)
  {
  }

  lemma PushKeepsVideo(c: Config, q: State<Unit>, u: Unit, sequence: nat)
    requires c.isVideo && Valid(q) && |q.buffer| <= QueueOptions(c).Capacity()
    requires VideoInvariant(q, sequence) && (IsVideo(u) || IsAudio(u)) && (IsVideo(u) ==> u.sequence == sequence)
    ensures VideoInvariant(PushStep(QueueOptions(c), q, u), sequence + if IsVideo(u) then 1 else 0)
  {
    var o := QueueOptions(c);
    var t := PushStep(o, q, u);
    if !Admits(o, q, u) {
      RefusalKeepsVideo(q, u, sequence);
    } else if q.waiter.None? && |q.buffer| == o.Capacity() {
      OverflowOutcome(c, q, u);
      if AudioOverflow(o, q, u) {
        AudioOverflowKeepsVideo(q, t, u, sequence);
      } else {
        VideoOverflowKeepsVideo(q, t, u, sequence);
        LaterSequence(t, sequence);
      }
    } else {
      JoinOutcome(o, q, u);
      JoinKeepsVideo(q, t, u, sequence);
    }
  }

  /** During a resync the numbers may run ahead of what is held. */
  lemma LaterSequence(q: State<Unit>, sequence: nat)
    requires VideoInvariant(q, sequence) && (q.ended || q.resyncing)
    ensures VideoInvariant(q, sequence + 1)
  {
  }

  lemma EmitKeepsVideo(s: Session, n: NativeUnit)
    requires SessionValid(s) && s.config.isVideo && |s.queue.buffer| <= QueueOptions(s.config).Capacity()
    requires VideoInvariant(s.queue, s.sequence)
    ensures VideoInvariant(Emit(s, n).queue, Emit(s, n).sequence)
    ensures |Emit(s, n).queue.buffer| <= QueueOptions(s.config).Capacity()
  {
    var u := Numbered(s, n);
    assert IsVideo(u) == !n.audio && IsAudio(u) == n.audio;
    PushStaysBounded(QueueOptions(s.config), s.queue, u);
    PushKeepsVideo(s.config, s.queue, u, s.sequence);
  }

  /** What every operation but a push does: it may end the queue, and it only ever removes from the tail. */
  ghost predicate Calmer(q: State<Unit>, t: State<Unit>)
  {
    && t.resyncing == q.resyncing && t.overflows == q.overflows
    && (q.ended ==> t.ended) && (!t.ended ==> Contents(t) == Contents(q))
    && Contents(t) <= Contents(q)
    && |t.buffer| <= |q.buffer| && (Videos(q.buffer) == [] ==> Videos(t.buffer) == [])
  }

  lemma NextIsCalm(q: State<Unit>, signal: nat)
    requires Valid(q) && q.waiter.None?
    ensures Calmer(q, NextStep(q, signal))
  {
    NextContents(q, signal);
    if q.buffer != [] {
      FilterConcat(q.buffer[..1], q.buffer[1..], IsVideo);
      assert q.buffer == q.buffer[..1] + q.buffer[1..];
    }
  }

  lemma NonPushIsCalm(o: Options<Unit>, q: State<Unit>, e: QueueRuns.Event<Unit>)
    requires Valid(q) && !e.Push? && (e.Next? ==> q.waiter.None?)
    ensures Calmer(q, QueueRuns.Step(o, q, e))
  {
    OtherContents(o, q, e);
    match e
    case Fail(_) =>
    case End(_) =>
    case Abort(signal) => AbortEffect(q, signal);
    case Next(signal) => NextIsCalm(q, signal);
  }

  lemma CalmerTransitive(q: State<Unit>, r: State<Unit>, t: State<Unit>)
    requires Calmer(q, r) && Calmer(r, t)
    ensures Calmer(q, t)
  {
  }

  lemma CloseIsCalm(s: Session)
    requires SessionValid(s)
    ensures Calmer(s.queue, Close(s).queue)
  {
    var o := QueueOptions(s.config);
    var r := AbortStep(s.queue, s.signal);
    QueueRuns.AbortKeepsValid(s.queue, s.signal);
    NonPushIsCalm(o, s.queue, QueueRuns.Abort(s.signal));
    NonPushIsCalm(o, r, QueueRuns.End(false));
    CalmerTransitive(s.queue, r, EndStep(r, false));
    assert Close(s).queue == EndStep(r, false);
  }

  lemma SignalIsCalm(q: State<Unit>, aborted: set<nat>)
    ensures Calmer(q, q.(aborted := aborted))
  {
  }

  lemma StartIsCalm(s: Session, caller: Option<nat>)
    requires SessionValid(s)
    ensures Calmer(s.queue, StartUnits(s, caller).queue)
  {
    if s.consumer == Idle {
      var r := DeriveSignal(s, caller).queue;
      DeriveKeepsValid(s, caller);
      SignalIsCalm(s.queue, r.aborted);
      assert r == s.queue.(aborted := r.aborted);
      NextIsCalm(r, s.signal + 1);
      CalmerTransitive(s.queue, r, NextStep(r, s.signal + 1));
      assert StartUnits(s, caller).queue == NextStep(r, s.signal + 1);
    }
  }

  /** The actions that leave the queue alone. */
  lemma QueueStays(s: Session, a: Action)
    requires a.DoPush? || a.DoPushAudio? || a.DoEnd? || a.DoSettle? || a.DoResumeUnits? || a.DoReturn?
    ensures Act(s, a).queue == s.queue && Calmer(s.queue, s.queue)
  {
  }

  lemma ResumedEndIsCalm(s: Session)
    requires SessionValid(s)
    ensures Calmer(s.queue, EndResumes(s).queue)
  {
    var e :=
      if s.native.CloseFailed? then QueueRuns.Fail(WrapNativeError(s.native.error)) else QueueRuns.End(true);
    NonPushIsCalm(QueueOptions(s.config), s.queue, e);
  }

  lemma OtherActsNumberNothing(s: Session, a: Action)
    requires !a.DoEmit?
    ensures Act(s, a).sequence == s.sequence && Act(s, a).audioSequence == s.audioSequence
  {
  }

  lemma OtherActsAreCalm(s: Session, a: Action)
    requires SessionValid(s) && !a.DoEmit?
    ensures var t := Act(s, a);
      Calmer(s.queue, t.queue) && t.sequence == s.sequence && t.audioSequence == s.audioSequence
  {
    var o := QueueOptions(s.config);
    OtherActsNumberNothing(s, a);
    if !Enabled(s, a) { return; }
    match a
    case DoError(e) => NonPushIsCalm(o, s.queue, QueueRuns.Fail(WrapNativeError(e)));
    case DoClose => CloseIsCalm(s);
    case DoResumeEnd => ResumedEndIsCalm(s);
    case DoStart(caller) => StartIsCalm(s, caller);
    case DoPull => NextIsCalm(s.queue, s.signal);
    case DoAbort(c) => NonPushIsCalm(o, s.queue, QueueRuns.Abort(s.signal));
    case _ => QueueStays(s, a);
  }

  lemma CalmKeepsVideo(q: State<Unit>, t: State<Unit>, sequence: nat)
    requires VideoInvariant(q, sequence) && Calmer(q, t)
    ensures VideoInvariant(t, sequence)
  {
    var rest := Contents(q)[|Contents(t)|..];
    assert Contents(q) == Contents(t) + rest;
    FilterConcat(Contents(t), rest, IsVideo);
    DecodablePrefix(Videos(Contents(t)), Videos(rest));
  }

  lemma {:induction false} VideoRun(c: Config, actions: seq<Action>)
    requires c.isVideo
    ensures var s := RunSession(NewSession(c), actions);
      VideoInvariant(s.queue, s.sequence) && |s.queue.buffer| <= QueueOptions(c).Capacity()
    decreases |actions|
  {
    if actions != [] {
      var s, a := RunSession(NewSession(c), actions[..|actions| - 1]), actions[|actions| - 1];
      VideoRun(c, actions[..|actions| - 1]);
      RunKeepsSession(c, actions[..|actions| - 1]);
      if a.DoEmit? {
        if Enabled(s, a) { EmitKeepsVideo(s, a.unit); }
      } else {
        OtherActsAreCalm(s, a);
        CalmKeepsVideo(s.queue, Act(s, a).queue, s.sequence);
      }
    }
  }

  /**
   * Decodability: through any number of overflows, aborts and new consumers, a delivered video unit
   * that does not directly follow the one delivered before it is a keyframe, and numbers only grow.
   */
  lemma {:induction false} DeliveredVideoIsDecodable(c: Config, actions: seq<Action>)
    requires c.isVideo
    ensures Decodable(Videos(Delivered(RunSession(NewSession(c), actions).queue.log)))
  {
    VideoRun(c, actions);
    var q := RunSession(NewSession(c), actions).queue;
    ContentsTracks(q);
    DecodablePrefix(Videos(Delivered(q.log)), Videos(q.buffer));
  }

  // ---------------------------------------------------------------------------------------------
  // Resynchronisation
  // ---------------------------------------------------------------------------------------------

  /**
   * Video is lost only by starting a resync, which asks for a keyframe in the same step, or inside
   * one; a resync ends with a keyframe, which is kept whenever a request is parked or there is room.
   */
  lemma {:induction false} ResyncProgress(c: Config, actions: seq<Action>, n: NativeUnit)
    requires c.isVideo && !n.audio
    ensures var s := RunSession(NewSession(c), actions); var t := Emit(s, n); var u := Numbered(s, n);
      !s.queue.ended ==>
        && (s.queue.resyncing ==> Videos(s.queue.buffer) == [])
        && (Contents(t.queue) != Contents(s.queue) + [u] ==> t.queue.resyncing)
        && (t.queue.resyncing && Contents(t.queue) != Contents(s.queue) ==> t.calls == s.calls + [RequestKeyFrame])
        && (s.queue.resyncing && !n.isKeyFrame ==> t.queue == s.queue)
        && (s.queue.resyncing && n.isKeyFrame
            && (s.queue.waiter.Some? || |s.queue.buffer| < QueueOptions(c).Capacity()) ==>
              !t.queue.resyncing && Contents(t.queue) == Contents(s.queue) + [u])
  {
    VideoRun(c, actions);
    RunKeepsSession(c, actions);
    var s := RunSession(NewSession(c), actions);
    var o, q, u := QueueOptions(c), s.queue, Numbered(s, n);
    if Admits(o, q, u) {
      if q.waiter.None? && |q.buffer| == o.Capacity() {
        OverflowOutcome(c, q, u);
      } else {
        JoinOutcome(o, q, u);
      }
    }
  }

  /** A keyframe has been requested since the last video unit that was let in. */
  function AskedSince(c: Config, actions: seq<Action>): bool
  {
    if actions == [] then false
    else
      var init, a := actions[..|actions| - 1], actions[|actions| - 1];
      var s, t := RunSession(NewSession(c), init), RunSession(NewSession(c), actions);
      if t.calls == s.calls + [RequestKeyFrame] then true
      else if Enabled(s, a) && a.DoEmit? && !a.unit.audio && Admits(QueueOptions(c), s.queue, Numbered(s, a.unit))
      then false
      else AskedSince(c, init)
  }

  lemma EmitAsks(s: Session, n: NativeUnit)
    requires SessionValid(s) && s.config.isVideo && |s.queue.buffer| <= QueueOptions(s.config).Capacity()
    ensures var t, admitted := Emit(s, n), Admits(QueueOptions(s.config), s.queue, Numbered(s, n));
      !t.queue.ended && t.queue.resyncing ==>
        && !s.queue.ended
        && (t.calls == s.calls + [RequestKeyFrame] || (s.queue.resyncing && (admitted ==> n.audio)))
  {
    PushOutcome(s.config, s.queue, Numbered(s, n));
  }

  /** In every run: while resyncing, a keyframe has been requested since the last video unit let in. */
  lemma {:induction false} ResyncHasAsked(c: Config, actions: seq<Action>)
    requires c.isVideo
    ensures var q := RunSession(NewSession(c), actions).queue;
      !q.ended && q.resyncing ==> AskedSince(c, actions)
    decreases |actions|
  {
    if actions != [] {
      var init, a := actions[..|actions| - 1], actions[|actions| - 1];
      var s := RunSession(NewSession(c), init);
      ResyncHasAsked(c, init);
      VideoRun(c, init);
      RunKeepsSession(c, init);
      if a.DoEmit? {
        if Enabled(s, a) { EmitAsks(s, a.unit); }
      } else {
        OtherActsAreCalm(s, a);
      }
    }
  }

  /** In MJPEG mode nothing depends on what was lost: a full buffer is emptied, and the next frame is in. */
  lemma {:induction false} MjpegResyncsAtOnce(c: Config, actions: seq<Action>, n: NativeUnit)
    requires !c.isVideo
    ensures var s := RunSession(NewSession(c), actions); var t := Emit(s, n); var u := Numbered(s, n);
      && |t.queue.buffer| <= MAX_BUFFERED_UNITS && (t.queue.resyncing && !t.queue.ended ==> t.queue.buffer == [])
      && (!s.queue.ended && s.queue.resyncing ==> !t.queue.resyncing && Contents(t.queue) == Contents(s.queue) + [u])
  {
    MjpegRun(c, actions + [DoEmit(n)]);
    MjpegRun(c, actions);
    RunKeepsSession(c, actions);
    var s := RunSession(NewSession(c), actions);
    assert (actions + [DoEmit(n)])[..|actions|] == actions;
    if !s.queue.ended && s.queue.resyncing {
      JoinOutcome(QueueOptions(c), s.queue, Numbered(s, n));
    }
    EmitBoundedMjpeg(s, n);
  }

  predicate MjpegInvariant(q: State<Unit>)
  {
    |q.buffer| <= MAX_BUFFERED_UNITS && (q.resyncing && !q.ended ==> q.buffer == [])
  }

  lemma EmitBoundedMjpeg(s: Session, n: NativeUnit)
    requires !s.config.isVideo && MjpegInvariant(s.queue) && Valid(s.queue)
    ensures MjpegInvariant(Emit(s, n).queue)
  {
  }

  lemma {:induction false} MjpegRun(c: Config, actions: seq<Action>)
    requires !c.isVideo
    ensures MjpegInvariant(RunSession(NewSession(c), actions).queue)
    decreases |actions|
  {
    if actions != [] {
      var s, a := RunSession(NewSession(c), actions[..|actions| - 1]), actions[|actions| - 1];
      MjpegRun(c, actions[..|actions| - 1]);
      RunKeepsSession(c, actions[..|actions| - 1]);
      if a.DoEmit? {
        EmitBoundedMjpeg(s, a.unit);
      } else {
        OtherActsAreCalm(s, a);
      }
    }
  }

  // ---------------------------------------------------------------------------------------------
  // Audio conservation
  // ---------------------------------------------------------------------------------------------

  /** How many times so far an audio unit arrived at a buffer full of nothing but audio. */
  function AudioOverflows(c: Config, actions: seq<Action>): nat
  {
    if actions == [] then 0
    else
      var s, a := RunSession(NewSession(c), actions[..|actions| - 1]), actions[|actions| - 1];
      AudioOverflows(c, actions[..|actions| - 1])
      + if Enabled(s, a) && a.DoEmit? && AudioOverflow(QueueOptions(c), s.queue, Numbered(s, a.unit)) then 1 else 0
  }

  lemma AudioOverflowBalance(q: State<Unit>, t: State<Unit>, u: Unit)
    requires IsAudio(u) && forall v :: v in q.buffer ==> IsAudio(v)
    requires t == q.(buffer := (q.buffer + [u])[1..])
    ensures |Audios(Contents(t))| == |Audios(Contents(q))|
  {
    ContentsTracks(q);
    ContentsTracks(t);
    var b := q.buffer + [u];
    assert forall v :: v in b[1..] ==> v in b;
    FilterExtremes(t.buffer, IsAudio);
    FilterExtremes(q.buffer, IsAudio);
  }

  lemma VideoOverflowBalance(q: State<Unit>, t: State<Unit>, u: Unit)
    requires t.log == q.log && t.buffer == Audios(q.buffer + [u])
    ensures |Audios(Contents(t))| == |Audios(Contents(q))| + (if IsAudio(u) then 1 else 0)
  {
    ContentsTracks(q);
    ContentsTracks(t);
    AudioHasNoVideo(q.buffer + [u]);
    FilterAppend(q.buffer, u, IsAudio);
  }

  lemma EmitAudioBalance(s: Session, n: NativeUnit)
    requires SessionValid(s) && s.config.isVideo && |s.queue.buffer| <= QueueOptions(s.config).Capacity()
    requires !s.queue.ended
    ensures var t := Emit(s, n); var u := Numbered(s, n); var o := QueueOptions(s.config);
      |Audios(Contents(t.queue))| + (if AudioOverflow(o, s.queue, u) then 1 else 0)
        == |Audios(Contents(s.queue))| + (if n.audio then 1 else 0)
  {
    var o, q, u := QueueOptions(s.config), s.queue, Numbered(s, n);
    var t := PushStep(o, q, u);
    assert IsAudio(u) == n.audio;
    PushOutcome(s.config, q, u);
    if AudioOverflow(o, q, u) {
      AudioOverflowBalance(q, t, u);
    } else if VideoOverflow(o, q, u) {
      VideoOverflowBalance(q, t, u);
    } else if Admits(o, q, u) {
      FilterAppend(Contents(q), u, IsAudio);
    }
  }

  /**
   * Until the end, every audio unit produced is delivered or still held, except one lost for each
   * time the whole buffer was audio.
   */
  lemma {:induction false} AudioIsConserved(c: Config, actions: seq<Action>)
    requires c.isVideo
    ensures var s := RunSession(NewSession(c), actions);
      !s.queue.ended ==> |Audios(Contents(s.queue))| + AudioOverflows(c, actions) == s.audioSequence
    decreases |actions|
  {
    if actions != [] {
      var before := actions[..|actions| - 1];
      var s, a := RunSession(NewSession(c), before), actions[|actions| - 1];
      AudioIsConserved(c, before);
      VideoRun(c, before);
      RunKeepsSession(c, before);
      if a.DoEmit? {
        if Enabled(s, a) && !s.queue.ended { EmitAudioBalance(s, a.unit); }
      } else {
        OtherActsAreCalm(s, a);
      }
    }
  }
}
