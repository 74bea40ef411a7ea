/**
 * What stopping early does: after an abort nothing more is yielded, items that come late are dropped,
 * and the audio source is told to stop.
 */
module Stopping {
  import opened Sequences
  import opened UnitQueues
  import opened QueueRuns
  import opened Transcoders
  import opened TranscoderRuns
  import opened Pipelines
  import opened PipelineRuns
  import opened Streams
  import opened Deliveries
  import opened Faults

  // ---------------------------------------------------------------------------------------------
  // After an abort
  // ---------------------------------------------------------------------------------------------

  /** The signal that the consumer's requests are made under has fired. */
  predicate Cut(s: Session) { s.signal in s.queue.aborted }

  /** A step settles no request with a unit. */
  predicate HandsNothing(q: State<Unit>, t: State<Unit>)
  {
    Delivered(t.log) == Delivered(q.log) && q.aborted <= t.aborted
  }

  /** While the signal has fired nobody is parked, and a request is answered at once, without a unit. */
  lemma CutQueue(o: Options<Unit>, q: State<Unit>, e: QueueRuns.Event<Unit>)
    requires Valid(q) && q.waiter.None? && (e.Next? ==> e.signal in q.aborted)
    ensures HandsNothing(q, QueueRuns.Step(o, q, e)) && QueueRuns.Step(o, q, e).waiter.None?
  {
    match e
    case Push(u) => assert PushStep(o, q, u).log == q.log;
    case Next(signal) =>
      assert Delivered(q.log) + [] == Delivered(q.log);
      DeliveredAppend(q.log, Settlement(q.issued, Done));
    case Abort(signal) => AbortEffect(q, signal);
    case _ =>
  }

  lemma CutClose(s: Session)
    requires SessionValid(s) && Cut(s) && s.queue.waiter.None?
    ensures HandsNothing(s.queue, Close(s).queue)
  {
    var o, q := QueueOptions(s.config), AbortStep(s.queue, s.signal);
    CutQueue(o, s.queue, QueueRuns.Abort(s.signal));
    QueueKeepsItsEnd(o, s.queue, QueueRuns.Abort(s.signal));
    CutQueue(o, q, QueueRuns.End(false));
    ClosedQueue(s);
  }

  lemma CutEnd(s: Session)
    requires SessionValid(s) && s.queue.waiter.None?
    ensures HandsNothing(s.queue, EndResumes(s).queue)
  {
    var o := QueueOptions(s.config);
    CutQueue(o, s.queue, QueueRuns.Fail(WrapNativeError(if s.native.CloseFailed? then s.native.error else Falsy)));
    CutQueue(o, s.queue, QueueRuns.End(true));
  }

  lemma CutMeansUnparked(s: Session)
    requires SessionValid(s) && Cut(s)
    ensures s.queue.waiter.None?
  {
  }

  lemma CutStays(s: Session, a: Action)
    requires SessionValid(s) && Cut(s) && !a.DoStart?
    ensures Cut(Act(s, a)) && HandsNothing(s.queue, Act(s, a).queue)
  {
    var o := QueueOptions(s.config);
    CutMeansUnparked(s);
    if !Enabled(s, a) { return; }
    match a
    case DoEmit(n) => CutQueue(o, s.queue, QueueRuns.Push(Numbered(s, n)));
    case DoError(e) => CutQueue(o, s.queue, QueueRuns.Fail(WrapNativeError(e)));
    case DoClose => CutClose(s);
    case DoResumeEnd => CutEnd(s);
    case DoPull => CutQueue(o, s.queue, QueueRuns.Next(s.signal));
    case DoAbort(_) => CutQueue(o, s.queue, QueueRuns.Abort(s.signal));
    case _ => QueueStays(s, a);
  }

  predicate NoStart(actions: seq<Action>)
  {
    forall i :: 0 <= i < |actions| ==> !actions[i].DoStart?
  }

  lemma {:induction false} CutRun(s: Session, actions: seq<Action>)
    requires SessionValid(s) && Cut(s) && NoStart(actions)
    ensures var t := RunSession(s, actions);
      SessionValid(t) && Cut(t) && Delivered(t.queue.log) == Delivered(s.queue.log)
    decreases |actions|
  {
    if actions != [] {
      var init, a := actions[..|actions| - 1], actions[|actions| - 1];
      CutRun(s, init);
      ActKeepsValid(RunSession(s, init), a);
      CutStays(RunSession(s, init), a);
    }
  }

  lemma {:induction false} PipelineStartsOnce(s: Pipe, moves: seq<Move>)
    ensures NoStart(AllOperations(s, moves))
    decreases |moves|
  {
    if moves != [] {
      var init, m := moves[..|moves| - 1], moves[|moves| - 1];
      PipelineStartsOnce(s, init);
      OperationsStartNothing(RunPipe(s, init), m);
    }
  }

  lemma OperationsStartNothing(s: Pipe, m: Move)
    ensures NoStart(Operations(s, m))
  {
  }

  lemma AbortedIsCut(s: Pipe)
    requires PipeValid(s) && s.Aborted()
    ensures Cut(s.t)
  {
  }

  lemma HandedOnly(ys: seq<Unit>, more: seq<Unit>, pending: seq<Unit>, later: seq<Unit>)
    requires ys + pending == more + later
    ensures more <= ys + pending
  {
  }

  lemma CutPipe(s: Pipe, moves: seq<Move>)
    requires PipeValid(s) && s.Aborted()
    ensures Delivered(RunPipe(s, moves).t.queue.log) == Delivered(s.t.queue.log)
  {
    AbortedIsCut(s);
    PipelineOperates(s, moves);
    PipelineStartsOnce(s, moves);
    CutRun(s.t, AllOperations(s, moves));
  }

  /** What has been handed out is what has been yielded, and the answer being awaited. */
  lemma HandedByPipe(c: Config, before: seq<Action>, hasAudioSource: bool, hasSignal: bool, moves: seq<Move>)
    requires Unused(RunSession(NewSession(c), before))
    ensures var p := Start(RunSession(NewSession(c), before), hasAudioSource, hasSignal);
      var r := RunPipe(p, moves);
      PipeValid(r) && Delivered(r.t.queue.log) == PipeYields(p, moves) + Pending(r.t)
  {
    ConsumersGetTheStream(c, before);
    StateOfRun(c, before, hasAudioSource, hasSignal, moves);
    StoryRuns(c, before, hasAudioSource, hasSignal, moves);
    RunHands(c, Story(c, before, hasAudioSource, hasSignal, moves));
  }

  /**
   * After the caller's abort, whatever the native side and the sources go on to do, the consumer gets
   * nothing but the unit that its request had already been answered with, if any.
   */
  lemma AbortStopsTheStream(
    c: Config, before: seq<Action>, hasAudioSource: bool, hasSignal: bool, a: seq<Move>, b: seq<Move>)
    requires Unused(RunSession(NewSession(c), before))
    ensures var p := Start(RunSession(NewSession(c), before), hasAudioSource, hasSignal);
      var r := RunPipe(p, a);
      r.Aborted() ==> |Pending(r.t)| <= 1 && PipeYields(p, a + b) <= PipeYields(p, a) + Pending(r.t)
  {
    var p := Start(RunSession(NewSession(c), before), hasAudioSource, hasSignal);
    var r := RunPipe(p, a);
    if r.Aborted() {
      HandedByPipe(c, before, hasAudioSource, hasSignal, a);
      HandedByPipe(c, before, hasAudioSource, hasSignal, a + b);
      CutPipe(r, b);
      RunPipeConcat(p, a, b);
      HandedOnly(PipeYields(p, a), PipeYields(p, a + b), Pending(r.t), Pending(RunPipe(p, a + b).t));
    }
  }

  // ---------------------------------------------------------------------------------------------
  // Late items
  // ---------------------------------------------------------------------------------------------

  /** The pump has left its loop, and nothing else has happened. */
  predicate Dropped(s: Pipe, r: Pipe, pump: Pump)
  {
    pump.Over? && r.t == s.t && r.stage == s.stage && r.failures == s.failures
  }

  /**
   * A source that was idle when the pipeline stopped: its next item is not fed and ends the pump, and
   * so does an audio item that comes after the video has ended.
   */
  lemma LateItemsAreDropped(s: Pipe, au: AccessUnit, now: real, fault: Option<Error>)
    ensures s.video.Reading? && s.stopped ==>
      Dropped(s, Make(s, VideoItem(au, now, fault)), Make(s, VideoItem(au, now, fault)).video)
    ensures s.audio.Reading? && (s.stopped || s.audioDone) ==>
      Dropped(s, Make(s, AudioItem(au, now, fault)), Make(s, AudioItem(au, now, fault)).audio)
  {
    if s.video.Reading? && s.stopped {
      assert Make(s, VideoItem(au, now, fault)) == AfterVideo(s);
    }
  }

  // ---------------------------------------------------------------------------------------------
  // The audio source
  // ---------------------------------------------------------------------------------------------

  /** Some audio item could not be pushed. */
  predicate AudioPushThrew(s: Pipe, moves: seq<Move>)
  {
    moves != [] &&
    (AudioPushThrew(s, moves[..|moves| - 1])
     || (moves[|moves| - 1].AudioItem? && SourceFault(RunPipe(s, moves[..|moves| - 1]), moves[|moves| - 1]) != []))
  }

  /** The source is done with: it has been told or has reported, unless a push of its item threw. */
  predicate AudioTold(s: Pipe, threw: bool)
  {
    && s.hasAudioSource
    && (threw ==> s.audioDone && s.audioLog == [] && !s.audio.Reading?)
    && (s.audioDone && !threw ==> s.audioLog != [])
  }

  lemma ReleaseTells(s: Pipe, threw: bool)
    requires AudioTold(s, threw)
    ensures AudioTold(ReleaseAudio(s), threw) && AudioTold(ReleaseSource(s), threw)
  {
  }

  lemma AfterVideoTells(s: Pipe, threw: bool)
    requires AudioTold(s, threw)
    ensures AudioTold(AfterVideo(s), threw)
  {
  }

  /** Nothing about the audio has changed. */
  predicate AudioAlone(s: Pipe, r: Pipe)
  {
    r.hasAudioSource == s.hasAudioSource && r.audioDone == s.audioDone && r.audioLog == s.audioLog && r.audio == s.audio
  }

  lemma AloneTells(s: Pipe, r: Pipe, threw: bool)
    requires AudioTold(s, threw) && AudioAlone(s, r)
    ensures AudioTold(r, threw)
  {
  }

  lemma VideoItemTells(s: Pipe, au: AccessUnit, now: real, fault: Option<Error>, threw: bool)
    requires AudioTold(s, threw)
    ensures AudioTold(VideoArrives(s, au, now, fault), threw)
  {
    var f := s.(t := Feed(s.t, au, now));
    if s.stopped {
      AfterVideoTells(s, threw);
    } else if FeedThrows(s.t, fault).Some? {
      AloneTells(s, RecordFailure(f, FeedThrows(s.t, fault).value), threw);
      AfterVideoTells(RecordFailure(f, FeedThrows(s.t, fault).value), threw);
    } else {
      AloneTells(s, f, threw);
    }
  }

  lemma VideoTells(s: Pipe, m: Move, threw: bool)
    requires AudioTold(s, threw) && Possible(s, m) && VideoMove(m)
    ensures AudioTold(Make(s, m), threw)
  {
    var v := s.(exhausted := true, videoLog := s.videoLog + [Reported]);
    AloneTells(s, v, threw);
    match m
    case VideoItem(au, now, fault) => VideoItemTells(s, au, now, fault, threw);
    case VideoEnds => AfterVideoTells(v, threw);
    case VideoThrows(e) =>
      AloneTells(v, RecordFailure(v, e), threw);
      AfterVideoTells(RecordFailure(v, e), threw);
    case VideoFinishes => AloneTells(s, s.(video := Over), threw);
  }

  /** The pump ends in its catch clause; nothing is said to the source. */
  lemma AudioFailsTells(s: Pipe, e: Error)
    ensures var r := AudioFails(s, e);
      r.hasAudioSource == s.hasAudioSource && r.audioDone && r.audioLog == s.audioLog && !r.audio.Reading?
  {
    var f := RecordFailure(s.(audioDone := true), e);
    assert ReleaseSource(f).audioDone && ReleaseSource(f).audioLog == s.audioLog;
  }

  lemma AudioItemTells(s: Pipe, au: AccessUnit, now: real, fault: Option<Error>, threw: bool)
    requires AudioSource(s) && AudioTold(s, threw) && s.audio.Reading?
    ensures AudioTold(AudioArrives(s, au, now, fault), threw || SourceFault(s, AudioItem(au, now, fault)) != [])
  {
    if FeedAudioThrows(s.t, fault).Some? {
      AudioFailsTells(s.(t := FeedAudio(s.t, au, now)), FeedAudioThrows(s.t, fault).value);
    }
  }

  lemma AudioTells(s: Pipe, m: Move, threw: bool)
    requires AudioSource(s) && AudioTold(s, threw) && Possible(s, m) && AudioMove(m)
    ensures AudioTold(Make(s, m), threw || (m.AudioItem? && SourceFault(s, m) != []))
  {
    match m
    case AudioItem(au, now, fault) => AudioItemTells(s, au, now, fault, threw);
    case AudioThrows(e) => AudioFailsTells(s.(audioLog := s.audioLog + [Reported]), e);
    case AudioEnds =>
    case AudioFinishes =>
  }

  lemma ClosingTells(s: Pipe, threw: bool)
    requires AudioTold(s, threw) && s.stage.Closing?
    ensures AudioTold(AfterClose(s), threw)
  {
    var r := ReleaseAudio(ReleaseSource(s));
    ReleaseTells(s, threw);
    ReleaseTells(ReleaseSource(s), threw);
    AloneTells(r, AfterClose(s), threw);
  }

  lemma ConsumerTells(s: Pipe, m: Move, threw: bool)
    requires AudioTold(s, threw) && Possible(s, m) && !VideoMove(m) && !AudioMove(m)
    ensures AudioTold(Make(s, m), threw)
  {
    match m
    case CloseSettles => ClosingTells(s, threw);
    case UnitSettles(answer) => AloneTells(s, UnitArrives(s, answer), threw);
    case ConsumerLeaves => AloneTells(s, LeaveLoop(s.(t := ReturnUnits(s.t)), Left), threw);
    case Within(a) => AloneTells(s, s.(t := Act(s.t, a)), threw);
    case PumpJoins => AloneTells(s, Make(s, m), threw);
  }

  lemma {:induction false} RunTells(s: Pipe, moves: seq<Move>)
    requires PipeValid(s) && AudioTold(s, false)
    ensures AudioTold(RunPipe(s, moves), AudioPushThrew(s, moves))
    decreases |moves|
  {
    if moves != [] {
      var init, m := moves[..|moves| - 1], moves[|moves| - 1];
      var r, threw := RunPipe(s, init), AudioPushThrew(s, init);
      RunTells(s, init);
      RunKeepsPipe(s, init);
      if Possible(r, m) {
        if VideoMove(m) {
          VideoTells(r, m, threw);
        } else if AudioMove(m) {
          AudioTells(r, m, threw);
        } else {
          ConsumerTells(r, m, threw);
        }
      }
    }
  }

  /**
   * When the pipeline has finished, the audio source has reported its end or has been asked to
   * `return()`, if and only if no push of an audio item threw. After such a throw it is not asked.
   */
  lemma AudioIsToldExactly(t: Session, hasSignal: bool, moves: seq<Move>)
    requires Unused(t)
    ensures var p := Start(t, true, hasSignal); var r := RunPipe(p, moves);
      r.stage.Finished? ==> (r.audioLog != [] <==> !AudioPushThrew(p, moves))
  {
    var p := Start(t, true, hasSignal);
    StartIsValid(t, true, hasSignal);
    RunKeepsPipe(p, moves);
    RunTells(p, moves);
  }

  // ---------------------------------------------------------------------------------------------
  // The video source
  // ---------------------------------------------------------------------------------------------

  /** The video source has reported its end or has been asked to return. */
  predicate VideoTold(s: Pipe) { s.exhausted || s.returned }

  predicate ToldOnFailure(s: Pipe) { s.failed ==> VideoTold(s) }

  lemma VideoEndIsTold(s: Pipe, e: Error)
    ensures VideoTold(AfterVideo(s)) && VideoTold(AudioFails(s, e))
  {
    var f := RecordFailure(s.(audioDone := true), e);
    assert VideoTold(ReleaseSource(s)) && VideoTold(ReleaseSource(f));
  }

  lemma VideoMoveTold(s: Pipe, m: Move)
    requires ToldOnFailure(s) && Possible(s, m) && VideoMove(m)
    ensures ToldOnFailure(Make(s, m))
  {
    var v := s.(exhausted := true, videoLog := s.videoLog + [Reported]);
    match m
    case VideoItem(au, now, fault) =>
      VideoEndIsTold(s, Falsy);
      if FeedThrows(s.t, fault).Some? {
        VideoEndIsTold(RecordFailure(s.(t := Feed(s.t, au, now)), FeedThrows(s.t, fault).value), Falsy);
      }
    case VideoEnds => VideoEndIsTold(v, Falsy);
    case VideoThrows(e) => VideoEndIsTold(RecordFailure(v, e), Falsy);
    case VideoFinishes =>
  }

  /** A step that records no failure and takes nothing back. */
  lemma ToldStays(s: Pipe, r: Pipe)
    requires ToldOnFailure(s) && r.failed == s.failed && (VideoTold(s) ==> VideoTold(r))
    ensures ToldOnFailure(r)
  {
  }

  lemma AudioItemTold(s: Pipe, au: AccessUnit, now: real, fault: Option<Error>)
    requires ToldOnFailure(s)
    ensures ToldOnFailure(AudioArrives(s, au, now, fault))
  {
    var f := s.(t := FeedAudio(s.t, au, now));
    if s.stopped || s.audioDone {
      ToldStays(s, s.(audio := Over));
    } else if FeedAudioThrows(s.t, fault).Some? {
      VideoEndIsTold(f, FeedAudioThrows(s.t, fault).value);
    } else {
      ToldStays(s, f);
    }
  }

  lemma AudioMoveTold(s: Pipe, m: Move)
    requires ToldOnFailure(s) && Possible(s, m) && AudioMove(m)
    ensures ToldOnFailure(Make(s, m))
  {
    match m
    case AudioItem(au, now, fault) => AudioItemTold(s, au, now, fault);
    case AudioThrows(e) => VideoEndIsTold(s.(audioLog := s.audioLog + [Reported]), e);
    case AudioEnds => ToldStays(s, Make(s, m));
    case AudioFinishes => ToldStays(s, s.(audio := Over));
  }

  lemma ClosingIsTold(s: Pipe)
    requires s.stage.Closing?
    ensures VideoTold(AfterClose(s))
  {
    assert VideoTold(ReleaseSource(s));
  }

  lemma ToldByConsumer(s: Pipe, r: Pipe)
    requires ToldOnFailure(s) && KeepsPumps(s, r)
    ensures ToldOnFailure(r)
  {
  }

  lemma LeavingTold(s: Pipe)
    requires ToldOnFailure(s)
    ensures ToldOnFailure(LeaveLoop(s.(t := ReturnUnits(s.t)), Left))
  {
    var r := s.(t := ReturnUnits(s.t));
    ToldStays(s, r);
    ToldByConsumer(r, LeaveLoop(r, Left));
  }

  lemma ConsumerMoveTold(s: Pipe, m: Move)
    requires ToldOnFailure(s) && Possible(s, m) && !VideoMove(m) && !AudioMove(m)
    ensures ToldOnFailure(Make(s, m))
  {
    match m
    case UnitSettles(answer) => ToldByConsumer(s, UnitArrives(s, answer));
    case ConsumerLeaves => LeavingTold(s);
    case CloseSettles => ClosingIsTold(s);
    case Within(a) => ToldStays(s, s.(t := Act(s.t, a)));
    case PumpJoins => ToldStays(s, Make(s, m));
  }

  lemma {:induction false} RunIsTold(s: Pipe, moves: seq<Move>)
    requires ToldOnFailure(s)
    ensures ToldOnFailure(RunPipe(s, moves))
    decreases |moves|
  {
    if moves != [] {
      var r, m := RunPipe(s, moves[..|moves| - 1]), moves[|moves| - 1];
      RunIsTold(s, moves[..|moves| - 1]);
      if Possible(r, m) {
        if VideoMove(m) {
          VideoMoveTold(r, m);
        } else if AudioMove(m) {
          AudioMoveTold(r, m);
        } else {
          ConsumerMoveTold(r, m);
        }
      }
    }
  }

  /**
   * The sources stop with the stream, not only at its end: at any time in a run, once the video pump is
   * out of its loop or a source has failed, the video source has reported its end or been asked to
   * return; and once the video pump is out, no more audio is taken.
   */
  lemma SourcesStopWithTheStream(t: Session, hasAudioSource: bool, hasSignal: bool, moves: seq<Move>)
    requires Unused(t)
    ensures var p := Start(t, hasAudioSource, hasSignal); var r := RunPipe(p, moves);
      && (!r.video.Reading? || SourceFaults(p, moves) != [] ==> r.videoLog != [])
      && (hasAudioSource && !r.video.Reading? ==> r.audioDone)
  {
    var p := Start(t, hasAudioSource, hasSignal);
    var r := RunPipe(p, moves);
    StartIsValid(t, hasAudioSource, hasSignal);
    RunKeepsPipe(p, moves);
    RunIsTold(p, moves);
    StartedRecords(t, hasAudioSource, hasSignal, moves);
    if hasAudioSource { RunTells(p, moves); }
  }
}
