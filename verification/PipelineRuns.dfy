/** What holds of every run of the pipeline: release discipline, outcomes, and freedom from idle waits. */
module PipelineRuns {
  import opened Sequences
  import opened UnitQueues
  import opened QueueRuns
  import opened Transcoders
  import opened Pipelines

  /** The stream is coming to its end of its own accord: the video pump is out of its loop, or something failed. */
  predicate Quiet(s: Pipe)
  {
    s.failed || !s.video.Reading?
  }

  // ---------------------------------------------------------------------------------------------
  // Invariants
  // ---------------------------------------------------------------------------------------------

  /** How the program counters, the flags and the session's life cycle hang together. */
  predicate Base(s: Pipe)
  {
    && (s.stage.Streaming? <==> !s.stopped) && s.t.stopped == s.stopped
    && (s.stage.Streaming? <==> s.t.consumer != Idle)
    && s.t.caller == (if s.hasSignal then Some(0) else None)
    && (s.stopped || s.video.Finishing? || s.audio.Finishing? ==> s.t.closing != Open)
    && (s.stage.Joining? || s.stage.Finished? ==> s.t.CloseSettled())
    && (s.stage.Joining? ==> s.t.native == Closed)
    && (!s.hasAudioSource ==> s.audio == Over)
  }

  /** Before the consumer stops, the close has begun exactly if the stream is coming to its end. */
  predicate Control(s: Pipe)
  {
    Base(s) && (!s.stopped ==> (s.t.closing != Open <==> Quiet(s)))
  }

  /** At most one `return()`, and none after the source has reported. */
  predicate Disciplined(log: seq<SourceEvent>)
  {
    log == [] || log == [Reported] || log == [ReturnCalled] || log == [ReturnCalled, Reported]
  }

  function VideoEvents(returned: bool, exhausted: bool): seq<SourceEvent>
  {
    (if returned then [ReturnCalled] else []) + (if exhausted then [Reported] else [])
  }

  predicate VideoSource(s: Pipe)
  {
    && s.videoLog == VideoEvents(s.returned, s.exhausted)
    && (s.video.Reading? ==> !s.exhausted)
    && (!s.video.Reading? || s.stage.Joining? || s.stage.Finished? ==> s.exhausted || s.returned)
  }

  predicate AudioSource(s: Pipe)
  {
    && Disciplined(s.audioLog) && (s.audioLog != [] ==> s.audioDone)
    && (s.audio.Reading? ==> s.audioLog == [] || s.audioLog == [ReturnCalled])
    && (s.hasAudioSource && (!s.video.Reading? || s.stage.Joining? || s.stage.Finished?) ==> s.audioDone)
  }

  predicate Sources(s: Pipe)
  {
    VideoSource(s) && AudioSource(s)
  }

  predicate Failures(s: Pipe)
  {
    && (s.failed <==> s.failures != [])
    && (s.failed ==> s.pumpError == s.failures[0])
  }

  /** While streaming, every answer given so far meant what it said. */
  ghost predicate HonestAnswers(q: State<Unit>, aborted: bool, quiet: bool)
  {
    && (forall x :: x in q.log ==>
          && (x.result == Done ==> aborted || (quiet && q.ended && !q.draining && q.error.None?))
          && (x.result.Rejected? ==> q.error == Some(x.result.error)))
    && (q.error.Some? ==> q.error.value != Falsy)
    && (q.ended && q.error.None? ==> quiet)
    && (q.error.None? ==> q.discarded == [])
  }

  /** The consumer left because of what the queue and the caller's signal said. */
  predicate Justified(q: State<Unit>, exit: Exit, aborted: bool, quiet: bool)
  {
    match exit
    case Drained => aborted || (quiet && q.error.None? && q.discarded == [])
    case Thrown(e) => q.error == Some(e)
    case Left => true
  }

  ghost predicate Ends(s: Pipe)
  {
    && (s.stage.Streaming? ==> HonestAnswers(s.t.queue, s.Aborted(), Quiet(s)))
    && (s.stage.Closing? ==> Justified(s.t.queue, s.stage.exit, s.Aborted(), Quiet(s)))
    && (s.stage.Joining? ==> !s.video.Reading? && s.t.queue.error.None? && s.t.queue.discarded == [])
  }

  ghost predicate PipeValid(s: Pipe)
  {
    SessionValid(s.t) && Control(s) && Sources(s) && Failures(s) && Ends(s)
  }

  // ---------------------------------------------------------------------------------------------
  // Flags and sources
  // ---------------------------------------------------------------------------------------------

  lemma ReleaseKeepsSources(s: Pipe)
    requires Sources(s)
    ensures var r := ReleaseAudio(ReleaseSource(s));
      Sources(r) && (r.exhausted || r.returned) && (r.hasAudioSource ==> r.audioDone)
    ensures Sources(ReleaseSource(s))
  {
  }

  lemma AfterVideoKeepsSources(s: Pipe)
    requires Sources(s.(video := Reading, exhausted := false, videoLog := VideoEvents(s.returned, false)))
    requires s.videoLog == VideoEvents(s.returned, s.exhausted)
    ensures Sources(AfterVideo(s))
  {
    if s.exhausted {
      assert ReleaseSource(s) == s;
    }
  }

  lemma AudioFailsKeepsSources(s: Pipe, e: Error)
    requires VideoSource(s) && Disciplined(s.audioLog)
    ensures Sources(AudioFails(s, e))
  {
  }

  lemma ReportIsLast(s: Pipe)
    requires Sources(s)
    ensures s.video.Reading? ==> s.videoLog + [Reported] == VideoEvents(s.returned, true)
    ensures s.audio.Reading? ==> Disciplined(s.audioLog + [Reported])
  {
  }

  lemma VideoArrivesKeepsSources(s: Pipe, au: AccessUnit, now: real, fault: Option<Error>)
    requires Sources(s) && s.video.Reading?
    ensures Sources(VideoArrives(s, au, now, fault))
  {
    var thrown := FeedThrows(s.t, fault);
    var r := s.(t := Feed(s.t, au, now));
    if s.stopped {
      AfterVideoKeepsSources(s);
    } else if thrown.Some? {
      AfterVideoKeepsSources(RecordFailure(r, thrown.value));
    }
  }

  lemma AudioArrivesKeepsSources(s: Pipe, au: AccessUnit, now: real, fault: Option<Error>)
    requires Sources(s) && s.audio.Reading?
    ensures Sources(AudioArrives(s, au, now, fault))
  {
    var thrown := FeedAudioThrows(s.t, fault);
    if !s.stopped && !s.audioDone && thrown.Some? {
      AudioFailsKeepsSources(s.(t := FeedAudio(s.t, au, now)), thrown.value);
    }
  }

  lemma VideoEndKeepsSources(s: Pipe, e: Error)
    requires Sources(s) && s.video.Reading?
    ensures var r := s.(exhausted := true, videoLog := s.videoLog + [Reported]);
      Sources(AfterVideo(r)) && Sources(AfterVideo(RecordFailure(r, e)))
  {
    var r := s.(exhausted := true, videoLog := s.videoLog + [Reported]);
    ReportIsLast(s);
    AfterVideoKeepsSources(r);
    AfterVideoKeepsSources(RecordFailure(r, e));
  }

  lemma AudioEndKeepsSources(s: Pipe, e: Error)
    requires Sources(s) && s.audio.Reading?
    ensures var r := s.(audioLog := s.audioLog + [Reported]);
      Sources(AudioFails(r, e)) && Sources(r.(audioDone := true, audio := Over))
  {
    var r := s.(audioLog := s.audioLog + [Reported]);
    ReportIsLast(s);
    AudioFailsKeepsSources(r, e);
  }

  lemma LeaveKeepsSources(s: Pipe, exit: Exit)
    requires Sources(s)
    ensures Sources(LeaveLoop(s, exit))
  {
  }

  lemma UnitArrivesKeepsSources(s: Pipe, answer: Result<Unit>)
    requires Sources(s)
    ensures Sources(UnitArrives(s, answer))
  {
  }

  lemma ClosingKeepsSources(s: Pipe)
    requires Sources(s) && s.stage.Closing?
    ensures Sources(AfterClose(s))
  {
    ReleaseKeepsSources(s);
  }

  lemma VideoMoveKeepsSources(s: Pipe, m: Move)
    requires Sources(s) && Possible(s, m) && VideoMove(m)
    ensures Sources(Make(s, m))
  {
    match m
    case VideoItem(au, now, fault) => VideoArrivesKeepsSources(s, au, now, fault);
    case VideoEnds => VideoEndKeepsSources(s, Falsy);
    case VideoThrows(e) => VideoEndKeepsSources(s, e);
    case VideoFinishes =>
  }

  lemma AudioMoveKeepsSources(s: Pipe, m: Move)
    requires Sources(s) && Possible(s, m) && AudioMove(m)
    ensures Sources(Make(s, m))
  {
    match m
    case AudioItem(au, now, fault) => AudioArrivesKeepsSources(s, au, now, fault);
    case AudioEnds => AudioEndKeepsSources(s, Falsy);
    case AudioThrows(e) => AudioEndKeepsSources(s, e);
    case AudioFinishes =>
  }

  lemma ConsumerMoveKeepsSources(s: Pipe, m: Move)
    requires Sources(s) && Possible(s, m) && !VideoMove(m) && !AudioMove(m)
    ensures Sources(Make(s, m))
  {
    match m
    case UnitSettles(r) => UnitArrivesKeepsSources(s, r);
    case ConsumerLeaves => LeaveKeepsSources(s.(t := ReturnUnits(s.t)), Left);
    case CloseSettles => ClosingKeepsSources(s);
    case Within(_) =>
    case PumpJoins =>
  }

  lemma MakeKeepsSources(s: Pipe, m: Move)
    requires Sources(s)
    ensures Sources(Make(s, m))
  {
    if Possible(s, m) {
      if VideoMove(m) {
        VideoMoveKeepsSources(s, m);
      } else if AudioMove(m) {
        AudioMoveKeepsSources(s, m);
      } else {
        ConsumerMoveKeepsSources(s, m);
      }
    }
  }

  lemma RecordKeepsFailures(s: Pipe, e: Error)
    requires Failures(s)
    ensures Failures(RecordFailure(s, e)) && Failures(AfterVideo(RecordFailure(s, e)))
  {
    var r := RecordFailure(s, e);
    assert Failures(r);
    assert AfterVideo(r).failures == r.failures && AfterVideo(r).failed == r.failed;
  }

  lemma AudioKeepsFailures(s: Pipe, e: Error)
    requires Failures(s)
    ensures Failures(AudioFails(s, e))
  {
    RecordKeepsFailures(s.(audioDone := true), e);
  }

  lemma VideoArrivesKeepsFailures(s: Pipe, au: AccessUnit, now: real, fault: Option<Error>)
    requires Failures(s)
    ensures Failures(VideoArrives(s, au, now, fault))
  {
    var thrown := FeedThrows(s.t, fault);
    if thrown.Some? { RecordKeepsFailures(s.(t := Feed(s.t, au, now)), thrown.value); }
  }

  lemma AudioArrivesKeepsFailures(s: Pipe, au: AccessUnit, now: real, fault: Option<Error>)
    requires Failures(s)
    ensures Failures(AudioArrives(s, au, now, fault))
  {
    var thrown := FeedAudioThrows(s.t, fault);
    if thrown.Some? { AudioKeepsFailures(s.(t := FeedAudio(s.t, au, now)), thrown.value); }
  }

  lemma UnitArrivesKeepsFailures(s: Pipe, answer: Result<Unit>)
    requires Failures(s)
    ensures Failures(UnitArrives(s, answer))
  {
  }

  lemma VideoMoveKeepsFailures(s: Pipe, m: Move)
    requires Failures(s) && Possible(s, m) && VideoMove(m)
    ensures Failures(Make(s, m))
  {
    match m
    case VideoItem(au, now, fault) => VideoArrivesKeepsFailures(s, au, now, fault);
    case VideoEnds =>
    case VideoThrows(e) => RecordKeepsFailures(s.(exhausted := true, videoLog := s.videoLog + [Reported]), e);
    case VideoFinishes =>
  }

  lemma AudioMoveKeepsFailures(s: Pipe, m: Move)
    requires Failures(s) && Possible(s, m) && AudioMove(m)
    ensures Failures(Make(s, m))
  {
    match m
    case AudioItem(au, now, fault) => AudioArrivesKeepsFailures(s, au, now, fault);
    case AudioEnds =>
    case AudioThrows(e) => AudioKeepsFailures(s.(audioLog := s.audioLog + [Reported]), e);
    case AudioFinishes =>
  }

  lemma ConsumerMoveKeepsFailures(s: Pipe, m: Move)
    requires Failures(s) && Possible(s, m) && !VideoMove(m) && !AudioMove(m)
    ensures Failures(Make(s, m))
  {
    match m
    case UnitSettles(r) => UnitArrivesKeepsFailures(s, r);
    case ConsumerLeaves =>
    case CloseSettles =>
    case Within(_) =>
    case PumpJoins =>
  }

  lemma MakeKeepsFailures(s: Pipe, m: Move)
    requires Failures(s)
    ensures Failures(Make(s, m))
  {
    if Possible(s, m) {
      if VideoMove(m) {
        VideoMoveKeepsFailures(s, m);
      } else if AudioMove(m) {
        AudioMoveKeepsFailures(s, m);
      } else {
        ConsumerMoveKeepsFailures(s, m);
      }
    }
  }

  // ---------------------------------------------------------------------------------------------
  // The session, and control
  // ---------------------------------------------------------------------------------------------

  lemma AfterVideoKeepsSession(s: Pipe)
    requires SessionValid(s.t)
    ensures SessionValid(AfterVideo(s).t)
  {
    BeginEndKeepsValid(s.t);
    assert AfterVideo(s).t == s.t || AfterVideo(s).t == BeginEnd(s.t);
  }

  lemma AudioFailsKeepsSession(s: Pipe, e: Error)
    requires SessionValid(s.t)
    ensures SessionValid(AudioFails(s, e).t)
  {
  }

  lemma VideoArrivesKeepsSession(s: Pipe, au: AccessUnit, now: real, fault: Option<Error>)
    requires SessionValid(s.t)
    ensures SessionValid(VideoArrives(s, au, now, fault).t)
  {
    FeedKeepsValid(s.t, au, now);
    var r := s.(t := Feed(s.t, au, now));
    if s.stopped {
      AfterVideoKeepsSession(s);
    } else if FeedThrows(s.t, fault).Some? {
      AfterVideoKeepsSession(RecordFailure(r, FeedThrows(s.t, fault).value));
    }
  }

  /** An audio item changes the session by feeding it, and by beginning the end if that throws. */
  lemma AudioArrivesSession(s: Pipe, au: AccessUnit, now: real, fault: Option<Error>)
    ensures var t, fed := AudioArrives(s, au, now, fault).t, FeedAudio(s.t, au, now);
      t == s.t || t == fed || t == BeginEnd(fed)
  {
  }

  lemma AudioArrivesKeepsSession(s: Pipe, au: AccessUnit, now: real, fault: Option<Error>)
    requires SessionValid(s.t)
    ensures SessionValid(AudioArrives(s, au, now, fault).t)
  {
    FeedAudioKeepsValid(s.t, au, now);
    BeginEndKeepsValid(FeedAudio(s.t, au, now));
    AudioArrivesSession(s, au, now, fault);
  }

  lemma UnitArrivesKeepsSession(s: Pipe, answer: Result<Unit>)
    requires SessionValid(s.t) && Enabled(s.t, DoResumeUnits(answer))
    ensures SessionValid(UnitArrives(s, answer).t)
  {
    ResumeKeepsValid(s.t, answer);
    CloseKeepsValid(ResumeUnits(s.t, answer));
    var t := ResumeUnits(s.t, answer);
    assert UnitArrives(s, answer).t == t || UnitArrives(s, answer).t == Close(t);
  }

  lemma LeaveKeepsSession(s: Pipe)
    requires SessionValid(s.t) && s.t.consumer.Suspended?
    ensures SessionValid(LeaveLoop(s.(t := ReturnUnits(s.t)), Left).t)
  {
    ReturnKeepsValid(s.t);
    CloseKeepsValid(ReturnUnits(s.t));
  }

  lemma VideoMoveKeepsSession(s: Pipe, m: Move)
    requires SessionValid(s.t) && Possible(s, m) && VideoMove(m)
    ensures SessionValid(Make(s, m).t)
  {
    match m
    case VideoItem(au, now, fault) => VideoArrivesKeepsSession(s, au, now, fault);
    case VideoEnds => AfterVideoKeepsSession(s.(exhausted := true, videoLog := s.videoLog + [Reported]));
    case VideoThrows(e) =>
      AfterVideoKeepsSession(RecordFailure(s.(exhausted := true, videoLog := s.videoLog + [Reported]), e));
    case VideoFinishes =>
  }

  lemma AudioMoveKeepsSession(s: Pipe, m: Move)
    requires SessionValid(s.t) && Possible(s, m) && AudioMove(m)
    ensures SessionValid(Make(s, m).t)
  {
    match m
    case AudioItem(au, now, fault) => AudioArrivesKeepsSession(s, au, now, fault);
    case AudioEnds =>
    case AudioThrows(e) => AudioFailsKeepsSession(s.(audioLog := s.audioLog + [Reported]), e);
    case AudioFinishes =>
  }

  lemma ConsumerMoveKeepsSession(s: Pipe, m: Move)
    requires SessionValid(s.t) && Possible(s, m) && !VideoMove(m) && !AudioMove(m)
    ensures SessionValid(Make(s, m).t)
  {
    match m
    case Within(a) => ActKeepsValid(s.t, a);
    case UnitSettles(r) => UnitArrivesKeepsSession(s, r);
    case ConsumerLeaves => LeaveKeepsSession(s);
    case CloseSettles => assert AfterClose(s).t == s.t;
    case PumpJoins =>
  }

  lemma MakeKeepsSession(s: Pipe, m: Move)
    requires SessionValid(s.t)
    ensures SessionValid(Make(s, m).t)
  {
    if Possible(s, m) {
      if VideoMove(m) {
        VideoMoveKeepsSession(s, m);
      } else if AudioMove(m) {
        AudioMoveKeepsSession(s, m);
      } else {
        ConsumerMoveKeepsSession(s, m);
      }
    }
  }

  /** The part of the session invariant that control depends on. */
  predicate Life(t: Session)
  {
    && (t.closing == Open <==> t.native.NotCalled?)
    && (t.closing == ByEnd(true) ==> !t.native.InFlight?)
  }

  lemma AfterVideoKeepsControl(s: Pipe)
    requires Base(s)
    ensures Control(AfterVideo(s))
  {
  }

  lemma AudioFailsKeepsControl(s: Pipe, e: Error)
    requires Base(s) && s.hasAudioSource
    ensures Control(AudioFails(s, e))
  {
  }

  lemma VideoArrivesKeepsControl(s: Pipe, au: AccessUnit, now: real, fault: Option<Error>)
    requires Control(s) && s.video.Reading?
    ensures Control(VideoArrives(s, au, now, fault))
  {
    var r := s.(t := Feed(s.t, au, now));
    if s.stopped {
      AfterVideoKeepsControl(s);
    } else if FeedThrows(s.t, fault).Some? {
      AfterVideoKeepsControl(RecordFailure(r, FeedThrows(s.t, fault).value));
    }
  }

  lemma AudioArrivesKeepsControl(s: Pipe, au: AccessUnit, now: real, fault: Option<Error>)
    requires Control(s) && s.audio.Reading?
    ensures Control(AudioArrives(s, au, now, fault))
  {
    var r := s.(t := FeedAudio(s.t, au, now));
    if !s.stopped && !s.audioDone && FeedAudioThrows(s.t, fault).Some? {
      AudioFailsKeepsControl(r, FeedAudioThrows(s.t, fault).value);
    }
  }

  lemma LeaveKeepsControl(s: Pipe, exit: Exit)
    requires Base(s.(t := s.t.(consumer := Suspended))) && s.t.consumer == Idle && s.stage.Streaming?
    ensures Control(LeaveLoop(s, exit))
  {
  }

  lemma UnitArrivesKeepsControl(s: Pipe, answer: Result<Unit>)
    requires Control(s) && s.stage.Streaming?
    ensures Control(UnitArrives(s, answer))
  {
  }

  lemma WithinKeepsControl(s: Pipe, a: Action)
    requires Life(s.t) && Control(s) && OfSession(s, a)
    ensures Control(s.(t := Act(s.t, a)))
  {
    match a
    case DoEmit(_) =>
    case DoError(_) =>
    case DoSettle(_) =>
    case DoResumeEnd =>
    case DoAbort(_) =>
    case DoPull =>
  }

  lemma AfterCloseKeepsControl(s: Pipe)
    requires Life(s.t) && Control(s) && s.stage.Closing? && s.t.CloseSettled()
    ensures Control(AfterClose(s))
  {
  }

  lemma VideoMoveKeepsControl(s: Pipe, m: Move)
    requires Life(s.t) && Control(s) && Possible(s, m) && VideoMove(m)
    ensures Control(Make(s, m))
  {
    match m
    case VideoItem(au, now, fault) => VideoArrivesKeepsControl(s, au, now, fault);
    case VideoEnds => AfterVideoKeepsControl(s.(exhausted := true, videoLog := s.videoLog + [Reported]));
    case VideoThrows(e) =>
      AfterVideoKeepsControl(RecordFailure(s.(exhausted := true, videoLog := s.videoLog + [Reported]), e));
    case VideoFinishes =>
  }

  lemma AudioMoveKeepsControl(s: Pipe, m: Move)
    requires Life(s.t) && Control(s) && Possible(s, m) && AudioMove(m)
    ensures Control(Make(s, m))
  {
    match m
    case AudioItem(au, now, fault) => AudioArrivesKeepsControl(s, au, now, fault);
    case AudioEnds =>
    case AudioThrows(e) => AudioFailsKeepsControl(s.(audioLog := s.audioLog + [Reported]), e);
    case AudioFinishes =>
  }

  lemma ConsumerMoveKeepsControl(s: Pipe, m: Move)
    requires Life(s.t) && Control(s) && Possible(s, m) && !VideoMove(m) && !AudioMove(m)
    ensures Control(Make(s, m))
  {
    match m
    case Within(a) => WithinKeepsControl(s, a);
    case UnitSettles(r) => UnitArrivesKeepsControl(s, r);
    case ConsumerLeaves => LeaveKeepsControl(s.(t := ReturnUnits(s.t)), Left);
    case CloseSettles => AfterCloseKeepsControl(s);
    case PumpJoins =>
  }

  lemma MakeKeepsControl(s: Pipe, m: Move)
    requires Life(s.t) && Control(s)
    ensures Control(Make(s, m))
  {
    if Possible(s, m) {
      if VideoMove(m) {
        VideoMoveKeepsControl(s, m);
      } else if AudioMove(m) {
        AudioMoveKeepsControl(s, m);
      } else {
        ConsumerMoveKeepsControl(s, m);
      }
    }
  }

  // ---------------------------------------------------------------------------------------------
  // What the queue answers, and how the consumer leaves
  // ---------------------------------------------------------------------------------------------

  lemma HonestPush(o: Options<Unit>, q: State<Unit>, u: Unit, aborted: bool, quiet: bool)
    requires Valid(q) && HonestAnswers(q, aborted, quiet)
    ensures HonestAnswers(PushStep(o, q, u), aborted, quiet)
  {
  }

  lemma HonestFail(q: State<Unit>, e: Error, aborted: bool, quiet: bool)
    requires Valid(q) && HonestAnswers(q, aborted, quiet) && e != Falsy
    ensures HonestAnswers(FailStep(q, e), aborted, quiet)
  {
  }

  lemma HonestDrain(q: State<Unit>, aborted: bool)
    requires Valid(q) && HonestAnswers(q, aborted, true)
    ensures HonestAnswers(EndStep(q, true), aborted, true)
  {
  }

  lemma HonestNext(q: State<Unit>, signal: nat, aborted: bool, quiet: bool)
    requires Valid(q) && HonestAnswers(q, aborted, quiet) && (signal in q.aborted ==> aborted)
    ensures HonestAnswers(NextStep(q, signal), aborted, quiet)
  {
  }

  lemma HonestAbort(q: State<Unit>, signal: nat, aborted: bool, quiet: bool)
    requires Valid(q) && HonestAnswers(q, aborted, quiet)
    ensures HonestAnswers(AbortStep(q, signal), true, quiet)
  {
    AbortEffect(q, signal);
    var t := AbortStep(q, signal);
    assert t.log == q.log || t.log == q.log + [t.log[|q.log|]];
  }

  lemma ResumingEndIsHonest(s: Pipe)
    requires PipeValid(s) && OfSession(s, DoResumeEnd) && s.stage.Streaming?
    ensures HonestAnswers(EndResumes(s.t).queue, s.Aborted(), Quiet(s))
  {
    if s.t.native.CloseFailed? {
      HonestFail(s.t.queue, WrapNativeError(s.t.native.error), s.Aborted(), Quiet(s));
    } else {
      HonestDrain(s.t.queue, s.Aborted());
    }
  }

  lemma PullingIsHonest(s: Pipe)
    requires PipeValid(s) && s.stage.Streaming? && s.t.consumer.Suspended?
    ensures HonestAnswers(CallNext(s.t).queue, s.Aborted(), Quiet(s))
  {
    HonestNext(s.t.queue, s.t.signal, s.Aborted(), Quiet(s));
  }

  lemma AbortingIsHonest(s: Pipe, signal: nat)
    requires PipeValid(s) && OfSession(s, DoAbort(signal)) && s.stage.Streaming?
    ensures var r := s.(t := CallerAborts(s.t, signal)); HonestAnswers(r.t.queue, r.Aborted(), Quiet(r))
  {
    HonestAbort(s.t.queue, s.t.signal, s.Aborted(), Quiet(s));
  }

  lemma WithinKeepsHonesty(s: Pipe, a: Action)
    requires PipeValid(s) && OfSession(s, a) && s.stage.Streaming?
    ensures var r := s.(t := Act(s.t, a)); HonestAnswers(r.t.queue, r.Aborted(), Quiet(r))
  {
    var q := s.t.queue;
    match a
    case DoEmit(n) => HonestPush(QueueOptions(s.t.config), q, Numbered(s.t, n), s.Aborted(), Quiet(s));
    case DoError(e) => HonestFail(q, WrapNativeError(e), s.Aborted(), Quiet(s));
    case DoSettle(_) =>
    case DoResumeEnd => ResumingEndIsHonest(s);
    case DoAbort(signal) => AbortingIsHonest(s, signal);
    case DoPull => PullingIsHonest(s);
  }

  /** Once the consumer has stopped, the queue is frozen: its error and what it dropped stay as they are. */
  lemma StoppedQueueIsFrozen(s: Pipe, a: Action)
    requires SessionValid(s.t) && s.t.stopped && s.t.consumer == Idle && OfSession(s, a)
    ensures Act(s.t, a).queue.error == s.t.queue.error && Act(s.t, a).queue.discarded == s.t.queue.discarded
  {
  }

  lemma WithinKeepsEnds(s: Pipe, a: Action)
    requires PipeValid(s) && OfSession(s, a)
    ensures Ends(s.(t := Act(s.t, a)))
  {
    if s.stage.Streaming? {
      WithinKeepsHonesty(s, a);
    } else {
      StoppedQueueIsFrozen(s, a);
    }
  }

  /** A pump's step leaves the queue alone and can only make the stream quieter. */
  lemma PumpKeepsEnds(s: Pipe, r: Pipe)
    requires Ends(s) && r.stage == s.stage && r.hasSignal == s.hasSignal
    requires r.t.queue == s.t.queue && r.t.callerAborted == s.t.callerAborted
    requires (s.failed ==> r.failed) && (r.video.Reading? ==> s.video.Reading?)
    ensures Ends(r)
  {
  }

  lemma VideoArrivesKeepsEnds(s: Pipe, au: AccessUnit, now: real, fault: Option<Error>)
    requires Ends(s) && s.video.Reading?
    ensures Ends(VideoArrives(s, au, now, fault))
  {
    var f := s.(t := Feed(s.t, au, now));
    PumpKeepsEnds(s, f);
    if s.stopped {
      PumpKeepsEnds(s, AfterVideo(s));
    } else if FeedThrows(s.t, fault).Some? {
      PumpKeepsEnds(f, AfterVideo(RecordFailure(f, FeedThrows(s.t, fault).value)));
    }
  }

  lemma AudioArrivesKeepsEnds(s: Pipe, au: AccessUnit, now: real, fault: Option<Error>)
    requires Ends(s)
    ensures Ends(AudioArrives(s, au, now, fault))
  {
    var f := s.(t := FeedAudio(s.t, au, now));
    PumpKeepsEnds(s, f);
    if s.stopped || s.audioDone {
      PumpKeepsEnds(s, s.(audio := Over));
    } else if FeedAudioThrows(s.t, fault).Some? {
      PumpKeepsEnds(f, AudioFails(f, FeedAudioThrows(s.t, fault).value));
    }
  }

  /** Leaving on an honest answer is justified, and closing then drops nothing that was promised. */
  lemma LeavingIsJustified(t: Session, answer: Result<Unit>, aborted: bool, quiet: bool)
    requires SessionValid(t) && HonestAnswers(t.queue, aborted, quiet) && Enabled(t, DoResumeUnits(answer))
    ensures var q := Close(ResumeUnits(t, answer)).queue;
      && (answer.Done? ==> Justified(q, Drained, aborted, quiet))
      && (answer.Rejected? ==> Justified(q, Thrown(answer.error), aborted, quiet))
  {
  }

  lemma LeaveKeepsEnds(s: Pipe, exit: Exit)
    requires Justified(Close(s.t).queue, exit, s.Aborted(), Quiet(s))
    ensures Ends(LeaveLoop(s, exit))
  {
  }

  lemma UnitArrivesKeepsEnds(s: Pipe, answer: Result<Unit>)
    requires SessionValid(s.t) && Ends(s) && s.stage.Streaming? && Enabled(s.t, DoResumeUnits(answer))
    ensures Ends(UnitArrives(s, answer))
  {
    var r := s.(t := ResumeUnits(s.t, answer));
    LeavingIsJustified(s.t, answer, s.Aborted(), Quiet(s));
    match answer
    case Value(_) => PumpKeepsEnds(s, r);
    case Done => LeaveKeepsEnds(r, Drained);
    case Rejected(e) => LeaveKeepsEnds(r, Thrown(e));
  }

  lemma AfterCloseKeepsEnds(s: Pipe)
    requires PipeValid(s) && s.stage.Closing? && s.t.CloseSettled()
    ensures Ends(AfterClose(s))
  {
  }

  lemma VideoEndKeepsEnds(s: Pipe, e: Error)
    requires Ends(s)
    ensures var v := s.(exhausted := true, videoLog := s.videoLog + [Reported]);
      Ends(AfterVideo(v)) && Ends(AfterVideo(RecordFailure(v, e)))
  {
    var v := s.(exhausted := true, videoLog := s.videoLog + [Reported]);
    PumpKeepsEnds(s, AfterVideo(v));
    PumpKeepsEnds(s, AfterVideo(RecordFailure(v, e)));
  }

  lemma AudioEndKeepsEnds(s: Pipe, e: Error)
    requires Ends(s)
    ensures var a := s.(audioLog := s.audioLog + [Reported]);
      Ends(AudioFails(a, e)) && Ends(a.(audioDone := true, audio := Over))
  {
    var a := s.(audioLog := s.audioLog + [Reported]);
    PumpKeepsEnds(s, AudioFails(a, e));
    PumpKeepsEnds(s, a.(audioDone := true, audio := Over));
  }

  lemma VideoMoveKeepsEnds(s: Pipe, m: Move)
    requires PipeValid(s) && Possible(s, m) && VideoMove(m)
    ensures Ends(Make(s, m))
  {
    match m
    case VideoItem(au, now, fault) => VideoArrivesKeepsEnds(s, au, now, fault);
    case VideoEnds => VideoEndKeepsEnds(s, Falsy);
    case VideoThrows(e) => VideoEndKeepsEnds(s, e);
    case VideoFinishes => PumpKeepsEnds(s, s.(video := Over));
  }

  lemma AudioMoveKeepsEnds(s: Pipe, m: Move)
    requires PipeValid(s) && Possible(s, m) && AudioMove(m)
    ensures Ends(Make(s, m))
  {
    match m
    case AudioItem(au, now, fault) => AudioArrivesKeepsEnds(s, au, now, fault);
    case AudioEnds => AudioEndKeepsEnds(s, Falsy);
    case AudioThrows(e) => AudioEndKeepsEnds(s, e);
    case AudioFinishes => PumpKeepsEnds(s, s.(audio := Over));
  }

  lemma ConsumerMoveKeepsEnds(s: Pipe, m: Move)
    requires PipeValid(s) && Possible(s, m) && !VideoMove(m) && !AudioMove(m)
    ensures Ends(Make(s, m))
  {
    match m
    case Within(a) => WithinKeepsEnds(s, a);
    case UnitSettles(r) => UnitArrivesKeepsEnds(s, r);
    case ConsumerLeaves => LeaveKeepsEnds(s.(t := ReturnUnits(s.t)), Left);
    case CloseSettles => AfterCloseKeepsEnds(s);
    case PumpJoins =>
  }

  lemma MakeKeepsEnds(s: Pipe, m: Move)
    requires PipeValid(s)
    ensures Ends(Make(s, m))
  {
    if Possible(s, m) {
      if VideoMove(m) {
        VideoMoveKeepsEnds(s, m);
      } else if AudioMove(m) {
        AudioMoveKeepsEnds(s, m);
      } else {
        ConsumerMoveKeepsEnds(s, m);
      }
    }
  }

  // ---------------------------------------------------------------------------------------------
  // Every run
  // ---------------------------------------------------------------------------------------------

  lemma StartIsValid(t: Session, hasAudioSource: bool, hasSignal: bool)
    requires Unused(t)
    ensures PipeValid(Start(t, hasAudioSource, hasSignal))
  {
    var caller := if hasSignal then Some(0) else None;
    var d := DeriveSignal(t, caller);
    StartKeepsValid(t, caller);
    DeriveKeepsValid(t, caller);
    var s := Start(t, hasAudioSource, hasSignal);
    HonestNext(d.queue, d.signal, s.Aborted(), false);
  }

  lemma MakeKeepsPipe(s: Pipe, m: Move)
    requires PipeValid(s)
    ensures PipeValid(Make(s, m))
  {
    MakeKeepsSession(s, m);
    MakeKeepsControl(s, m);
    MakeKeepsSources(s, m);
    MakeKeepsFailures(s, m);
    MakeKeepsEnds(s, m);
  }

  lemma {:induction false} RunKeepsPipe(s: Pipe, moves: seq<Move>)
    requires PipeValid(s)
    ensures PipeValid(RunPipe(s, moves))
    decreases |moves|
  {
    if moves != [] {
      RunKeepsPipe(s, moves[..|moves| - 1]);
      MakeKeepsPipe(RunPipe(s, moves[..|moves| - 1]), moves[|moves| - 1]);
    }
  }

  /** A state of some run of the pipeline over some unused transcoder. */
  ghost predicate Reached(s: Pipe)
  {
    exists t: Session, hasAudioSource, hasSignal, moves ::
      Unused(t) && s == RunPipe(Start(t, hasAudioSource, hasSignal), moves)
  }

  lemma ReachedIsValid(s: Pipe)
    requires Reached(s)
    ensures PipeValid(s)
  {
    var t: Session, hasAudioSource, hasSignal, moves :|
      Unused(t) && s == RunPipe(Start(t, hasAudioSource, hasSignal), moves);
    StartIsValid(t, hasAudioSource, hasSignal);
    RunKeepsPipe(Start(t, hasAudioSource, hasSignal), moves);
  }

  /**
   * Release discipline: each source's `return()` is called at most once and never after the source has
   * reported its end; when the pipeline is done the video source has ended or been asked to, and the
   * audio source, if any, is done with.
   */
  lemma SourcesAreReleased(s: Pipe)
    requires Reached(s)
    ensures Disciplined(s.videoLog) && Disciplined(s.audioLog)
    ensures s.stage.Finished? ==> s.videoLog != [] && (s.hasAudioSource ==> s.audioDone)
  {
    ReachedIsValid(s);
  }

  /**
   * When the consumer reaches `await pump`, the video pump has left its read loop and needs at most
   * one more step of its own: an idle source is never awaited.
   */
  lemma JoinNeverAwaitsASource(s: Pipe)
    requires Reached(s) && s.stage.Joining?
    ensures !s.video.Reading?
    ensures s.video == Over || (Possible(s, VideoFinishes) && Make(s, VideoFinishes) == s.(video := Over))
    ensures Possible(s.(video := Over), PumpJoins)
  {
    ReachedIsValid(s);
  }

  /** Some continuation inside the program is ready to run. */
  ghost predicate Ready(s: Pipe)
  {
    || Possible(s, VideoFinishes) || Possible(s, AudioFinishes) || Possible(s, Within(DoResumeEnd))
    || Possible(s, CloseSettles) || Possible(s, PumpJoins)
    || exists answer :: Possible(s, UnitSettles(answer))
  }

  /** The consumer is parked on a stream that is still being fed. */
  predicate Live(s: Pipe)
  {
    && s.stage.Streaming? && s.t.queue.waiter.Some? && s.t.closing == Open
    && s.video.Reading? && !s.failed && !s.Aborted()
  }

  lemma ParkedOrSettled(s: Pipe)
    requires SessionValid(s.t) && s.stage.Streaming? && s.t.consumer.Awaiting? && !Ready(s)
    ensures s.t.queue.waiter.Some? && !s.t.queue.ended && s.t.signal !in s.t.queue.aborted
  {
    var p := s.t.consumer.promise;
    if SettledIn(s.t.queue.log, p) {
      var i :| 0 <= i < |s.t.queue.log| && s.t.queue.log[i].promise == p;
      assert s.t.queue.log[i] == Settlement(p, s.t.queue.log[i].result);
      assert Possible(s, UnitSettles(s.t.queue.log[i].result));
    }
  }

  /** The close promise, once made, is settled, about to be, or waits for the native side. */
  lemma CloseIsUnderWay(s: Pipe)
    requires CloseValid(s.t) && s.t.closing != Open
    ensures s.t.CloseSettled() || s.t.native.InFlight? || Possible(s, Within(DoResumeEnd))
  {
  }

  /** Done, or waiting for the caller, for the native close, or for a source that still feeds the stream. */
  predicate WaitsOutside(s: Pipe)
  {
    s.stage.Finished? || s.t.consumer.Suspended? || s.t.native.InFlight? || Live(s)
  }

  lemma ValidWaitsOutside(s: Pipe)
    requires PipeValid(s) && !Ready(s)
    ensures WaitsOutside(s)
  {
    if s.t.closing != Open { CloseIsUnderWay(s); }
    if s.stage.Streaming? && s.t.consumer.Awaiting? { ParkedOrSettled(s); }
  }

  /**
   * Deadlock freedom: when nothing inside the program can run, the pipeline is done, or it waits for
   * its caller, for the native close, or for a source that is still feeding the stream.
   */
  lemma WaitsOnlyForTheWorld(s: Pipe)
    requires Reached(s) && !Ready(s)
    ensures WaitsOutside(s)
  {
    ReachedIsValid(s);
    ValidWaitsOutside(s);
  }

  /** What a failed pump, if any, makes of a pipeline that was neither aborted nor left early. */
  function PumpVerdict(s: Pipe): Outcome
  {
    if s.failures != [] then Threw(s.failures[0]) else Completed
  }

  /** No native error, and nothing thrown away by an end or a failure; overflows are another matter. */
  predicate Unharmed(s: Pipe)
  {
    s.t.queue.error.None? && s.t.queue.discarded == []
  }

  /** What finishing comes to, by the way the consumer left its loop. */
  predicate OutcomeAt(s: Pipe, o: Outcome)
  {
    match s.stage
    case Closing(Left) => o == Returned
    case Closing(Thrown(e)) => s.t.queue.error == Some(e) && o == Threw(e)
    case Closing(Drained) => if s.Aborted() then o == Silent else o == PumpVerdict(s) && s.failed && Unharmed(s)
    case Joining => o == PumpVerdict(s) && Unharmed(s)
    case _ => false
  }

  lemma ClosingDetermines(s: Pipe)
    requires PipeValid(s) && s.stage.Closing? && s.t.native == Closed
    ensures var r := AfterClose(s); r.stage.Joining? || (r.stage.Finished? && OutcomeAt(s, r.stage.outcome))
  {
  }

  lemma JoiningDetermines(s: Pipe)
    requires Ends(s) && Failures(s) && s.stage.Joining?
    ensures OutcomeAt(s, if s.failed then Threw(s.pumpError) else Completed)
  {
  }

  lemma FinishingMoves(s: Pipe, m: Move)
    requires !s.stage.Finished? && Make(s, m).stage.Finished?
    ensures m.CloseSettles? ==> s.stage.Closing? && s.t.CloseSettled() && Make(s, m) == AfterClose(s)
    ensures !m.CloseSettles? ==>
      s.stage.Joining? && Make(s, m).stage == Finished(if s.failed then Threw(s.pumpError) else Completed)
  {
    OnlyTwoMovesFinish(s, m);
  }

  lemma FinishingDetermines(s: Pipe, m: Move)
    requires PipeValid(s) && !s.stage.Finished? && Make(s, m).stage.Finished? && s.t.native == Closed
    ensures OutcomeAt(s, Make(s, m).stage.outcome)
  {
    FinishingMoves(s, m);
    if m.CloseSettles? {
      ClosingDetermines(s);
    } else {
      JoiningDetermines(s);
    }
  }

  /**
   * The outcome, with the native close successful: on a rejection that very native error; on `done`
   * silence if the caller has aborted by then, and else the first recorded pump failure or completion,
   * with no native error and nothing thrown away by an end or a failure.
   */
  lemma OutcomeIsDetermined(s: Pipe, m: Move)
    requires Reached(s) && !s.stage.Finished? && Make(s, m).stage.Finished? && s.t.native == Closed
    ensures OutcomeAt(s, Make(s, m).stage.outcome)
  {
    ReachedIsValid(s);
    FinishingDetermines(s, m);
  }

  lemma VideoArrivesKeepsStage(s: Pipe, au: AccessUnit, now: real, fault: Option<Error>)
    ensures VideoArrives(s, au, now, fault).stage == s.stage
  {
  }

  lemma AudioArrivesKeepsStage(s: Pipe, au: AccessUnit, now: real, fault: Option<Error>)
    ensures AudioArrives(s, au, now, fault).stage == s.stage
  {
  }

  lemma UnitNeverFinishes(s: Pipe, answer: Result<Unit>)
    requires !s.stage.Finished?
    ensures !UnitArrives(s, answer).stage.Finished?
  {
    var r := s.(t := ResumeUnits(s.t, answer));
    match answer
    case Value(_) =>
    case Done => assert LeaveLoop(r, Drained).stage.Closing?;
    case Rejected(e) => assert LeaveLoop(r, Thrown(e)).stage.Closing?;
  }

  lemma OnlyTwoMovesFinish(s: Pipe, m: Move)
    requires !s.stage.Finished?
    ensures Make(s, m).stage.Finished? ==> m.CloseSettles? || m.PumpJoins?
  {
    match m
    case VideoItem(au, now, fault) => VideoArrivesKeepsStage(s, au, now, fault);
    case AudioItem(au, now, fault) => AudioArrivesKeepsStage(s, au, now, fault);
    case UnitSettles(r) => UnitNeverFinishes(s, r);
    case _ =>
  }

  lemma VideoEndsWhileLive(s: Pipe)
    requires PipeValid(s) && Live(s) && s.audio.Reading?
    ensures var r := Make(s, VideoEnds);
      && r.t == BeginEnd(s.t) && r.exhausted && r.videoLog == s.videoLog + [Reported]
      && r.stage == s.stage && !r.stopped && !r.failed && r.audio.Reading? && r.hasSignal == s.hasSignal
  {
    var v := s.(exhausted := true, videoLog := s.videoLog + [Reported]);
    assert Make(s, VideoEnds) == AfterVideo(v) && ReleaseSource(v) == v;
  }

  lemma AudioFailsAfterVideo(s: Pipe, e: Error)
    requires s.exhausted && !s.stopped && !s.failed && s.audio.Reading? && s.t.closing != Open
    ensures var r := Make(s, AudioThrows(e));
      && r.t == s.t && r.failed && r.pumpError == e && r.videoLog == s.videoLog
      && r.stage == s.stage && !r.stopped && r.hasSignal == s.hasSignal
  {
  }

  /** The video ends and then, while the drain is under way, the outstanding audio read fails. */
  lemma VideoEndsThenAudioFails(s: Pipe, e: Error)
    requires PipeValid(s) && Live(s) && s.audio.Reading?
    ensures var r := Make(Make(s, VideoEnds), AudioThrows(e));
      && r.t == BeginEnd(s.t) && r.failed && r.pumpError == e && r.videoLog == s.videoLog + [Reported]
      && r.stage.Streaming? && !r.stopped && !r.Aborted()
  {
    VideoEndsWhileLive(s);
    AudioFailsAfterVideo(Make(s, VideoEnds), e);
  }

  lemma EmptyDrainAnswersDone(q: State<Unit>)
    requires Valid(q) && q.waiter.Some?
    ensures Settlement(q.waiter.value.promise, Done) in EndStep(q, true).log
  {
  }

  lemma DrainAnswersDone(s: Pipe)
    requires SessionValid(s.t) && s.stage.Streaming? && s.t.queue.waiter.Some?
    requires s.t.closing == ByEnd(false) && s.t.native.InFlight?
    ensures var r := Make(Make(s, Within(DoSettle(None))), Within(DoResumeEnd));
      && r == s.(t := EndResumes(NativeSettles(s.t, None)))
      && Possible(r, UnitSettles(Done))
  {
    EmptyDrainAnswersDone(s.t.queue);
    assert Make(s, Within(DoSettle(None))) == s.(t := NativeSettles(s.t, None));
  }

  lemma DoneThenFailureIsThrown(s: Pipe)
    requires Possible(s, UnitSettles(Done)) && s.t.CloseSettled() && s.t.native == Closed && s.failed && !s.Aborted()
    ensures Make(Make(s, UnitSettles(Done)), CloseSettles).stage == Finished(Threw(s.pumpError))
  {
    var r := Make(s, UnitSettles(Done));
    assert r.stage == Closing(Drained) && r.t.CloseSettled() && r.t.native == Closed;
  }

  /**
   * An audio read that fails after the video has ended normally still fails the stream, as long as the
   * consumer has not finished: the comment above the audio pump promises otherwise.
   */
  lemma LateAudioFailureFailsTheStream(s: Pipe, e: Error)
    requires Reached(s) && Live(s) && s.audio.Reading?
    ensures var s1 := Make(Make(s, VideoEnds), AudioThrows(e));
      var s2 := Make(Make(s1, Within(DoSettle(None))), Within(DoResumeEnd));
      Make(Make(s2, UnitSettles(Done)), CloseSettles).stage == Finished(Threw(e))
  {
    ReachedIsValid(s);
    VideoEndsThenAudioFails(s, e);
    var s1 := Make(Make(s, VideoEnds), AudioThrows(e));
    BeginEndKeepsValid(s.t);
    DrainAnswersDone(s1);
    DoneThenFailureIsThrown(s1.(t := EndResumes(NativeSettles(s1.t, None))));
  }
}
