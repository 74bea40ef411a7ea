/**
 * `pipeThrough`: a video pump, an audio pump and a consumer over one transcoder, as a step relation.
 * One action is one synchronous segment; which pending `await` settles next, and how, is up to the
 * environment. The native side may call back at any time until its close settles.
 */
module Pipelines {
  import opened Sequences
  import opened UnitQueues
  import opened Transcoders

  /** A pump waits on its source, waits on `transcoder.end()`, or has returned. */
  datatype Pump = Reading | Finishing | Over

  /** How the consumer left the loop over `units()`. */
  datatype Exit = Drained | Thrown(error: Error) | Left

  datatype Outcome = Completed | Silent | Threw(error: Error) | Returned

  /** The consumer streams, awaits `transcoder.close()`, awaits the pump, or is done. */
  datatype Stage = Streaming | Closing(exit: Exit) | Joining | Finished(outcome: Outcome)

  /** What happens at a source: it reports its end (done or thrown), or it is asked to `return()`. */
  datatype SourceEvent = Reported | ReturnCalled

  datatype Pipe = Pipe(
    t: Session,
    video: Pump,
    audio: Pump,
    stage: Stage,
    stopped: bool,
    exhausted: bool,
    returned: bool,
    failed: bool,
    pumpError: Error,
    audioDone: bool,
    hasAudioSource: bool,
    hasSignal: bool,
    videoLog: seq<SourceEvent>,
    audioLog: seq<SourceEvent>,
    failures: seq<Error>)          // every failure reported to fail(), in order
  {
    predicate Aborted() { hasSignal && 0 in t.callerAborted }
  }

  /** A transcoder nobody has consumed or closed yet; its native side may already have been at work. */
  ghost predicate Unused(t: Session)
  {
    && SessionValid(t) && t.consumer == Idle && t.closing == Open && t.caller.None?
    && t.queue.log == []
    && (t.queue.ended ==> t.queue.error.Some?)
    && (t.queue.error.Some? ==> t.queue.error.value != Falsy)
    && (t.queue.error.None? ==> t.queue.discarded == [])
  }

  /** Both iterators are obtained, both reads are out, and the first unit is asked for. */
  function Start(t: Session, hasAudioSource: bool, hasSignal: bool): Pipe
  {
    Pipe(StartUnits(t, if hasSignal then Some(0) else None),
         Reading, if hasAudioSource then Reading else Over, Streaming,
         false, false, false, false, Falsy, false, hasAudioSource, hasSignal, [], [], [])
  }

  // ---------------------------------------------------------------------------------------------
  // The closures of pipeThrough
  // ---------------------------------------------------------------------------------------------

  /** A step that gives no answer: the queue, the consumer, the caller's signal and the stage stay. */
  predicate Answerless(s: Pipe, r: Pipe)
  {
    && r.t.queue == s.t.queue && r.t.consumer == s.t.consumer && r.t.callerAborted == s.t.callerAborted
    && r.hasSignal == s.hasSignal && r.stage == s.stage
  }

  /** A failure once recorded is kept, and so is the first one. */
  predicate KeepsFailure(s: Pipe, r: Pipe)
  {
    s.failed ==> r.failed && r.pumpError == s.pumpError
  }

  /** A step of the consumer leaves the pumps and what is known of the sources alone. */
  predicate KeepsPumps(s: Pipe, r: Pipe)
  {
    && r.video == s.video && r.exhausted == s.exhausted && r.returned == s.returned && r.videoLog == s.videoLog
    && r.audio == s.audio && r.audioDone == s.audioDone && r.hasAudioSource == s.hasAudioSource
    && r.audioLog == s.audioLog
    && r.failed == s.failed && r.failures == s.failures
  }

  function ReleaseSource(s: Pipe): Pipe
  {
    if !s.exhausted && !s.returned then s.(returned := true, videoLog := s.videoLog + [ReturnCalled]) else s
  }

  function ReleaseAudio(s: Pipe): Pipe
  {
    if s.hasAudioSource && !s.audioDone then s.(audioDone := true, audioLog := s.audioLog + [ReturnCalled]) else s
  }

  function RecordFailure(s: Pipe, e: Error): Pipe
  {
    s.(failures := s.failures + [e], failed := true, pumpError := if s.failed then s.pumpError else e)
  }

  /** What the video pump does once it has left its read loop. */
  function AfterVideo(s: Pipe): (r: Pipe)
    ensures Answerless(s, r) && KeepsFailure(s, r) && r.failures == s.failures
  {
    var r := ReleaseAudio(ReleaseSource(s));
    if s.stopped then r.(video := Over) else r.(video := Finishing, t := BeginEnd(s.t))
  }

  /** The catch clause of the audio pump. */
  function AudioFails(s: Pipe, e: Error): (r: Pipe)
    ensures Answerless(s, r) && KeepsFailure(s, r) && r.failures == s.failures + [e]
  {
    var r := ReleaseSource(RecordFailure(s.(audioDone := true), e));
    if s.stopped then r.(audio := Over) else r.(audio := Finishing, t := BeginEnd(s.t))
  }

  function LeaveLoop(s: Pipe, exit: Exit): (r: Pipe)
    ensures KeepsFailure(s, r) && KeepsPumps(s, r)
  {
    s.(stopped := true, t := Close(s.t), stage := Closing(exit))
  }

  /** The rejection of the close promise: `end()` wraps it, a direct native close does not. */
  function CloseRejection(t: Session): Error
    requires t.native.CloseFailed?
  {
    if t.closing.ByEnd? then WrapNativeError(t.native.error) else t.native.error
  }

  function AfterClose(s: Pipe): Pipe
    requires s.stage.Closing?
  {
    var r := ReleaseAudio(ReleaseSource(s));
    r.(stage :=
      if s.t.native.CloseFailed? then Finished(Threw(CloseRejection(s.t)))
      else match s.stage.exit
        case Thrown(e) => Finished(Threw(e))
        case Left => Finished(Returned)
        case Drained =>
          if s.Aborted() then Finished(Silent)
          else if s.failed then Finished(Threw(s.pumpError))
          else Joining)
  }

  // ---------------------------------------------------------------------------------------------
  // Actions
  // ---------------------------------------------------------------------------------------------

  datatype Move =
    | VideoItem(au: AccessUnit, now: real, fault: Option<Error>)
    | VideoEnds
    | VideoThrows(error: Error)
    | VideoFinishes
    | AudioItem(au: AccessUnit, now: real, fault: Option<Error>)
    | AudioEnds
    | AudioThrows(error: Error)
    | AudioFinishes
    | Within(action: Action)     // a step of the session alone: see OfSession
    | UnitSettles(answer: Result<Unit>)
    | ConsumerLeaves
    | CloseSettles
    | PumpJoins

  predicate VideoMove(m: Move) { m.VideoItem? || m.VideoEnds? || m.VideoThrows? || m.VideoFinishes? }
  predicate AudioMove(m: Move) { m.AudioItem? || m.AudioEnds? || m.AudioThrows? || m.AudioFinishes? }

  /**
   * The native side delivers a unit, fails, or settles its close; `end()` resumes; the caller's
   * signal aborts; the caller asks for the next unit.
   */
  predicate OfSession(s: Pipe, a: Action)
  {
    && Enabled(s.t, a)
    && match a
       case DoEmit(_) => true
       case DoError(_) => true
       case DoSettle(_) => true
       case DoResumeEnd => true
       case DoAbort(signal) => s.hasSignal && signal == 0
       case DoPull => s.stage.Streaming?
       case _ => false
  }

  predicate Possible(s: Pipe, m: Move)
  {
    match m
    case VideoItem(_, _, _) => s.video.Reading?
    case VideoEnds => s.video.Reading?
    case VideoThrows(_) => s.video.Reading?
    case VideoFinishes => s.video.Finishing? && s.t.CloseSettled()
    case AudioItem(_, _, _) => s.audio.Reading?
    case AudioEnds => s.audio.Reading?
    case AudioThrows(_) => s.audio.Reading?
    case AudioFinishes => s.audio.Finishing? && s.t.CloseSettled()
    case Within(a) => OfSession(s, a)
    case UnitSettles(r) => s.stage.Streaming? && Enabled(s.t, DoResumeUnits(r))
    case ConsumerLeaves => s.stage.Streaming? && s.t.consumer.Suspended?
    case CloseSettles => s.stage.Closing? && s.t.CloseSettled()
    case PumpJoins => s.stage.Joining? && s.video.Over?
  }

  function VideoArrives(s: Pipe, au: AccessUnit, now: real, fault: Option<Error>): (r: Pipe)
    ensures Answerless(s, r) && KeepsFailure(s, r)
  {
    if s.stopped then AfterVideo(s)
    else
      var thrown := FeedThrows(s.t, fault);
      var r := s.(t := Feed(s.t, au, now));
      if thrown.Some? then AfterVideo(RecordFailure(r, thrown.value)) else r
  }

  function AudioArrives(s: Pipe, au: AccessUnit, now: real, fault: Option<Error>): (r: Pipe)
    ensures Answerless(s, r) && KeepsFailure(s, r)
  {
    if s.stopped || s.audioDone then s.(audio := Over)
    else
      var thrown := FeedAudioThrows(s.t, fault);
      var r := s.(t := FeedAudio(s.t, au, now));
      if thrown.Some? then AudioFails(r, thrown.value) else r
  }

  function UnitArrives(s: Pipe, answer: Result<Unit>): (r: Pipe)
    ensures KeepsFailure(s, r) && KeepsPumps(s, r)
  {
    var r := s.(t := ResumeUnits(s.t, answer));
    match answer
    case Value(_) => r
    case Done => LeaveLoop(r, Drained)
    case Rejected(e) => LeaveLoop(r, Thrown(e))
  }

  /** A move that is not possible now does nothing, so that every sequence of moves is a run. */
  function Make(s: Pipe, m: Move): Pipe
  {
    if !Possible(s, m) then s
    else
      match m
      case VideoItem(au, now, fault) => VideoArrives(s, au, now, fault)
      case VideoEnds => AfterVideo(s.(exhausted := true, videoLog := s.videoLog + [Reported]))
      case VideoThrows(e) => AfterVideo(RecordFailure(s.(exhausted := true, videoLog := s.videoLog + [Reported]), e))
      case VideoFinishes => s.(video := Over)
      case AudioItem(au, now, fault) => AudioArrives(s, au, now, fault)
      case AudioEnds => s.(audioDone := true, audio := Over, audioLog := s.audioLog + [Reported])
      case AudioThrows(e) => AudioFails(s.(audioLog := s.audioLog + [Reported]), e)
      case AudioFinishes => s.(audio := Over)
      case Within(a) => s.(t := Act(s.t, a))
      case UnitSettles(r) => UnitArrives(s, r)
      case ConsumerLeaves => LeaveLoop(s.(t := ReturnUnits(s.t)), Left)
      case CloseSettles => AfterClose(s)
      case PumpJoins => s.(stage := Finished(if s.failed then Threw(s.pumpError) else Completed))
  }

  function RunPipe(s: Pipe, moves: seq<Move>): Pipe
  {
    if moves == [] then s else Make(RunPipe(s, moves[..|moves| - 1]), moves[|moves| - 1])
  }
}
