/**
 * What goes wrong in a run, read off what its sources and its native side do, and the outcome that
 * this makes. The flags and records of the pipeline itself are not asked.
 */
module Faults {
  import opened Sequences
  import opened UnitQueues
  import opened QueueRuns
  import opened Transcoders
  import opened TranscoderRuns
  import opened Pipelines
  import opened PipelineRuns
  import opened Streams
  import opened Outcomes
  import opened Deliveries

  /** What a native failure is reported as: itself, or an error object if it is none. */
  function ErrorObject(e: Error): Error
  {
    if e == Falsy then Error(0) else e
  }

  /** A source throws, or an item that it yields cannot be pushed. */
  function SourceFault(s: Pipe, m: Move): seq<Error>
  {
    if !Possible(s, m) then []
    else
      match m
      case VideoThrows(e) => [e]
      case AudioThrows(e) => [e]
      case VideoItem(_, _, fault) =>
        if !s.stopped && s.t.closing == Open && fault.Some? then [ErrorObject(fault.value)] else []
      case AudioItem(_, _, fault) =>
        if s.stopped || s.audioDone then []
        else if !s.t.config.hasAudio then [OPTION_ERROR]
        else if s.t.closing == Open && fault.Some? then [ErrorObject(fault.value)]
        else []
      case _ => []
  }

  function SourceFaults(s: Pipe, moves: seq<Move>): seq<Error>
  {
    if moves == [] then []
    else
      var init, m := moves[..|moves| - 1], moves[|moves| - 1];
      SourceFaults(s, init) + SourceFault(RunPipe(s, init), m)
  }

  lemma VideoItemRecords(s: Pipe, au: AccessUnit, now: real, fault: Option<Error>)
    requires s.video.Reading?
    ensures VideoArrives(s, au, now, fault).failures == s.failures + SourceFault(s, VideoItem(au, now, fault))
  {
    assert s.failures + [] == s.failures;
  }

  lemma AudioItemRecords(s: Pipe, au: AccessUnit, now: real, fault: Option<Error>)
    requires s.audio.Reading?
    ensures AudioArrives(s, au, now, fault).failures == s.failures + SourceFault(s, AudioItem(au, now, fault))
  {
    assert s.failures + [] == s.failures;
  }

  lemma ClosingRecordsNothing(s: Pipe)
    requires s.stage.Closing?
    ensures AfterClose(s).failures == s.failures
  {
    assert ReleaseSource(s).failures == s.failures;
  }

  lemma VideoRecords(s: Pipe, m: Move)
    requires Possible(s, m) && VideoMove(m)
    ensures Make(s, m).failures == s.failures + SourceFault(s, m)
  {
    assert s.failures + [] == s.failures;
    match m
    case VideoItem(au, now, fault) => VideoItemRecords(s, au, now, fault);
    case _ =>
  }

  lemma AudioRecords(s: Pipe, m: Move)
    requires Possible(s, m) && AudioMove(m)
    ensures Make(s, m).failures == s.failures + SourceFault(s, m)
  {
    assert s.failures + [] == s.failures;
    match m
    case AudioItem(au, now, fault) => AudioItemRecords(s, au, now, fault);
    case _ =>
  }

  lemma ConsumerRecordsNothing(s: Pipe, m: Move)
    requires Possible(s, m) && !VideoMove(m) && !AudioMove(m)
    ensures Make(s, m).failures == s.failures
  {
    match m
    case CloseSettles => ClosingRecordsNothing(s);
    case _ =>
  }

  /** What a move adds to the recorded failures. */
  lemma MoveRecords(s: Pipe, m: Move)
    ensures Make(s, m).failures == s.failures + SourceFault(s, m)
  {
    assert s.failures + [] == s.failures;
    if Possible(s, m) {
      if VideoMove(m) {
        VideoRecords(s, m);
      } else if AudioMove(m) {
        AudioRecords(s, m);
      } else {
        ConsumerRecordsNothing(s, m);
      }
    }
  }

  /** In every run, exactly the faults of the sources are recorded, in the order in which they happen. */
  lemma {:induction false} FaultsAreRecorded(s: Pipe, moves: seq<Move>)
    ensures RunPipe(s, moves).failures == s.failures + SourceFaults(s, moves)
    decreases |moves|
  {
    if moves == [] {
      assert s.failures + [] == s.failures;
    } else {
      var init, m := moves[..|moves| - 1], moves[|moves| - 1];
      FaultsAreRecorded(s, init);
      MoveRecords(RunPipe(s, init), m);
    }
  }

  // ---------------------------------------------------------------------------------------------
  // The native side
  // ---------------------------------------------------------------------------------------------

  /** The native side calls back with an error, or its close, made by `end()`, fails. */
  function NativeFault(s: Session, a: Action): Option<Error>
  {
    if !Enabled(s, a) then None
    else if a.DoError? then Some(ErrorObject(a.error))
    else if a.DoResumeEnd? && s.native.CloseFailed? then Some(ErrorObject(s.native.error))
    else None
  }

  /** The first such fault that comes before the queue has ended. */
  function FirstFault(s: Session, actions: seq<Action>): Option<Error>
  {
    if actions == [] then None
    else
      var init, a := actions[..|actions| - 1], actions[|actions| - 1];
      var t := RunSession(s, init);
      if FirstFault(s, init).Some? then FirstFault(s, init)
      else if t.queue.ended then None
      else NativeFault(t, a)
  }

  lemma PlainStepsKeepError(o: Options<Unit>, q: State<Unit>, u: Unit, signal: nat, drain: bool)
    requires Valid(q)
    ensures PushStep(o, q, u).error == q.error && NextStep(q, signal).error == q.error
    ensures AbortStep(q, signal).error == q.error && EndStep(q, drain).error == q.error
  {
    AbortEffect(q, signal);
  }

  lemma ClosingKeepsError(s: Session)
    requires SessionValid(s)
    ensures Close(s).queue.error == s.queue.error
  {
    AbortEffect(s.queue, s.signal);
  }

  lemma StartingKeepsError(s: Session, caller: Option<nat>)
    ensures StartUnits(s, caller).queue.error == s.queue.error
  {
  }

  lemma ActFails(s: Session, a: Action)
    requires SessionValid(s)
    ensures Act(s, a).queue.error == if s.queue.ended then s.queue.error else NativeFault(s, a)
  {
    if !Enabled(s, a) { return; }
    match a
    case DoEmit(n) => PlainStepsKeepError(QueueOptions(s.config), s.queue, Numbered(s, n), 0, false);
    case DoClose => ClosingKeepsError(s);
    case DoStart(caller) => StartingKeepsError(s, caller);
    case DoAbort(_) => AbortEffect(s.queue, s.signal);
    case DoError(_) =>
    case DoResumeEnd =>
    case DoPull =>
    case _ => QueueStays(s, a);
  }

  /** The error of the queue, in every run, is the first fault of the native side. */
  lemma {:induction false} QueueErrorIsFirstFault(c: Config, actions: seq<Action>)
    ensures RunSession(NewSession(c), actions).queue.error == FirstFault(NewSession(c), actions)
    decreases |actions|
  {
    if actions != [] {
      var init, a := actions[..|actions| - 1], actions[|actions| - 1];
      QueueErrorIsFirstFault(c, init);
      RunKeepsSession(c, init);
      ActFails(RunSession(NewSession(c), init), a);
    }
  }

  // ---------------------------------------------------------------------------------------------
  // How the consumer leaves
  // ---------------------------------------------------------------------------------------------

  /** The move that ends the loop over the units: it is told `done`, it is rejected, or it leaves of itself. */
  function ExitBy(s: Pipe, m: Move): Option<Exit>
  {
    if !Possible(s, m) then None
    else
      match m
      case UnitSettles(Done) => Some(Drained)
      case UnitSettles(Rejected(e)) => Some(Thrown(e))
      case ConsumerLeaves => Some(Left)
      case _ => None
  }

  /** The first such move of a run. */
  function FirstExit(s: Pipe, moves: seq<Move>): Option<Exit>
  {
    if moves == [] then None
    else
      var init, m := moves[..|moves| - 1], moves[|moves| - 1];
      if FirstExit(s, init).Some? then FirstExit(s, init) else ExitBy(RunPipe(s, init), m)
  }

  /** The caller had aborted when the awaited close settled. */
  predicate AbortedAtClose(s: Pipe, moves: seq<Move>)
  {
    moves != [] &&
    (AbortedAtClose(s, moves[..|moves| - 1])
     || (moves[|moves| - 1].CloseSettles? && Possible(RunPipe(s, moves[..|moves| - 1]), CloseSettles)
         && RunPipe(s, moves[..|moves| - 1]).Aborted()))
  }

  /** Where the consumer stands, by the move with which it left and the abort, if any, at the close. */
  predicate StandsAt(s: Pipe, exit: Option<Exit>, aborted: bool)
  {
    && (s.stage.Streaming? <==> exit.None?)
    && (s.stage.Closing? ==> exit == Some(s.stage.exit))
    && (s.stage.Joining? ==> exit == Some(Drained))
    && (aborted ==> s.stage.Finished?)
  }

  lemma StageStays(s: Pipe, m: Move)
    requires Possible(s, m) && (VideoMove(m) || AudioMove(m) || m.Within?)
    ensures Make(s, m).stage == s.stage
  {
    match m
    case VideoItem(au, now, fault) => VideoArrivesKeepsStage(s, au, now, fault);
    case AudioItem(au, now, fault) => AudioArrivesKeepsStage(s, au, now, fault);
    case _ =>
  }

  lemma ClosingStage(s: Pipe)
    requires s.stage.Closing? && s.t.CloseSettled()
    ensures var r := AfterClose(s);
      r.stage.Finished? || (r.stage.Joining? && s.stage.exit.Drained? && !s.Aborted())
  {
  }

  lemma MoveLeaves(s: Pipe, m: Move, exit: Option<Exit>, aborted: bool)
    requires StandsAt(s, exit, aborted)
    ensures StandsAt(Make(s, m), if exit.Some? then exit else ExitBy(s, m),
                  aborted || (m.CloseSettles? && Possible(s, m) && s.Aborted()))
  {
    if !Possible(s, m) { return; }
    match m
    case UnitSettles(answer) => AfterAnswer(s, answer);
    case ConsumerLeaves =>
    case CloseSettles => ClosingStage(s);
    case PumpJoins =>
    case _ => StageStays(s, m);
  }

  /** In every run the stage is that of the consumer's own first exit. */
  lemma {:induction false} RunLeaves(s: Pipe, moves: seq<Move>)
    requires s.stage.Streaming?
    ensures StandsAt(RunPipe(s, moves), FirstExit(s, moves), AbortedAtClose(s, moves))
    decreases |moves|
  {
    if moves != [] {
      var init, m := moves[..|moves| - 1], moves[|moves| - 1];
      RunLeaves(s, init);
      MoveLeaves(RunPipe(s, init), m, FirstExit(s, init), AbortedAtClose(s, init));
    }
  }

  // ---------------------------------------------------------------------------------------------
  // The outcome
  // ---------------------------------------------------------------------------------------------

  /** A stream that ended in order: the first fault of a source, if any, is thrown. */
  predicate EndsWith(o: Outcome, faults: seq<Error>)
  {
    o == if faults == [] then Completed else Threw(faults[0])
  }

  /** What has happened in a run: the consumer's exit, the faults, and an abort at or before the close. */
  datatype History = History(exit: Option<Exit>, sources: seq<Error>, native: Option<Error>, abortedAtClose: bool)

  /**
   * The outcome `o` of a pipeline that finishes in state `r` after such a history: with the close it
   * awaited, or with the pump it awaited after the close (`joined`).
   */
  predicate OutcomeByHistory(r: Pipe, h: History, joined: bool, o: Outcome)
  {
    match r.t.native
    case CloseFailed(e) => o == Threw(if r.t.closing.ByEnd? then ErrorObject(e) else e)
    case Closed =>
      (match h.exit
       case Some(Left) => o == Returned
       case Some(Thrown(e)) => h.native == Some(e) && o == Threw(e)
       case Some(Drained) =>
         if !joined && r.Aborted() then o == Silent
         else !h.abortedAtClose && h.native.None? && (!joined ==> h.sources != []) && EndsWith(o, h.sources)
       case None => false)
    case _ => false
  }

  lemma FailedCloseFinishes(s: Pipe)
    requires CloseValid(s.t) && s.stage.Closing? && s.t.CloseSettled() && s.t.native != Closed
    ensures s.t.native.CloseFailed?
    ensures AfterClose(s).stage
      == Finished(Threw(if s.t.closing.ByEnd? then ErrorObject(s.t.native.error) else s.t.native.error))
  {
  }

  lemma CloseFailureIsThrown(s: Pipe, m: Move)
    requires Base(s) && CloseValid(s.t)
    requires !s.stage.Finished? && Make(s, m).stage.Finished? && s.t.native != Closed
    ensures s.t.native.CloseFailed?
    ensures Make(s, m).stage.outcome
      == Threw(if s.t.closing.ByEnd? then ErrorObject(s.t.native.error) else s.t.native.error)
  {
    FinishingMoves(s, m);
    JoiningIsClosed(s);
    FailedCloseFinishes(s);
  }

  lemma JoiningIsClosed(s: Pipe)
    requires Base(s) && s.t.native != Closed
    ensures !s.stage.Joining?
  {
  }

  lemma RecordedOutcome(s: Pipe, h: History, o: Outcome)
    requires PipeValid(s) && s.failures == h.sources && s.t.queue.error == h.native
    requires StandsAt(s, h.exit, h.abortedAtClose) && !s.stage.Finished?
    requires s.t.native == Closed && OutcomeAt(s, o)
    ensures OutcomeByHistory(s, h, s.stage.Joining?, o)
  {
  }

  /** How a state finishes whose records are those of the history. */
  lemma FinishingOutcome(s: Pipe, m: Move, h: History)
    requires PipeValid(s) && s.failures == h.sources && s.t.queue.error == h.native
    requires StandsAt(s, h.exit, h.abortedAtClose)
    requires !s.stage.Finished? && Make(s, m).stage.Finished?
    ensures OutcomeByHistory(s, h, m.PumpJoins?, Make(s, m).stage.outcome)
  {
    FinishingMoves(s, m);
    OnlyTwoMovesFinish(s, m);
    if s.t.native == Closed {
      FinishingDetermines(s, m);
      RecordedOutcome(s, h, Make(s, m).stage.outcome);
    } else {
      CloseFailureIsThrown(s, m);
    }
  }

  lemma StartedRecords(t: Session, hasAudioSource: bool, hasSignal: bool, moves: seq<Move>)
    ensures var p := Start(t, hasAudioSource, hasSignal); RunPipe(p, moves).failures == SourceFaults(p, moves)
  {
    var p := Start(t, hasAudioSource, hasSignal);
    FaultsAreRecorded(p, moves);
    assert p.failures == [] && [] + SourceFaults(p, moves) == SourceFaults(p, moves);
  }

  /** The records of a run are those of its faults. */
  lemma RecordsOfRun(c: Config, before: seq<Action>, hasAudioSource: bool, hasSignal: bool, moves: seq<Move>)
    requires Unused(RunSession(NewSession(c), before))
    ensures var p := Start(RunSession(NewSession(c), before), hasAudioSource, hasSignal);
      var r := RunPipe(p, moves);
      && PipeValid(r) && r.failures == SourceFaults(p, moves)
      && r.t.queue.error == FirstFault(NewSession(c), Story(c, before, hasAudioSource, hasSignal, moves))
  {
    StateOfRun(c, before, hasAudioSource, hasSignal, moves);
    QueueErrorIsFirstFault(c, Story(c, before, hasAudioSource, hasSignal, moves));
    StartedRecords(RunSession(NewSession(c), before), hasAudioSource, hasSignal, moves);
  }

  /** The history of a run, from its moves. */
  function HistoryOf(
    c: Config, before: seq<Action>, hasAudioSource: bool, hasSignal: bool, moves: seq<Move>): History
  {
    var p := Start(RunSession(NewSession(c), before), hasAudioSource, hasSignal);
    History(FirstExit(p, moves), SourceFaults(p, moves),
            FirstFault(NewSession(c), Story(c, before, hasAudioSource, hasSignal, moves)), AbortedAtClose(p, moves))
  }

  lemma StateOfHistory(c: Config, before: seq<Action>, hasAudioSource: bool, hasSignal: bool, moves: seq<Move>)
    requires Unused(RunSession(NewSession(c), before))
    ensures var r := RunPipe(Start(RunSession(NewSession(c), before), hasAudioSource, hasSignal), moves);
      var h := HistoryOf(c, before, hasAudioSource, hasSignal, moves);
      PipeValid(r) && r.failures == h.sources && r.t.queue.error == h.native && StandsAt(r, h.exit, h.abortedAtClose)
  {
    RecordsOfRun(c, before, hasAudioSource, hasSignal, moves);
    RunLeaves(Start(RunSession(NewSession(c), before), hasAudioSource, hasSignal), moves);
  }

  /**
   * How every run ends that ends: a failed close is thrown; else, if the consumer left of itself, that
   * is all; if it was rejected, that is the first fault of the native side, and is thrown; if it was
   * told `done`, silence if the caller has aborted by the close, and else the first fault of a source,
   * be it thrown by the source or by a push, or completion if there was none.
   */
  lemma OutcomeIsThatOfTheRun(
    c: Config, before: seq<Action>, hasAudioSource: bool, hasSignal: bool, moves: seq<Move>, m: Move)
    requires Unused(RunSession(NewSession(c), before))
    ensures var p := Start(RunSession(NewSession(c), before), hasAudioSource, hasSignal);
      var r := RunPipe(p, moves);
      !r.stage.Finished? && Make(r, m).stage.Finished? ==>
        OutcomeByHistory(r, HistoryOf(c, before, hasAudioSource, hasSignal, moves), m.PumpJoins?,
                         Make(r, m).stage.outcome)
  {
    var r := RunPipe(Start(RunSession(NewSession(c), before), hasAudioSource, hasSignal), moves);
    StateOfHistory(c, before, hasAudioSource, hasSignal, moves);
    if !r.stage.Finished? && Make(r, m).stage.Finished? {
      FinishingOutcome(r, m, HistoryOf(c, before, hasAudioSource, hasSignal, moves));
    }
  }

  // ---------------------------------------------------------------------------------------------
  // A failure of the video
  // ---------------------------------------------------------------------------------------------

  lemma VideoFailureRecorded(s: Pipe, e: Error)
    requires s.video.Reading?
    ensures var r := Make(s, VideoThrows(e));
      r.failed && r.pumpError == (if s.failed then s.pumpError else e) && r.stage == s.stage
  {
    var v := s.(exhausted := true, videoLog := s.videoLog + [Reported]);
    assert Make(s, VideoThrows(e)) == AfterVideo(RecordFailure(v, e));
  }

  /**
   * A video source that fails, at any time before it has ended, and every way the pipeline can then
   * settle: it throws that failure, or the one that came before it. It never completes.
   */
  lemma {:induction false} VideoFailureExactly(s: Pipe, e: Error, moves: seq<Move>)
    requires Reached(s) && s.video.Reading?
    requires Settled(RunPipe(Make(s, VideoThrows(e)), moves))
    ensures RunPipe(Make(s, VideoThrows(e)), moves).stage.outcome == Threw(if s.failed then s.pumpError else e)
  {
    var s1 := Make(s, VideoThrows(e));
    ReachedIsWellSettled(s);
    MakeKeepsPipe(s, VideoThrows(e));
    VideoFailureRecorded(s, e);
    if s.stage.Finished? {
      FinishedStays(s, VideoThrows(e));
      FinishedKeepsClose(s1, moves);
    } else {
      RunKeepsDoomed(s1, moves, if s.failed then s.pumpError else e);
    }
  }
}
