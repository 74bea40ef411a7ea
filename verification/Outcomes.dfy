/**
 * What decides the outcome of the pipeline where two causes meet: an abort and a native error, the
 * end of the video and a failure of the audio; and that it gets to an outcome at all.
 */
module Outcomes {
  import opened Sequences
  import opened UnitQueues
  import opened QueueRuns
  import opened Transcoders
  import opened Pipelines
  import opened PipelineRuns
  import opened Streams

  // ---------------------------------------------------------------------------------------------
  // An abort and a native error
  // ---------------------------------------------------------------------------------------------

  /** An answer is given. */
  predicate Grown(q: State<Unit>, t: State<Unit>) { |t.log| > |q.log| }

  /** Whether the caller had aborted when the latest answer was given to the consumer. */
  function AbortedAtAnswer(s: Pipe, moves: seq<Move>): bool
  {
    if moves == [] then s.Aborted()
    else
      var before, after := RunPipe(s, moves[..|moves| - 1]), RunPipe(s, moves);
      if Grown(before.t.queue, after.t.queue) then after.Aborted()
      else AbortedAtAnswer(s, moves[..|moves| - 1])
  }

  /** The latest answer. */
  function Latest(s: Pipe): Option<Result<Unit>>
  {
    var log := s.t.queue.log;
    if log == [] then None else Some(log[|log| - 1].result)
  }

  /** What the latest answer tells of the time it was given, and that the consumer left on it. */
  ghost predicate AnswerExplained(s: Pipe, aborted: bool)
  {
    && (Latest(s) == Some(Done) ==> aborted || (s.t.queue.ended && s.t.queue.error.None?))
    && (Latest(s).Some? && Latest(s).value.Rejected? ==> !aborted)
    && (s.stage == Closing(Drained) ==> Latest(s) == Some(Done))
    && (s.stage.Closing? && s.stage.exit.Thrown? ==> Latest(s) == Some(Rejected(s.stage.exit.error)))
  }

  /** The queue's end and error, once there, stay; nothing is ever taken out of its log. */
  predicate Onward(q: State<Unit>, t: State<Unit>)
  {
    && (q.ended ==> t.ended && t.error == q.error)
    && q.log <= t.log
  }

  lemma StepIsOnward(o: Options<Unit>, q: State<Unit>, e: QueueRuns.Event<Unit>)
    requires Valid(q) && (e.Next? ==> q.waiter.None?)
    ensures Onward(q, QueueRuns.Step(o, q, e))
  {
    LogGrows(o, q, e);
    if q.ended {
      EndedEffect(o, q, e);
    }
  }

  /** A rejection is given only under a signal that has not fired. */
  lemma RejectedUnderLiveSignal(o: Options<Unit>, q: State<Unit>, e: QueueRuns.Event<Unit>)
    requires Valid(q) && (e.Next? ==> q.waiter.None?)
    ensures var t := QueueRuns.Step(o, q, e);
      |t.log| > |q.log| && t.log[|t.log| - 1].result.Rejected? ==>
        && !e.Abort? && t.aborted == q.aborted
        && (if e.Next? then e.signal else q.waiter.value.signal) !in q.aborted
  {
    LogGrows(o, q, e);
    if e.Abort? {
      AbortEffect(q, e.signal);
    }
  }

  lemma ResumedEndIsOnward(t: Session)
    requires SessionValid(t)
    ensures Onward(t.queue, EndResumes(t).queue)
  {
    var o := QueueOptions(t.config);
    if t.native.CloseFailed? {
      StepIsOnward(o, t.queue, QueueRuns.Fail(WrapNativeError(t.native.error)));
    } else {
      StepIsOnward(o, t.queue, QueueRuns.End(true));
    }
  }

  lemma OfSessionIsOnward(s: Pipe, a: Action)
    requires SessionValid(s.t) && OfSession(s, a)
    ensures Onward(s.t.queue, Act(s.t, a).queue)
  {
    var o, q := QueueOptions(s.t.config), s.t.queue;
    match a
    case DoEmit(n) => StepIsOnward(o, q, QueueRuns.Push(Numbered(s.t, n)));
    case DoError(e) => StepIsOnward(o, q, QueueRuns.Fail(WrapNativeError(e)));
    case DoResumeEnd => ResumedEndIsOnward(s.t);
    case DoAbort(_) => StepIsOnward(o, q, QueueRuns.Abort(s.t.signal));
    case DoPull => StepIsOnward(o, q, QueueRuns.Next(s.t.signal));
    case DoSettle(_) =>
  }

  /** While streaming, the caller has not aborted if the signal in use has not fired. */
  lemma LiveSignal(s: Pipe)
    requires ConsumerValid(s.t) && Base(s) && s.t.signal !in s.t.queue.aborted
    ensures !s.Aborted()
  {
  }

  /** The same for a step of the session that is neither a request nor an abort. */
  lemma StepUnaborted(s: Pipe, e: QueueRuns.Event<Unit>)
    requires PipeValid(s) && s.stage.Streaming?
    requires e.Push? || e.Fail? || e.End?
    ensures var t := QueueRuns.Step(QueueOptions(s.t.config), s.t.queue, e);
      Grown(s.t.queue, t) && t.log[|t.log| - 1].result.Rejected? ==> !s.Aborted()
  {
    RejectedUnderLiveSignal(QueueOptions(s.t.config), s.t.queue, e);
    if s.t.signal !in s.t.queue.aborted {
      LiveSignal(s);
    }
  }

  lemma PullUnaborted(s: Pipe)
    requires PipeValid(s) && s.stage.Streaming? && s.t.consumer.Suspended?
    ensures var t := NextStep(s.t.queue, s.t.signal);
      Grown(s.t.queue, t) && t.log[|t.log| - 1].result.Rejected? ==> !s.Aborted()
  {
    if s.t.signal !in s.t.queue.aborted {
      LiveSignal(s);
    }
  }

  lemma ResumedEndUnaborted(s: Pipe)
    requires PipeValid(s) && s.stage.Streaming?
    ensures var t := EndResumes(s.t).queue;
      Grown(s.t.queue, t) && t.log[|t.log| - 1].result.Rejected? ==> !s.Aborted()
  {
    if s.t.native.CloseFailed? {
      StepUnaborted(s, QueueRuns.Fail(WrapNativeError(s.t.native.error)));
    } else {
      StepUnaborted(s, QueueRuns.End(true));
    }
  }

  lemma AbortRejectsNothing(s: Pipe, signal: nat)
    requires PipeValid(s) && OfSession(s, DoAbort(signal))
    ensures var t := CallerAborts(s.t, signal).queue;
      Grown(s.t.queue, t) ==> !t.log[|t.log| - 1].result.Rejected?
  {
    AbortEffect(s.t.queue, s.t.signal);
  }

  /** A rejection is given only while the caller has not aborted. */
  lemma RejectedUnaborted(s: Pipe, a: Action)
    requires PipeValid(s) && s.stage.Streaming? && OfSession(s, a)
    ensures var r := s.(t := Act(s.t, a));
      Grown(s.t.queue, r.t.queue) && Latest(r).value.Rejected? ==> !r.Aborted()
  {
    match a
    case DoEmit(n) => StepUnaborted(s, QueueRuns.Push(Numbered(s.t, n)));
    case DoError(e) => StepUnaborted(s, QueueRuns.Fail(WrapNativeError(e)));
    case DoResumeEnd => ResumedEndUnaborted(s);
    case DoAbort(signal) => AbortRejectsNothing(s, signal);
    case DoPull => PullUnaborted(s);
    case DoSettle(_) =>
  }

  lemma StreamingExplains(s: Pipe, a: Action, aborted: bool)
    requires PipeValid(s) && s.stage.Streaming? && OfSession(s, a) && AnswerExplained(s, aborted)
    ensures var r := s.(t := Act(s.t, a));
      AnswerExplained(r, if Grown(s.t.queue, r.t.queue) then r.Aborted() else aborted)
  {
    var r := s.(t := Act(s.t, a));
    OfSessionIsOnward(s, a);
    if Grown(s.t.queue, r.t.queue) {
      RejectedUnaborted(s, a);
      WithinKeepsHonesty(s, a);
      assert r.t.queue.log[|r.t.queue.log| - 1] in r.t.queue.log;
    }
  }

  /** Nobody asks and nobody is parked once the consumer has left: no more answers. */
  lemma LeftExplains(s: Pipe, a: Action, aborted: bool)
    requires PipeValid(s) && !s.stage.Streaming? && OfSession(s, a) && AnswerExplained(s, aborted)
    ensures var r := s.(t := Act(s.t, a));
      !Grown(s.t.queue, r.t.queue) && AnswerExplained(r, aborted)
  {
    var o, q := QueueOptions(s.t.config), s.t.queue;
    OfSessionIsOnward(s, a);
    match a
    case DoEmit(n) => LogGrows(o, q, QueueRuns.Push(Numbered(s.t, n)));
    case DoError(e) => LogGrows(o, q, QueueRuns.Fail(WrapNativeError(e)));
    case DoResumeEnd =>
      EndGrows(q, WrapNativeError(if s.t.native.CloseFailed? then s.t.native.error else Falsy), true);
    case DoAbort(_) => LogGrows(o, q, QueueRuns.Abort(s.t.signal));
    case DoSettle(_) =>
  }

  /** The pumps, and the end of the pipeline, give no answer. */
  lemma PumpsAreAnswerless(s: Pipe, m: Move)
    requires Possible(s, m) && !m.Within? && !m.UnitSettles? && !m.ConsumerLeaves?
    ensures var r := Make(s, m);
      && Answerless(s, r.(stage := s.stage))
      && (r.stage == s.stage || r.stage.Joining? || r.stage.Finished?)
  {
    match m
    case CloseSettles => assert AfterClose(s).t == s.t;
    case _ =>
  }

  lemma AnswerIsLatest(t: Session, answer: Result<Unit>, ys: seq<Unit>)
    requires SessionValid(t) && Handed(t, ys) && Enabled(t, DoResumeUnits(answer))
    ensures t.queue.log != [] && t.queue.log[|t.queue.log| - 1].result == answer
    ensures t.queue.waiter.None?
  {
    var l, p := t.queue.log, t.consumer.promise;
    var i :| 0 <= i < |l| && l[i] == Settlement(p, answer);
    assert SettledIn(l, p);
    assert l[|l| - 1].promise == l[i].promise;
    assert !Parked(t.queue, l[i].promise);
  }

  lemma CloseAnswersNobody(t: Session)
    requires SessionValid(t) && t.queue.waiter.None?
    ensures var q := Close(t).queue;
      && q.log == t.queue.log && q.error == t.queue.error && q.ended
      && Close(t).callerAborted == t.callerAborted
  {
    AbortEffect(t.queue, t.signal);
  }

  /** The consumer leaves on the latest answer. */
  lemma ExitExplains(s: Pipe, exit: Exit, aborted: bool)
    requires SessionValid(s.t) && s.t.queue.waiter.None? && AnswerExplained(s, aborted)
    requires exit == Drained ==> Latest(s) == Some(Done)
    requires exit.Thrown? ==> Latest(s) == Some(Rejected(exit.error))
    ensures var r := LeaveLoop(s, exit);
      !Grown(s.t.queue, r.t.queue) && AnswerExplained(r, aborted)
  {
    CloseAnswersNobody(s.t);
  }

  lemma ResumingExplains(s: Pipe, answer: Result<Unit>, ys: seq<Unit>, aborted: bool)
    requires PipeValid(s) && Possible(s, UnitSettles(answer)) && Handed(s.t, ys) && AnswerExplained(s, aborted)
    ensures var r := UnitArrives(s, answer);
      !Grown(s.t.queue, r.t.queue) && AnswerExplained(r, aborted)
  {
    var r := s.(t := ResumeUnits(s.t, answer));
    AnswerIsLatest(s.t, answer, ys);
    ResumeKeepsValid(s.t, answer);
    assert Latest(r) == Some(answer) && AnswerExplained(r, aborted);
    match answer
    case Value(_) =>
    case Done => ExitExplains(r, Drained, aborted);
    case Rejected(e) => ExitExplains(r, Thrown(e), aborted);
  }

  lemma LeavingExplains(s: Pipe, aborted: bool)
    requires PipeValid(s) && Possible(s, ConsumerLeaves) && AnswerExplained(s, aborted)
    ensures var r := Make(s, ConsumerLeaves);
      !Grown(s.t.queue, r.t.queue) && AnswerExplained(r, aborted)
  {
    ReturnKeepsValid(s.t);
    ExitExplains(s.(t := ReturnUnits(s.t)), Left, aborted);
  }

  lemma AnswerlessExplains(s: Pipe, r: Pipe, aborted: bool)
    requires AnswerExplained(s, aborted) && r.t.queue == s.t.queue
    requires r.stage == s.stage || r.stage.Joining? || r.stage.Finished?
    ensures !Grown(s.t.queue, r.t.queue) && AnswerExplained(r, aborted)
  {
  }

  lemma WithinExplains(s: Pipe, a: Action, aborted: bool)
    requires PipeValid(s) && OfSession(s, a) && AnswerExplained(s, aborted)
    ensures var r := s.(t := Act(s.t, a));
      AnswerExplained(r, if Grown(s.t.queue, r.t.queue) then r.Aborted() else aborted)
  {
    if s.stage.Streaming? {
      StreamingExplains(s, a, aborted);
    } else {
      LeftExplains(s, a, aborted);
    }
  }

  lemma PumpMoveExplains(s: Pipe, m: Move, aborted: bool)
    requires AnswerExplained(s, aborted) && Possible(s, m)
    requires !m.Within? && !m.UnitSettles? && !m.ConsumerLeaves?
    ensures !Grown(s.t.queue, Make(s, m).t.queue) && AnswerExplained(Make(s, m), aborted)
  {
    PumpsAreAnswerless(s, m);
    AnswerlessExplains(s, Make(s, m), aborted);
  }

  lemma MoveExplains(s: Pipe, m: Move, ys: seq<Unit>, aborted: bool)
    requires PipeValid(s) && Handed(s.t, ys) && AnswerExplained(s, aborted) && Possible(s, m)
    ensures var r := Make(s, m);
      AnswerExplained(r, if Grown(s.t.queue, r.t.queue) then r.Aborted() else aborted)
  {
    if m.Within? {
      WithinExplains(s, m.action, aborted);
    } else if m.UnitSettles? {
      ResumingExplains(s, m.answer, ys, aborted);
    } else if m.ConsumerLeaves? {
      LeavingExplains(s, aborted);
    } else {
      PumpMoveExplains(s, m, aborted);
    }
  }

  /** The first request may be answered at once. */
  lemma StartExplains(t: Session, hasAudioSource: bool, hasSignal: bool)
    requires Unused(t)
    ensures var p := Start(t, hasAudioSource, hasSignal); AnswerExplained(p, p.Aborted())
  {
    var d := DeriveSignal(t, if hasSignal then Some(0) else None);
    assert d.queue.log == [] && d.queue == t.queue.(aborted := d.queue.aborted);
    DeriveKeepsValid(t, if hasSignal then Some(0) else None);
  }

  lemma {:induction false} RunExplains(
    c: Config, before: seq<Action>, hasAudioSource: bool, hasSignal: bool, moves: seq<Move>)
    requires Unused(RunSession(NewSession(c), before))
    ensures var p := Start(RunSession(NewSession(c), before), hasAudioSource, hasSignal);
      AnswerExplained(RunPipe(p, moves), AbortedAtAnswer(p, moves))
    decreases |moves|
  {
    var t := RunSession(NewSession(c), before);
    var p := Start(t, hasAudioSource, hasSignal);
    if moves == [] {
      StartExplains(t, hasAudioSource, hasSignal);
    } else {
      var init, m := moves[..|moves| - 1], moves[|moves| - 1];
      RunExplains(c, before, hasAudioSource, hasSignal, init);
      StartIsValid(t, hasAudioSource, hasSignal);
      RunKeepsPipe(p, init);
      ConsumersGetTheStream(c, before);
      StoryRuns(c, before, hasAudioSource, hasSignal, init);
      RunHands(c, Story(c, before, hasAudioSource, hasSignal, init));
      if Possible(RunPipe(p, init), m) {
        MoveExplains(RunPipe(p, init), m, PipeYields(p, init), AbortedAtAnswer(p, init));
      }
    }
  }

  /**
   * The consumer has left its loop over a queue that failed: the pipeline ends in silence if and only
   * if `aborted`, and else it throws the native error.
   */
  predicate SilencedIff(r: Pipe, aborted: bool)
  {
    r.stage.Closing? && r.stage != Closing(Left) && r.t.queue.error.Some? ==>
      && (r.stage == Closing(Drained) <==> aborted)
      && (r.t.native == Closed ==>
            AfterClose(r).stage == Finished(if aborted then Silent else Threw(r.t.queue.error.value)))
  }

  lemma AnswerDecides(r: Pipe, aborted: bool)
    requires PipeValid(r) && AnswerExplained(r, aborted)
    ensures SilencedIff(r, aborted)
  {
  }

  /**
   * A native error and an abort: what counts is whether the caller had aborted when the last answer
   * was given, not whether it has aborted since.
   */
  lemma {:induction false} AbortDecidesByTheAnswer(
    c: Config, before: seq<Action>, hasAudioSource: bool, hasSignal: bool, moves: seq<Move>)
    requires Unused(RunSession(NewSession(c), before))
    ensures var p := Start(RunSession(NewSession(c), before), hasAudioSource, hasSignal);
      SilencedIff(RunPipe(p, moves), AbortedAtAnswer(p, moves))
  {
    var p := Start(RunSession(NewSession(c), before), hasAudioSource, hasSignal);
    StartIsValid(RunSession(NewSession(c), before), hasAudioSource, hasSignal);
    RunKeepsPipe(p, moves);
    RunExplains(c, before, hasAudioSource, hasSignal, moves);
    AnswerDecides(RunPipe(p, moves), AbortedAtAnswer(p, moves));
  }

  lemma FailThenAbort(q: State<Unit>, e: Error, signal: nat)
    requires Valid(q) && !q.ended && q.waiter.None? && signal !in q.aborted
    ensures var t := NextStep(AbortStep(FailStep(q, e), signal), signal);
      && t.error == Some(e) && t.log == q.log + [Settlement(q.issued, Done)]
      && Valid(FailStep(q, e)) && AbortStep(FailStep(q, e), signal).issued == q.issued
  {
    FailKeepsValid(q, e);
    AbortEffect(FailStep(q, e), signal);
  }

  lemma SignalIsLive(s: Pipe)
    requires SessionValid(s.t) && Base(s) && s.stage.Streaming? && !s.Aborted()
    ensures s.t.signal !in s.t.queue.aborted
    ensures s.hasSignal ==> s.t.caller == Some(0)
  {
  }

  /** The queue fails, the caller aborts, and the next unit is asked for. */
  function FailAbortPull(s: Pipe, e: Error): Pipe
  {
    Make(Make(Make(s, Within(DoError(e))), Within(DoAbort(0))), Within(DoPull))
  }

  lemma FailAbortPullSteps(s: Pipe, e: Error)
    requires s.stage.Streaming? && s.t.consumer.Suspended? && s.hasSignal && s.t.caller == Some(0)
    requires s.t.native.NotCalled? || s.t.native.InFlight?
    ensures var t := s.t;
      var q := AbortStep(FailStep(t.queue, WrapNativeError(e)), t.signal);
      var r := FailAbortPull(s, e).t;
      && r.queue == NextStep(q, t.signal) && r.consumer == Awaiting(q.issued)
      && FailAbortPull(s, e).stage.Streaming?
  {
    WithinStep(s, DoError(e));
    var f := s.(t := NativeError(s.t, e));
    assert Make(s, Within(DoError(e))) == f;
    WithinStep(f, DoAbort(0));
    var a := f.(t := CallerAborts(f.t, 0));
    assert Make(f, Within(DoAbort(0))) == a;
    WithinStep(a, DoPull);
  }

  lemma WithinStep(s: Pipe, a: Action)
    requires OfSession(s, a)
    ensures Make(s, Within(a)) == s.(t := Act(s.t, a))
  {
  }

  lemma DoneEndsTheLoop(s: Pipe)
    requires s.stage.Streaming? && s.t.consumer.Awaiting? && Settlement(s.t.consumer.promise, Done) in s.t.queue.log
    ensures Possible(s, UnitSettles(Done)) && Make(s, UnitSettles(Done)).stage == Closing(Drained)
  {
    assert Make(s, UnitSettles(Done)) == UnitArrives(s, Done);
  }

  /** So an abort can swallow a native error that came before it: the consumer is answered `done`. */
  lemma AbortSwallowsTheError(s: Pipe, e: Error)
    requires PipeValid(s) && s.stage.Streaming? && s.t.consumer.Suspended? && s.hasSignal && !s.Aborted()
    requires (s.t.native.NotCalled? || s.t.native.InFlight?) && !s.t.queue.ended
    ensures var r := FailAbortPull(s, e);
      && r.t.queue.error == Some(WrapNativeError(e))
      && Possible(r, UnitSettles(Done)) && Make(r, UnitSettles(Done)).stage == Closing(Drained)
  {
    var q, r := s.t.queue, FailAbortPull(s, e);
    SignalIsLive(s);
    FailThenAbort(q, WrapNativeError(e), s.t.signal);
    FailAbortPullSteps(s, e);
    assert r.t.queue.log[|q.log|] == Settlement(q.issued, Done);
    DoneEndsTheLoop(r);
  }

  // ---------------------------------------------------------------------------------------------
  // A failure of the audio
  // ---------------------------------------------------------------------------------------------

  /** Finished without a native error, and neither in silence nor early. */
  predicate Settled(s: Pipe)
  {
    && s.stage.Finished? && s.t.native == Closed && s.t.queue.error.None?
    && s.stage.outcome != Silent && s.stage.outcome != Returned
  }

  /** What is true of every settled pipeline. */
  predicate WellSettled(s: Pipe)
  {
    Settled(s) ==>
      || (s.failed && s.stage.outcome == Threw(s.pumpError))
      || (s.stage.outcome == Completed && s.video.Over? && (s.audio.Reading? ==> !s.failed))
  }

  /** A failure has been recorded, and the outcome, if there is one, is that failure. */
  predicate Doomed(s: Pipe, e: Error)
  {
    s.failed && s.pumpError == e && (Settled(s) ==> s.stage.outcome == Threw(e))
  }

  lemma FinishedWithin(s: Pipe, a: Action)
    requires PipeValid(s) && s.stage.Finished? && OfSession(s, a)
    ensures var t := Act(s.t, a); t.native == s.t.native && t.queue.error == s.t.queue.error
  {
    StoppedQueueIsFrozen(s, a);
  }

  /** A finished pipeline stays as it is, but for the pumps winding down. */
  lemma FinishedStays(s: Pipe, m: Move)
    requires PipeValid(s) && s.stage.Finished? && Possible(s, m)
    ensures var r := Make(s, m);
      && r.stage == s.stage && r.t.native == s.t.native && r.t.queue.error == s.t.queue.error
      && (s.video.Over? ==> r.video.Over?)
      && (r.audio.Reading? ==> s.audio.Reading? && (s.video.Over? ==> r.failed == s.failed))
  {
    match m
    case Within(a) => FinishedWithin(s, a);
    case _ =>
  }

  lemma VideoKeepsFailure(s: Pipe, m: Move)
    requires Possible(s, m) && VideoMove(m)
    ensures KeepsFailure(s, Make(s, m))
  {
    var v := s.(exhausted := true, videoLog := s.videoLog + [Reported]);
    match m
    case VideoItem(au, now, fault) => assert Make(s, m) == VideoArrives(s, au, now, fault);
    case VideoEnds => assert Make(s, m) == AfterVideo(v);
    case VideoThrows(e) => assert Make(s, m) == AfterVideo(RecordFailure(v, e));
    case VideoFinishes =>
  }

  lemma AudioKeepsFailure(s: Pipe, m: Move)
    requires Possible(s, m) && AudioMove(m)
    ensures KeepsFailure(s, Make(s, m))
  {
    match m
    case AudioItem(au, now, fault) => assert Make(s, m) == AudioArrives(s, au, now, fault);
    case AudioThrows(e) => assert Make(s, m) == AudioFails(s.(audioLog := s.audioLog + [Reported]), e);
    case AudioEnds =>
    case AudioFinishes =>
  }

  lemma ConsumerKeepsFailure(s: Pipe, m: Move)
    requires Possible(s, m) && !VideoMove(m) && !AudioMove(m)
    ensures KeepsFailure(s, Make(s, m))
  {
    match m
    case UnitSettles(answer) => assert Make(s, m) == UnitArrives(s, answer);
    case ConsumerLeaves => assert Make(s, m) == LeaveLoop(s.(t := ReturnUnits(s.t)), Left);
    case CloseSettles => assert Make(s, m) == AfterClose(s);
    case Within(_) =>
    case PumpJoins =>
  }

  /** The first failure is the one that is kept. */
  lemma FailureStays(s: Pipe, m: Move)
    requires s.failed
    ensures KeepsFailure(s, Make(s, m))
  {
    if Possible(s, m) {
      if VideoMove(m) {
        VideoKeepsFailure(s, m);
      } else if AudioMove(m) {
        AudioKeepsFailure(s, m);
      } else {
        ConsumerKeepsFailure(s, m);
      }
    }
  }

  lemma SettledByClose(s: Pipe)
    requires PipeValid(s) && s.stage.Closing? && Settled(AfterClose(s))
    ensures s.failed && AfterClose(s).stage.outcome == Threw(s.pumpError)
    ensures AfterClose(s).failed == s.failed && AfterClose(s).pumpError == s.pumpError
    ensures AfterClose(s).video == s.video
  {
  }

  lemma SettledByPumps(s: Pipe, m: Move)
    requires PipeValid(s) && !s.stage.Finished? && Settled(Make(s, m))
    ensures var r := Make(s, m);
      && r.failed == s.failed && r.pumpError == s.pumpError && r.video == s.video
      && r.stage.outcome == (if s.failed then Threw(s.pumpError) else Completed)
      && (!s.failed ==> s.video.Over?)
  {
    OnlyTwoMovesFinish(s, m);
    if m.CloseSettles? {
      SettledByClose(s);
    }
  }

  lemma MakeKeepsWellSettled(s: Pipe, m: Move)
    requires PipeValid(s) && WellSettled(s)
    ensures WellSettled(Make(s, m))
  {
    if !Possible(s, m) { return; }
    if s.stage.Finished? {
      FinishedStays(s, m);
      if s.failed {
        FailureStays(s, m);
      }
    } else if Settled(Make(s, m)) {
      SettledByPumps(s, m);
    }
  }

  lemma MakeKeepsDoomed(s: Pipe, m: Move, e: Error)
    requires PipeValid(s) && Doomed(s, e)
    ensures Doomed(Make(s, m), e)
  {
    FailureStays(s, m);
    if !Possible(s, m) { return; }
    if s.stage.Finished? {
      FinishedStays(s, m);
    } else if Settled(Make(s, m)) {
      SettledByPumps(s, m);
    }
  }

  lemma {:induction false} RunKeepsWellSettled(s: Pipe, moves: seq<Move>)
    requires PipeValid(s) && WellSettled(s)
    ensures WellSettled(RunPipe(s, moves))
    decreases |moves|
  {
    if moves != [] {
      RunKeepsWellSettled(s, moves[..|moves| - 1]);
      RunKeepsPipe(s, moves[..|moves| - 1]);
      MakeKeepsWellSettled(RunPipe(s, moves[..|moves| - 1]), moves[|moves| - 1]);
    }
  }

  lemma {:induction false} RunKeepsDoomed(s: Pipe, moves: seq<Move>, e: Error)
    requires PipeValid(s) && Doomed(s, e)
    ensures Doomed(RunPipe(s, moves), e)
    decreases |moves|
  {
    if moves != [] {
      RunKeepsDoomed(s, moves[..|moves| - 1], e);
      RunKeepsPipe(s, moves[..|moves| - 1]);
      MakeKeepsDoomed(RunPipe(s, moves[..|moves| - 1]), moves[|moves| - 1], e);
    }
  }

  lemma {:induction false} ReachedIsWellSettled(s: Pipe)
    requires Reached(s)
    ensures PipeValid(s) && WellSettled(s)
  {
    var t: Session, hasAudioSource, hasSignal, moves :|
      Unused(t) && s == RunPipe(Start(t, hasAudioSource, hasSignal), moves);
    StartIsValid(t, hasAudioSource, hasSignal);
    RunKeepsPipe(Start(t, hasAudioSource, hasSignal), moves);
    RunKeepsWellSettled(Start(t, hasAudioSource, hasSignal), moves);
  }

  /**
   * An audio read that fails after the video pump has left its loop, and every way the pipeline can
   * then settle: it throws that failure if nothing failed before and it had not finished yet, the
   * earlier failure if there was one, and it completes only if it had completed already.
   */
  lemma {:induction false} LateAudioFailureExactly(s: Pipe, e: Error, moves: seq<Move>)
    requires Reached(s) && s.audio.Reading? && !s.video.Reading?
    requires Settled(RunPipe(Make(s, AudioThrows(e)), moves))
    ensures var o := RunPipe(Make(s, AudioThrows(e)), moves).stage.outcome;
      && o == (if s.failed then Threw(s.pumpError) else if s.stage.Finished? then Completed else Threw(e))
      && (o == Threw(e) <==> if s.failed then s.pumpError == e else !s.stage.Finished?)
  {
    var s1 := Make(s, AudioThrows(e));
    ReachedIsWellSettled(s);
    MakeKeepsPipe(s, AudioThrows(e));
    MakeKeepsWellSettled(s, AudioThrows(e));
    AudioFailureRecorded(s, e);
    if s.stage.Finished? {
      FinishedStays(s, AudioThrows(e));
      FinishedKeepsClose(s1, moves);
    } else {
      RunKeepsDoomed(s1, moves, if s.failed then s.pumpError else e);
    }
  }

  lemma AudioFailureRecorded(s: Pipe, e: Error)
    requires s.audio.Reading?
    ensures var r := Make(s, AudioThrows(e));
      r.failed && r.pumpError == (if s.failed then s.pumpError else e) && r.stage == s.stage
  {
    var a := s.(audioLog := s.audioLog + [Reported]);
    assert Make(s, AudioThrows(e)) == AudioFails(a, e);
    RecordedByAudio(a, e);
  }

  lemma RecordedByAudio(s: Pipe, e: Error)
    ensures var r := AudioFails(s, e); r.failed && r.pumpError == if s.failed then s.pumpError else e
  {
  }

  lemma {:induction false} FinishedKeepsClose(s: Pipe, moves: seq<Move>)
    requires PipeValid(s) && s.stage.Finished?
    ensures var r := RunPipe(s, moves);
      r.stage == s.stage && r.t.native == s.t.native && r.t.queue.error == s.t.queue.error
    decreases |moves|
  {
    if moves != [] {
      var init := moves[..|moves| - 1];
      FinishedKeepsClose(s, init);
      RunKeepsPipe(s, init);
      if Possible(RunPipe(s, init), moves[|moves| - 1]) {
        FinishedStays(RunPipe(s, init), moves[|moves| - 1]);
      }
    }
  }

  // ---------------------------------------------------------------------------------------------
  // Getting there
  // ---------------------------------------------------------------------------------------------

  /** The moves of the program itself: continuations whose `await` has settled. */
  predicate Internal(m: Move)
  {
    m.VideoFinishes? || m.AudioFinishes? || m.CloseSettles? || m.PumpJoins? || m.UnitSettles?
    || m == Within(DoResumeEnd)
  }

  /** How many continuations can still run before the pipeline needs something from outside. */
  function Rank(s: Pipe): (n: nat)
    ensures n <= 7
  {
    (if s.video.Finishing? then 1 else 0) + (if s.audio.Finishing? then 1 else 0)
    + (if s.t.closing == ByEnd(false) then 1 else 0)
    + match s.stage
      case Finished(_) => 0
      case Joining => 1
      case Closing(_) => 2
      case Streaming => if s.t.consumer.Awaiting? then 4 else 3
  }

  lemma LeavingLowersRank(s: Pipe, exit: Exit)
    requires s.stage.Streaming?
    ensures Rank(LeaveLoop(s, exit)) < Rank(s)
  {
  }

  lemma UnitLowersRank(s: Pipe, answer: Result<Unit>)
    requires Possible(s, UnitSettles(answer))
    ensures Rank(UnitArrives(s, answer)) < Rank(s)
  {
    var r := s.(t := ResumeUnits(s.t, answer));
    assert Rank(r) < Rank(s);
    match answer
    case Value(_) =>
    case Done => LeavingLowersRank(r, Drained);
    case Rejected(e) => LeavingLowersRank(r, Thrown(e));
  }

  lemma InternalLowersRank(s: Pipe, m: Move)
    requires Possible(s, m) && Internal(m)
    ensures Rank(Make(s, m)) < Rank(s)
  {
    match m
    case UnitSettles(answer) => UnitLowersRank(s, answer);
    case CloseSettles => assert AfterClose(s).t == s.t && AfterClose(s).video == s.video;
    case _ =>
  }

  /** In whatever order they run, there are never more than seven in a row. */
  lemma {:induction false} InternalRunIsShort(s: Pipe, moves: seq<Move>)
    requires forall i :: 0 <= i < |moves| ==> Internal(moves[i]) && Possible(RunPipe(s, moves[..i]), moves[i])
    ensures |moves| + Rank(RunPipe(s, moves)) <= Rank(s) <= 7
    decreases |moves|
  {
    if moves != [] {
      var init := moves[..|moves| - 1];
      assert forall i :: 0 <= i < |init| ==> init[..i] == moves[..i];
      InternalRunIsShort(s, init);
      InternalLowersRank(RunPipe(s, init), moves[|moves| - 1]);
    }
  }

  lemma {:induction false} RunFrom(s: Pipe, m: Move, rest: seq<Move>)
    ensures RunPipe(s, [m] + rest) == RunPipe(Make(s, m), rest)
    decreases |rest|
  {
    if rest == [] {
      assert [m] + rest == [m] && [m][..0] == [];
    } else {
      RunFrom(s, m, rest[..|rest| - 1]);
      assert ([m] + rest)[..|rest|] == [m] + rest[..|rest| - 1];
    }
  }

  /** A continuation that can run. */
  lemma ReadyMove(s: Pipe) returns (m: Move)
    requires Ready(s)
    ensures Possible(s, m) && Internal(m)
  {
    if Possible(s, VideoFinishes) { m := VideoFinishes; }
    else if Possible(s, AudioFinishes) { m := AudioFinishes; }
    else if Possible(s, Within(DoResumeEnd)) { m := Within(DoResumeEnd); }
    else if Possible(s, CloseSettles) { m := CloseSettles; }
    else if Possible(s, PumpJoins) { m := PumpJoins; }
    else {
      var answer :| Possible(s, UnitSettles(answer));
      m := UnitSettles(answer);
    }
  }

  predicate AllInternal(moves: seq<Move>)
  {
    forall m :: m in moves ==> Internal(m)
  }

  lemma {:induction false} ValidComesToRest(s: Pipe) returns (moves: seq<Move>)
    requires PipeValid(s)
    ensures |moves| <= Rank(s) && AllInternal(moves)
    ensures PipeValid(RunPipe(s, moves)) && !Ready(RunPipe(s, moves))
    decreases Rank(s)
  {
    if Ready(s) {
      var m := ReadyMove(s);
      InternalLowersRank(s, m);
      MakeKeepsPipe(s, m);
      var rest := ValidComesToRest(Make(s, m));
      moves := [m] + rest;
      RunFrom(s, m, rest);
    } else {
      moves := [];
    }
  }

  /**
   * Left to itself the program comes to rest after at most seven continuations, whichever run: then
   * the pipeline is done, or waits for its caller, the native close, or a source that still feeds it.
   */
  lemma ComesToRest(s: Pipe) returns (moves: seq<Move>)
    requires Reached(s)
    ensures |moves| <= 7 && AllInternal(moves)
    ensures !Ready(RunPipe(s, moves)) && WaitsOutside(RunPipe(s, moves))
  {
    ReachedIsValid(s);
    moves := ValidComesToRest(s);
    ValidWaitsOutside(RunPipe(s, moves));
  }
}
