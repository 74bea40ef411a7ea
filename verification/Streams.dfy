/**
 * End to end: what a consumer of `units()` or of the pipeline is given, against what the native side
 * produced; and the pipeline as a user of the transcoder's operations.
 */
module Streams {
  import opened Sequences
  import opened UnitQueues
  import opened QueueRuns
  import opened Transcoders
  import opened TranscoderRuns
  import opened Pipelines
  import opened PipelineRuns

  // ---------------------------------------------------------------------------------------------
  // Given and produced
  // ---------------------------------------------------------------------------------------------

  /** The values yielded to the consumer, in order. */
  function Yields(s: Session, actions: seq<Action>): seq<Unit>
  {
    if actions == [] then []
    else
      var init, a := actions[..|actions| - 1], actions[|actions| - 1];
      Yields(s, init)
      + if a.DoResumeUnits? && a.answer.Value? && Enabled(RunSession(s, init), a) then [a.answer.value] else []
  }

  /** The unit the native side delivers by an action, numbered. */
  function Made(s: Session, a: Action): seq<Unit>
  {
    if a.DoEmit? && Enabled(s, a) then [Numbered(s, a.unit)] else []
  }

  /** The units the native side delivered, numbered, in order. */
  function Produced(s: Session, actions: seq<Action>): seq<Unit>
  {
    if actions == [] then []
    else
      var init, a := actions[..|actions| - 1], actions[|actions| - 1];
      Produced(s, init) + Made(RunSession(s, init), a)
  }

  /** The unit the awaited promise has been resolved with, while the generator has not resumed. */
  function Pending(s: Session): seq<Unit>
  {
    var n := |s.queue.log|;
    if s.consumer.Awaiting? && n > 0 && s.queue.log[n - 1].promise == s.consumer.promise
       && s.queue.log[n - 1].result.Value?
    then [s.queue.log[n - 1].result.value]
    else []
  }

  /** Everything resolved has been yielded, but for the answer being awaited, which is the latest. */
  ghost predicate Handed(s: Session, ys: seq<Unit>)
  {
    && Delivered(s.queue.log) == ys + Pending(s)
    && (s.consumer.Awaiting? && SettledIn(s.queue.log, s.consumer.promise) ==>
         s.queue.log[|s.queue.log| - 1].promise == s.consumer.promise)
  }

  /** At most one settlement is added, and it is that of `promise`. */
  predicate Grows(l: seq<Settlement<Unit>>, m: seq<Settlement<Unit>>, promise: nat)
  {
    m == l || (|m| == |l| + 1 && m[..|l|] == l && m[|l|].promise == promise)
  }

  lemma PushGrows(o: Options<Unit>, q: State<Unit>, u: Unit)
    ensures var t := PushStep(o, q, u);
      t.log == q.log || (q.waiter.Some? && Grows(q.log, t.log, q.waiter.value.promise))
  {
  }

  lemma EndGrows(q: State<Unit>, e: Error, drain: bool)
    ensures var t := FailStep(q, e);
      t.log == q.log || (q.waiter.Some? && Grows(q.log, t.log, q.waiter.value.promise))
    ensures var t := EndStep(q, drain);
      t.log == q.log || (q.waiter.Some? && Grows(q.log, t.log, q.waiter.value.promise))
  {
  }

  lemma AbortGrows(q: State<Unit>, signal: nat)
    requires Valid(q)
    ensures var t := AbortStep(q, signal);
      t.log == q.log || (q.waiter.Some? && Grows(q.log, t.log, q.waiter.value.promise))
  {
    AbortEffect(q, signal);
  }

  /** A step settles the parked request or the new one, or nothing. */
  lemma LogGrows(o: Options<Unit>, q: State<Unit>, e: QueueRuns.Event<Unit>)
    requires Valid(q)
    ensures var t := QueueRuns.Step(o, q, e);
      || t.log == q.log
      || (e.Next? && Grows(q.log, t.log, q.issued))
      || (!e.Next? && q.waiter.Some? && Grows(q.log, t.log, q.waiter.value.promise))
  {
    match e
    case Push(u) => PushGrows(o, q, u);
    case Fail(err) => EndGrows(q, err, false);
    case End(drain) => EndGrows(q, Falsy, drain);
    case Abort(signal) => AbortGrows(q, signal);
    case Next(_) =>
  }

  lemma SettlingHands(s: Session, t: Session, ys: seq<Unit>)
    requires SessionValid(s) && Handed(s, ys) && t.consumer == s.consumer
    requires t.queue.log == s.queue.log
      || (s.queue.waiter.Some? && Grows(s.queue.log, t.queue.log, s.queue.waiter.value.promise))
    ensures Handed(t, ys)
  {
    var l, m := s.queue.log, t.queue.log;
    if m != l {
      var p := s.consumer.promise;
      assert Parked(s.queue, p);
      assert m == l + [m[|l|]];
      DeliveredAppend(l, m[|l|]);
    }
  }

  lemma AskingHands(s: Session, t: Session, ys: seq<Unit>)
    requires SessionValid(s) && Handed(s, ys) && !s.consumer.Awaiting? && t.consumer == Awaiting(s.queue.issued)
    requires Grows(s.queue.log, t.queue.log, s.queue.issued)
    ensures Handed(t, ys)
  {
    var l, m := s.queue.log, t.queue.log;
    if m != l {
      assert m == l + [m[|l|]];
      DeliveredAppend(l, m[|l|]);
    }
  }

  lemma ResumingHands(s: Session, answer: Result<Unit>, ys: seq<Unit>)
    requires SessionValid(s) && Handed(s, ys) && Enabled(s, DoResumeUnits(answer))
    ensures Handed(ResumeUnits(s, answer), ys + if answer.Value? then [answer.value] else [])
  {
    var l, p := s.queue.log, s.consumer.promise;
    var i :| 0 <= i < |l| && l[i] == Settlement(p, answer);
    assert SettledIn(l, p);
    assert l[|l| - 1].promise == l[i].promise;
  }

  lemma ClosingHands(s: Session, ys: seq<Unit>)
    requires SessionValid(s) && Handed(s, ys)
    ensures Handed(Close(s), ys)
  {
    var o := QueueOptions(s.config);
    var q := AbortStep(s.queue, s.signal);
    QueueRuns.AbortKeepsValid(s.queue, s.signal);
    AbortEffect(s.queue, s.signal);
    LogGrows(o, s.queue, QueueRuns.Abort(s.signal));
    LogGrows(o, q, QueueRuns.End(false));
    SettlingHands(s, Close(s), ys);
  }

  lemma ResumedEndHands(s: Session, ys: seq<Unit>)
    requires SessionValid(s) && Handed(s, ys)
    ensures Handed(EndResumes(s), ys)
  {
    var o := QueueOptions(s.config);
    if s.native.CloseFailed? {
      LogGrows(o, s.queue, QueueRuns.Fail(WrapNativeError(s.native.error)));
    } else {
      LogGrows(o, s.queue, QueueRuns.End(true));
    }
    SettlingHands(s, EndResumes(s), ys);
  }

  lemma StartingHands(s: Session, caller: Option<nat>, ys: seq<Unit>)
    requires SessionValid(s) && Handed(s, ys)
    ensures Handed(StartUnits(s, caller), ys)
  {
    if s.consumer == Idle {
      var d := DeriveSignal(s, caller);
      DeriveKeepsValid(s, caller);
      LogGrows(QueueOptions(s.config), d.queue, QueueRuns.Next(d.signal));
      AskingHands(s, CallNext(d), ys);
    }
  }

  lemma EmittingHands(s: Session, n: NativeUnit, ys: seq<Unit>)
    requires SessionValid(s) && Handed(s, ys)
    ensures Handed(Emit(s, n), ys)
  {
    LogGrows(QueueOptions(s.config), s.queue, QueueRuns.Push(Numbered(s, n)));
    SettlingHands(s, Emit(s, n), ys);
  }

  lemma FailingHands(s: Session, e: Error, ys: seq<Unit>)
    requires SessionValid(s) && Handed(s, ys)
    ensures Handed(NativeError(s, e), ys)
  {
    LogGrows(QueueOptions(s.config), s.queue, QueueRuns.Fail(WrapNativeError(e)));
    SettlingHands(s, NativeError(s, e), ys);
  }

  lemma PullingHands(s: Session, ys: seq<Unit>)
    requires SessionValid(s) && Handed(s, ys) && s.consumer.Suspended?
    ensures Handed(CallNext(s), ys)
  {
    LogGrows(QueueOptions(s.config), s.queue, QueueRuns.Next(s.signal));
    AskingHands(s, CallNext(s), ys);
  }

  lemma AbortingHands(s: Session, c: nat, ys: seq<Unit>)
    requires SessionValid(s) && Handed(s, ys)
    ensures Handed(CallerAborts(s, c), ys)
  {
    LogGrows(QueueOptions(s.config), s.queue, QueueRuns.Abort(s.signal));
    SettlingHands(s, CallerAborts(s, c), ys);
  }

  /** Steps that neither touch the queue's log nor the consumer. */
  lemma IdleHands(s: Session, t: Session, ys: seq<Unit>)
    requires Handed(s, ys) && t.queue.log == s.queue.log && t.consumer == s.consumer
    ensures Handed(t, ys)
  {
  }

  lemma ActHands(s: Session, a: Action, ys: seq<Unit>)
    requires SessionValid(s) && Handed(s, ys) && Enabled(s, a) && !a.DoResumeUnits?
    ensures Handed(Act(s, a), ys)
  {
    match a
    case DoEmit(n) => EmittingHands(s, n, ys);
    case DoError(e) => FailingHands(s, e, ys);
    case DoClose => ClosingHands(s, ys);
    case DoResumeEnd => ResumedEndHands(s, ys);
    case DoStart(caller) => StartingHands(s, caller, ys);
    case DoPull => PullingHands(s, ys);
    case DoAbort(c) => AbortingHands(s, c, ys);
    case DoReturn => assert Pending(s) == Pending(ReturnUnits(s)) == [];
    case DoPush(au, now) => IdleHands(s, Feed(s, au, now), ys);
    case DoPushAudio(au, now) => IdleHands(s, FeedAudio(s, au, now), ys);
    case DoEnd => IdleHands(s, BeginEnd(s), ys);
    case DoSettle(failure) => IdleHands(s, NativeSettles(s, failure), ys);
  }

  lemma {:induction false} RunHands(c: Config, actions: seq<Action>)
    ensures Handed(RunSession(NewSession(c), actions), Yields(NewSession(c), actions))
    decreases |actions|
  {
    if actions != [] {
      var init, a := actions[..|actions| - 1], actions[|actions| - 1];
      var s, ys := RunSession(NewSession(c), init), Yields(NewSession(c), init);
      RunHands(c, init);
      RunKeepsSession(c, init);
      if Enabled(s, a) {
        if a.DoResumeUnits? {
          ResumingHands(s, a.answer, ys);
        } else {
          ActHands(s, a, ys);
        }
      }
    }
  }

  lemma {:induction false} HeldWasProduced(c: Config, actions: seq<Action>)
    ensures Subseq(Contents(RunSession(NewSession(c), actions).queue), Produced(NewSession(c), actions))
    decreases |actions|
  {
    if actions != [] {
      var init, a := actions[..|actions| - 1], actions[|actions| - 1];
      var s, made := RunSession(NewSession(c), init), Produced(NewSession(c), init);
      HeldWasProduced(c, init);
      RunKeepsSession(c, init);
      var before, after := Contents(s.queue), Contents(Act(s, a).queue);
      if a.DoEmit? && Enabled(s, a) {
        var u := Numbered(s, a.unit);
        PushContents(QueueOptions(s.config), s.queue, u);
        SubseqAppend(before, made, u);
        SubseqTransitive(after, before + [u], made + [u]);
      } else {
        NothingAppears(s, a);
        PrefixSubseq(after, before[|after|..]);
        assert after + before[|after|..] == before && Produced(NewSession(c), actions) == made;
        SubseqTransitive(after, before, made);
      }
    }
  }

  lemma NothingAppears(s: Session, a: Action)
    requires SessionValid(s) && (a.DoEmit? ==> !Enabled(s, a))
    ensures Contents(Act(s, a).queue) <= Contents(s.queue)
  {
    if !a.DoEmit? {
      OtherActsAreCalm(s, a);
    }
  }

  lemma GivenWasProduced(q: State<Unit>, ys: seq<Unit>, pending: seq<Unit>, made: seq<Unit>)
    requires Delivered(q.log) == ys + pending && Subseq(Contents(q), made)
    ensures Subseq(ys, made)
  {
    var rest := pending + q.buffer;
    assert Contents(q) == ys + rest;
    PrefixSubseq(ys, rest);
    SubseqTransitive(ys, ys + rest, made);
  }

  lemma GivenIsDecodable(ys: seq<Unit>, pending: seq<Unit>)
    requires Decodable(Videos(ys + pending))
    ensures Decodable(Videos(ys))
  {
    FilterConcat(ys, pending, IsVideo);
    DecodablePrefix(Videos(ys), Videos(pending));
  }

  /**
   * What consumers of `units()` are given, in every run: units the native side produced, in order and
   * none twice; and in h264 mode a stream that can be decoded.
   */
  lemma ConsumersGetTheStream(c: Config, actions: seq<Action>)
    ensures var ys := Yields(NewSession(c), actions);
      && ys <= Delivered(RunSession(NewSession(c), actions).queue.log)
      && Subseq(ys, Produced(NewSession(c), actions))
      && (c.isVideo ==> Decodable(Videos(ys)))
  {
    var s, ys := RunSession(NewSession(c), actions), Yields(NewSession(c), actions);
    RunHands(c, actions);
    HeldWasProduced(c, actions);
    GivenWasProduced(s.queue, ys, Pending(s), Produced(NewSession(c), actions));
    if c.isVideo {
      DeliveredVideoIsDecodable(c, actions);
      GivenIsDecodable(ys, Pending(s));
    }
  }

  // ---------------------------------------------------------------------------------------------
  // The pipeline drives the transcoder through its operations
  // ---------------------------------------------------------------------------------------------

  /** The operations on the transcoder that a possible move amounts to. */
  function Operations(s: Pipe, m: Move): seq<Action>
  {
    var finish := if s.stopped then [] else [DoEnd];
    if !Possible(s, m) then []
    else
      match m
      case VideoItem(au, now, fault) =>
        if s.stopped then []
        else [DoPush(au, now)] + if FeedThrows(s.t, fault).Some? then [DoEnd] else []
      case VideoEnds => finish
      case VideoThrows(_) => finish
      case AudioItem(au, now, fault) =>
        if s.stopped || s.audioDone then []
        else [DoPushAudio(au, now)] + if FeedAudioThrows(s.t, fault).Some? then [DoEnd] else []
      case AudioThrows(_) => finish
      case Within(a) => [a]
      case UnitSettles(answer) => [DoResumeUnits(answer)] + if answer.Value? then [] else [DoClose]
      case ConsumerLeaves => [DoReturn, DoClose]
      case _ => []
  }

  lemma RunOne(s: Session, a: Action)
    ensures RunSession(s, [a]) == Act(s, a)
  {
    assert [a][..0] == [] && RunSession(s, []) == s;
  }

  lemma RunTwo(s: Session, a: Action, b: Action)
    ensures RunSession(s, [a, b]) == Act(Act(s, a), b)
  {
    RunOne(s, a);
    assert [a, b][..1] == [a];
  }

  lemma FinishOperates(s: Pipe, e: Error)
    ensures var t := RunSession(s.t, if s.stopped then [] else [DoEnd]);
      AfterVideo(s).t == t && AudioFails(s, e).t == t
  {
    RunOne(s.t, DoEnd);
  }

  lemma VideoOperates(s: Pipe, au: AccessUnit, now: real, fault: Option<Error>)
    requires s.video.Reading?
    ensures VideoArrives(s, au, now, fault).t == RunSession(s.t, Operations(s, VideoItem(au, now, fault)))
  {
    if !s.stopped {
      var r := s.(t := Feed(s.t, au, now));
      RunOne(s.t, DoPush(au, now));
      if FeedThrows(s.t, fault).Some? {
        assert Operations(s, VideoItem(au, now, fault)) == [DoPush(au, now), DoEnd];
        assert AfterVideo(RecordFailure(r, FeedThrows(s.t, fault).value)).t == BeginEnd(r.t);
        RunTwo(s.t, DoPush(au, now), DoEnd);
      }
    }
  }

  lemma AudioOperates(s: Pipe, au: AccessUnit, now: real, fault: Option<Error>)
    requires s.audio.Reading?
    ensures AudioArrives(s, au, now, fault).t == RunSession(s.t, Operations(s, AudioItem(au, now, fault)))
  {
    if !s.stopped && !s.audioDone {
      RunOne(s.t, DoPushAudio(au, now));
      RunTwo(s.t, DoPushAudio(au, now), DoEnd);
    }
  }

  lemma LeavingOperates(s: Pipe, answer: Result<Unit>, exit: Exit)
    requires Enabled(s.t, DoResumeUnits(answer))
    ensures LeaveLoop(s.(t := ResumeUnits(s.t, answer)), exit).t == RunSession(s.t, [DoResumeUnits(answer), DoClose])
  {
    RunTwo(s.t, DoResumeUnits(answer), DoClose);
  }

  lemma UnitOperates(s: Pipe, answer: Result<Unit>)
    requires Possible(s, UnitSettles(answer))
    ensures UnitArrives(s, answer).t == RunSession(s.t, Operations(s, UnitSettles(answer)))
  {
    match answer
    case Value(_) => RunOne(s.t, DoResumeUnits(answer));
    case Done => LeavingOperates(s, answer, Drained);
    case Rejected(e) => LeavingOperates(s, answer, Thrown(e));
  }

  /** The ends of the sources. */
  lemma EndOperates(s: Pipe, m: Move)
    requires Possible(s, m) && (m.VideoEnds? || m.VideoThrows? || m.AudioThrows?)
    ensures Make(s, m).t == RunSession(s.t, Operations(s, m))
  {
    var v := s.(exhausted := true, videoLog := s.videoLog + [Reported]);
    match m
    case VideoEnds => FinishOperates(v, Falsy);
    case VideoThrows(e) => FinishOperates(RecordFailure(v, e), e);
    case AudioThrows(e) => FinishOperates(s.(audioLog := s.audioLog + [Reported]), e);
  }

  lemma MoveOperates(s: Pipe, m: Move)
    ensures Make(s, m).t == RunSession(s.t, Operations(s, m))
  {
    if !Possible(s, m) { return; }
    match m
    case VideoItem(au, now, fault) => VideoOperates(s, au, now, fault);
    case AudioItem(au, now, fault) => AudioOperates(s, au, now, fault);
    case VideoEnds => EndOperates(s, m);
    case VideoThrows(_) => EndOperates(s, m);
    case AudioThrows(_) => EndOperates(s, m);
    case Within(a) => RunOne(s.t, a);
    case UnitSettles(answer) => UnitOperates(s, answer);
    case ConsumerLeaves => RunTwo(s.t, DoReturn, DoClose);
    case CloseSettles => assert AfterClose(s).t == s.t;
    case _ =>
  }

  /** The operations of a whole run of the pipeline. */
  function AllOperations(s: Pipe, moves: seq<Move>): seq<Action>
  {
    if moves == [] then []
    else
      var init := moves[..|moves| - 1];
      AllOperations(s, init) + Operations(RunPipe(s, init), moves[|moves| - 1])
  }

  lemma {:induction false} RunConcat(s: Session, a: seq<Action>, b: seq<Action>)
    ensures RunSession(s, a + b) == RunSession(RunSession(s, a), b)
    ensures Yields(s, a + b) == Yields(s, a) + Yields(RunSession(s, a), b)
    decreases |b|
  {
    if b == [] {
      assert a + b == a;
    } else {
      var c := b[..|b| - 1];
      RunConcat(s, a, c);
      assert (a + b)[..|a + b| - 1] == a + c && (a + b)[|a + b| - 1] == b[|b| - 1];
    }
  }

  lemma {:induction false} PipelineOperates(s: Pipe, moves: seq<Move>)
    ensures RunPipe(s, moves).t == RunSession(s.t, AllOperations(s, moves))
    decreases |moves|
  {
    if moves != [] {
      var init, m := moves[..|moves| - 1], moves[|moves| - 1];
      PipelineOperates(s, init);
      MoveOperates(RunPipe(s, init), m);
      RunConcat(s.t, AllOperations(s, init), Operations(RunPipe(s, init), m));
    }
  }

  /** The units the pipeline yields. */
  function PipeYields(s: Pipe, moves: seq<Move>): seq<Unit>
  {
    if moves == [] then []
    else
      var init, m := moves[..|moves| - 1], moves[|moves| - 1];
      PipeYields(s, init)
      + if m.UnitSettles? && m.answer.Value? && Possible(RunPipe(s, init), m) then [m.answer.value] else []
  }

  lemma YieldOne(s: Session, a: Action)
    ensures Yields(s, [a]) == if a.DoResumeUnits? && a.answer.Value? && Enabled(s, a) then [a.answer.value] else []
  {
    assert [a][..0] == [] && RunSession(s, []) == s && Yields(s, []) == [];
  }

  lemma {:induction false} MoveYields(s: Pipe, m: Move)
    ensures Yields(s.t, Operations(s, m))
         == if m.UnitSettles? && m.answer.Value? && Possible(s, m) then [m.answer.value] else []
  {
    var ops := Operations(s, m);
    if |ops| == 1 {
      assert ops == [ops[0]];
      YieldOne(s.t, ops[0]);
    } else if |ops| == 2 {
      assert ops == [ops[0]] + [ops[1]];
      RunConcat(s.t, [ops[0]], [ops[1]]);
      YieldOne(s.t, ops[0]);
      YieldOne(RunSession(s.t, [ops[0]]), ops[1]);
    }
  }

  lemma {:induction false} PipelineYields(s: Pipe, moves: seq<Move>)
    ensures PipeYields(s, moves) == Yields(s.t, AllOperations(s, moves))
    decreases |moves|
  {
    if moves != [] {
      var init, m := moves[..|moves| - 1], moves[|moves| - 1];
      PipelineYields(s, init);
      PipelineOperates(s, init);
      MoveYields(RunPipe(s, init), m);
      RunConcat(s.t, AllOperations(s, init), Operations(RunPipe(s, init), m));
    }
  }

  /** Everything done to the transcoder: before the pipeline, its start, and the pipeline's moves. */
  function Story(c: Config, before: seq<Action>, hasAudioSource: bool, hasSignal: bool, moves: seq<Move>): seq<Action>
  {
    var p := Start(RunSession(NewSession(c), before), hasAudioSource, hasSignal);
    before + [DoStart(if hasSignal then Some(0) else None)] + AllOperations(p, moves)
  }

  lemma StartOperates(t: Session, hasAudioSource: bool, hasSignal: bool)
    ensures var start := DoStart(if hasSignal then Some(0) else None);
      Start(t, hasAudioSource, hasSignal).t == RunSession(t, [start]) && Yields(t, [start]) == []
  {
    var start := DoStart(if hasSignal then Some(0) else None);
    RunOne(t, start);
    YieldOne(t, start);
  }

  lemma StoryRuns(c: Config, before: seq<Action>, hasAudioSource: bool, hasSignal: bool, moves: seq<Move>)
    requires Yields(NewSession(c), before) == []
    ensures var p := Start(RunSession(NewSession(c), before), hasAudioSource, hasSignal);
      var story := Story(c, before, hasAudioSource, hasSignal, moves);
      && RunPipe(p, moves).t == RunSession(NewSession(c), story)
      && PipeYields(p, moves) == Yields(NewSession(c), story)
  {
    var t, start := RunSession(NewSession(c), before), [DoStart(if hasSignal then Some(0) else None)];
    var p := Start(t, hasAudioSource, hasSignal);
    var ops := AllOperations(p, moves);
    StartOperates(t, hasAudioSource, hasSignal);
    RunConcat(NewSession(c), before, start);
    RunConcat(NewSession(c), before + start, ops);
    PipelineOperates(p, moves);
    PipelineYields(p, moves);
  }

  /**
   * The pipeline end to end, over a transcoder nobody has consumed: every run of it is a run of the
   * transcoder's own operations, and what it yields was produced in that order and is decodable.
   */
  lemma PipelineGivesTheStream(
    c: Config, before: seq<Action>, hasAudioSource: bool, hasSignal: bool, moves: seq<Move>)
    requires Unused(RunSession(NewSession(c), before))
    ensures var p := Start(RunSession(NewSession(c), before), hasAudioSource, hasSignal);
      var story := Story(c, before, hasAudioSource, hasSignal, moves);
      && RunPipe(p, moves).t == RunSession(NewSession(c), story)
      && Subseq(PipeYields(p, moves), Produced(NewSession(c), story))
      && (c.isVideo ==> Decodable(Videos(PipeYields(p, moves))))
  {
    ConsumersGetTheStream(c, before);
    StoryRuns(c, before, hasAudioSource, hasSignal, moves);
    ConsumersGetTheStream(c, Story(c, before, hasAudioSource, hasSignal, moves));
  }

  /** The loop over the units has ended with `done`, not by an abort. */
  predicate AtItsEnd(s: Pipe)
  {
    s.stage.Joining? || (s.stage == Closing(Drained) && !s.Aborted())
  }

  lemma EndHoldsNothing(s: Pipe)
    requires PipeValid(s) && AtItsEnd(s)
    ensures s.t.consumer == Idle && s.t.queue.buffer == [] && Unharmed(s)
  {
  }

  lemma IdleWasGivenAll(s: Session, ys: seq<Unit>)
    requires Handed(s, ys) && s.consumer == Idle && s.queue.buffer == []
    ensures ys == Contents(s.queue)
  {
    assert ys + [] == ys && Delivered(s.queue.log) + [] == Delivered(s.queue.log);
  }

  /**
   * When the pipeline is about to complete, or to throw the failure of a pump, it has yielded what
   * its queue handed out, the buffer is empty, and no end or failure has thrown anything away. What
   * an overflow took is not spoken of here.
   */
  lemma EndYieldsTheContents(
    c: Config, before: seq<Action>, hasAudioSource: bool, hasSignal: bool, moves: seq<Move>)
    requires Unused(RunSession(NewSession(c), before))
    ensures var p := Start(RunSession(NewSession(c), before), hasAudioSource, hasSignal);
      var r := RunPipe(p, moves);
      AtItsEnd(r) ==> PipeYields(p, moves) == Contents(r.t.queue) && Unharmed(r)
  {
    var p := Start(RunSession(NewSession(c), before), hasAudioSource, hasSignal);
    var r := RunPipe(p, moves);
    if AtItsEnd(r) {
      ConsumersGetTheStream(c, before);
      StoryRuns(c, before, hasAudioSource, hasSignal, moves);
      RunHands(c, Story(c, before, hasAudioSource, hasSignal, moves));
      StartIsValid(RunSession(NewSession(c), before), hasAudioSource, hasSignal);
      RunKeepsPipe(p, moves);
      EndHoldsNothing(r);
      IdleWasGivenAll(r.t, PipeYields(p, moves));
    }
  }
}
