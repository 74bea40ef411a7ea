/**
 * What becomes of every unit the native side delivers: it is yielded, or held, or thrown away by an
 * end or a failure, or lost to an overflow, or too late. Which of these the pipeline leaves open.
 */
module Deliveries {
  import opened Sequences
  import opened UnitQueues
  import opened QueueRuns
  import opened Transcoders
  import opened TranscoderRuns
  import opened Pipelines
  import opened PipelineRuns
  import opened Streams
  import opened Outcomes

  // ---------------------------------------------------------------------------------------------
  // What a queue has kept
  // ---------------------------------------------------------------------------------------------

  /** Handed out, still held, or thrown away by an end or a failure: everything but what an overflow took. */
  function Kept(q: State<Unit>): seq<Unit>
  {
    Contents(q) + q.discarded
  }

  /** Ends and failures throw away what is held at that moment, so nothing is held afterwards. */
  predicate ThrownAtTheEnd(q: State<Unit>)
  {
    q.discarded != [] ==> q.ended && q.buffer == []
  }

  predicate Keeps(q: State<Unit>, t: State<Unit>)
  {
    Kept(t) == Kept(q) && ThrownAtTheEnd(t) && |q.discarded| <= |t.discarded|
  }

  lemma DiscardingKeeps(q: State<Unit>, t: State<Unit>)
    requires ThrownAtTheEnd(q) && q.discarded == [] && t.discarded == q.discarded + q.buffer
    requires t.ended && t.buffer == [] && Contents(t) == Delivered(q.log)
    ensures Keeps(q, t)
  {
    assert [] + q.buffer == q.buffer && Contents(q) + [] == Contents(q);
  }

  lemma EventDiscards(o: Options<Unit>, q: State<Unit>, e: QueueRuns.Event<Unit>)
    requires Valid(q) && ThrownAtTheEnd(q) && !e.Push? && !e.Next? && !e.Abort?
    ensures var t := QueueRuns.Step(o, q, e);
      if Discards(q, e) then q.discarded == [] && t.discarded == q.discarded + q.buffer && t.ended && t.buffer == []
      else t.discarded == q.discarded && (q.ended ==> t.ended && t.buffer == q.buffer)
  {
    assert q.discarded + [] == q.discarded;
  }

  lemma EventKeeps(o: Options<Unit>, q: State<Unit>, e: QueueRuns.Event<Unit>)
    requires Valid(q) && ThrownAtTheEnd(q) && !e.Push? && (e.Next? ==> q.waiter.None?)
    ensures Keeps(q, QueueRuns.Step(o, q, e)) && Valid(QueueRuns.Step(o, q, e))
  {
    StepKeepsValid(o, q, e);
    OtherContents(o, q, e);
    match e
    case Abort(signal) => AbortEffect(q, signal);
    case Next(_) =>
    case _ =>
      EventDiscards(o, q, e);
      if Discards(q, e) { DiscardingKeeps(q, QueueRuns.Step(o, q, e)); }
  }

  lemma KeepsOn(q: State<Unit>, r: State<Unit>, t: State<Unit>)
    requires Keeps(q, r) && Keeps(r, t)
    ensures Keeps(q, t)
  {
  }

  lemma ClosedQueue(s: Session)
    ensures Close(s).queue == EndStep(AbortStep(s.queue, s.signal), false)
  {
  }

  lemma ClosingKeeps(s: Session)
    requires SessionValid(s) && ThrownAtTheEnd(s.queue)
    ensures Keeps(s.queue, Close(s).queue)
  {
    var o := QueueOptions(s.config);
    var q := AbortStep(s.queue, s.signal);
    EventKeeps(o, s.queue, QueueRuns.Abort(s.signal));
    assert q == QueueRuns.Step(o, s.queue, QueueRuns.Abort(s.signal));
    EventKeeps(o, q, QueueRuns.End(false));
    KeepsOn(s.queue, q, EndStep(q, false));
    ClosedQueue(s);
  }

  lemma StartingKeeps(s: Session, caller: Option<nat>)
    requires SessionValid(s) && ThrownAtTheEnd(s.queue)
    ensures Keeps(s.queue, StartUnits(s, caller).queue)
  {
    if s.consumer == Idle {
      var d := DeriveSignal(s, caller);
      DeriveKeepsValid(s, caller);
      assert Kept(d.queue) == Kept(s.queue);
      EventKeeps(QueueOptions(s.config), d.queue, QueueRuns.Next(d.signal));
    }
  }

  lemma EndResumingKeeps(s: Session)
    requires SessionValid(s) && ThrownAtTheEnd(s.queue)
    ensures Keeps(s.queue, EndResumes(s).queue)
  {
    var o := QueueOptions(s.config);
    if s.native.CloseFailed? {
      EventKeeps(o, s.queue, QueueRuns.Fail(WrapNativeError(s.native.error)));
    } else {
      EventKeeps(o, s.queue, QueueRuns.End(true));
    }
  }

  lemma SameKeeps(q: State<Unit>)
    requires ThrownAtTheEnd(q)
    ensures Keeps(q, q)
  {
  }

  lemma ErrorKeeps(s: Session, e: Error)
    requires SessionValid(s) && ThrownAtTheEnd(s.queue)
    ensures Keeps(s.queue, NativeError(s, e).queue)
  {
    EventKeeps(QueueOptions(s.config), s.queue, QueueRuns.Fail(WrapNativeError(e)));
  }

  lemma PullingKeeps(s: Session)
    requires SessionValid(s) && ThrownAtTheEnd(s.queue) && s.consumer.Suspended?
    ensures Keeps(s.queue, CallNext(s).queue)
  {
    EventKeeps(QueueOptions(s.config), s.queue, QueueRuns.Next(s.signal));
  }

  lemma AbortingKeeps(s: Session, c: nat)
    requires SessionValid(s) && ThrownAtTheEnd(s.queue)
    ensures Keeps(s.queue, CallerAborts(s, c).queue)
  {
    SameKeeps(s.queue);
    EventKeeps(QueueOptions(s.config), s.queue, QueueRuns.Abort(s.signal));
  }

  /** Nothing is lost but by a delivery. */
  lemma OtherActsKeep(s: Session, a: Action)
    requires SessionValid(s) && ThrownAtTheEnd(s.queue) && !(a.DoEmit? && Enabled(s, a))
    ensures Keeps(s.queue, Act(s, a).queue)
  {
    SameKeeps(s.queue);
    if !Enabled(s, a) { return; }
    match a
    case DoError(e) => ErrorKeeps(s, e);
    case DoClose => ClosingKeeps(s);
    case DoResumeEnd => EndResumingKeeps(s);
    case DoStart(caller) => StartingKeeps(s, caller);
    case DoPull => PullingKeeps(s);
    case DoAbort(c) => AbortingKeeps(s, c);
    case _ => QueueStays(s, a);
  }

  // ---------------------------------------------------------------------------------------------
  // Lost to an overflow, or too late
  // ---------------------------------------------------------------------------------------------

  /** A unit delivered now is handed over or buffered without an overflow. */
  predicate HasRoom(s: Session)
  {
    s.queue.waiter.Some? || |s.queue.buffer| < QueueOptions(s.config).Capacity()
  }

  /** Every unit delivered while the queue was open found a request waiting or room in the buffer. */
  predicate AlwaysRoom(s: Session, actions: seq<Action>)
  {
    if actions == [] then true
    else
      var init, a := actions[..|actions| - 1], actions[|actions| - 1];
      var t := RunSession(s, init);
      AlwaysRoom(s, init) && (a.DoEmit? && Enabled(t, a) && !t.queue.ended ==> HasRoom(t))
  }

  /** The units delivered after the queue had ended. */
  function Late(s: Session, actions: seq<Action>): seq<Unit>
  {
    if actions == [] then []
    else
      var init, a := actions[..|actions| - 1], actions[|actions| - 1];
      var t := RunSession(s, init);
      Late(s, init) + if t.queue.ended then Made(t, a) else []
  }

  /** With room and outside a resync a unit is kept; without room, at least one is lost. */
  lemma EmitKeepsOrLoses(s: Session, n: NativeUnit)
    requires SessionValid(s) && ThrownAtTheEnd(s.queue)
    ensures var q, t, u := s.queue, Emit(s, n).queue, Numbered(s, n);
      && ThrownAtTheEnd(t) && |Kept(t)| <= |Kept(q)| + 1
      && (!q.ended && HasRoom(s) && !q.resyncing ==> Kept(t) == Kept(q) + [u] && !t.resyncing)
      && (q.ended || !HasRoom(s) ==> |Kept(t)| <= |Kept(q)|)
      && (q.ended ==> t == q)
  {
    var o, q, u := QueueOptions(s.config), s.queue, Numbered(s, n);
    if Admits(o, q, u) {
      if HasRoom(s) {
        RoomKeeps(o, q, u);
      } else {
        FullLoses(o, q, u);
      }
    }
  }

  lemma RoomKeeps(o: Options<Unit>, q: State<Unit>, u: Unit)
    requires Valid(q) && ThrownAtTheEnd(q) && Admits(o, q, u)
    requires q.waiter.Some? || |q.buffer| < o.Capacity()
    ensures var t := PushStep(o, q, u); Kept(t) == Kept(q) + [u] && ThrownAtTheEnd(t)
  {
    var t := PushStep(o, q, u);
    JoinOutcome(o, q, u);
    assert t.discarded == q.discarded == [];
    assert Contents(t) + [] == Contents(t) && Contents(q) + [] == Contents(q);
  }

  lemma FullLoses(o: Options<Unit>, q: State<Unit>, u: Unit)
    requires Valid(q) && ThrownAtTheEnd(q) && Admits(o, q, u) && 0 < o.Capacity()
    requires q.waiter.None? && |q.buffer| >= o.Capacity()
    ensures var t := PushStep(o, q, u); |Kept(t)| <= |Kept(q)| && ThrownAtTheEnd(t)
  {
    var t := PushStep(o, q, u);
    assert t.log == q.log && t.discarded == q.discarded && |t.buffer| <= o.Capacity();
  }

  /**
   * The exact law of loss, for every run of a transcoder: what is handed out, held or thrown away at
   * the end is all that was delivered, in that order, if and only if every delivery to the open queue
   * found a request or room and none came after the end; otherwise something is missing.
   */
  lemma {:induction false} KeptExactly(c: Config, actions: seq<Action>)
    ensures var q, made := RunSession(NewSession(c), actions).queue, Produced(NewSession(c), actions);
      var all := AlwaysRoom(NewSession(c), actions) && Late(NewSession(c), actions) == [];
      && ThrownAtTheEnd(q)
      && (Kept(q) == made <==> all)
      && (all ==> !q.resyncing) && (!all ==> |Kept(q)| < |made|)
    decreases |actions|
  {
    if actions != [] {
      var init, a := actions[..|actions| - 1], actions[|actions| - 1];
      var s := RunSession(NewSession(c), init);
      KeptExactly(c, init);
      RunKeepsSession(c, init);
      if a.DoEmit? && Enabled(s, a) {
        EmitKeepsOrLoses(s, a.unit);
      } else {
        OtherActsKeep(s, a);
        if !a.DoEmit? { OtherActsAreCalm(s, a); }
      }
    }
  }

  /** The queue has ended, or the native side has closed: nothing more will get in. */
  predicate NoMore(s: Session)
  {
    s.queue.ended || s.native.Closed? || s.native.CloseFailed?
  }

  lemma NothingGetsIn(s: Session, a: Action)
    requires SessionValid(s) && ThrownAtTheEnd(s.queue) && NoMore(s)
    ensures NoMore(Act(s, a)) && Keeps(s.queue, Act(s, a).queue)
  {
    if a.DoEmit? && Enabled(s, a) {
      EmitKeepsOrLoses(s, a.unit);
    } else {
      OtherActsKeep(s, a);
      if !a.DoEmit? { OtherActsAreCalm(s, a); }
    }
  }

  /** From then on nothing is lost: what is kept stays kept. */
  lemma {:induction false} KeptForGood(s: Session, actions: seq<Action>)
    requires SessionValid(s) && ThrownAtTheEnd(s.queue) && NoMore(s)
    ensures var t := RunSession(s, actions); SessionValid(t) && NoMore(t) && Keeps(s.queue, t.queue)
    decreases |actions|
  {
    if actions != [] {
      var init, a := actions[..|actions| - 1], actions[|actions| - 1];
      KeptForGood(s, init);
      ActKeepsValid(RunSession(s, init), a);
      NothingGetsIn(RunSession(s, init), a);
    }
  }

  // ---------------------------------------------------------------------------------------------
  // The audio of it
  // ---------------------------------------------------------------------------------------------

  lemma EmitAccountsForAudio(s: Session, n: NativeUnit)
    requires SessionValid(s) && s.config.isVideo && ThrownAtTheEnd(s.queue)
    requires |s.queue.buffer| <= QueueOptions(s.config).Capacity()
    ensures var t, u := Emit(s, n), Numbered(s, n); var o := QueueOptions(s.config);
      |Audios(Kept(t.queue))| + (if AudioOverflow(o, s.queue, u) then 1 else 0)
        + (if s.queue.ended && n.audio then 1 else 0)
        == |Audios(Kept(s.queue))| + (if n.audio then 1 else 0)
  {
    if !s.queue.ended {
      var t := Emit(s, n);
      EmitAudioBalance(s, n);
      EmitKeepsOrLoses(s, n);
      PushDiscardsNothing(QueueOptions(s.config), s.queue, Numbered(s, n));
      assert Contents(t.queue) + [] == Contents(t.queue) && Contents(s.queue) + [] == Contents(s.queue);
    }
  }

  lemma PushDiscardsNothing(o: Options<Unit>, q: State<Unit>, u: Unit)
    ensures PushStep(o, q, u).discarded == q.discarded
  {
  }

  /** The audio units made by an action, or those of them that come too late. */
  lemma MadeAudio(s: Session, a: Action, us: seq<Unit>)
    requires SessionValid(s) && s.config.isVideo
    ensures Act(s, a).audioSequence == s.audioSequence + |Audios(Made(s, a))|
    ensures |Audios(us + Made(s, a))| == |Audios(us)| + |Audios(Made(s, a))|
    ensures a.DoEmit? && Enabled(s, a) ==> |Audios(Made(s, a))| == if a.unit.audio then 1 else 0
  {
    if a.DoEmit? && Enabled(s, a) {
      FilterAppend(us, Numbered(s, a.unit), IsAudio);
      FilterAppend([], Numbered(s, a.unit), IsAudio);
      assert [] + Made(s, a) == Made(s, a);
    } else if !a.DoEmit? {
      OtherActsAreCalm(s, a);
      assert us + [] == us;
    } else {
      assert us + [] == us;
    }
  }

  lemma {:induction false} AudioIsNumbered(c: Config, actions: seq<Action>)
    requires c.isVideo
    ensures RunSession(NewSession(c), actions).audioSequence == |Audios(Produced(NewSession(c), actions))|
    decreases |actions|
  {
    if actions != [] {
      var init, a := actions[..|actions| - 1], actions[|actions| - 1];
      AudioIsNumbered(c, init);
      RunKeepsSession(c, init);
      MadeAudio(RunSession(NewSession(c), init), a, Produced(NewSession(c), init));
      assert Produced(NewSession(c), actions)
        == Produced(NewSession(c), init) + Made(RunSession(NewSession(c), init), a);
    }
  }

  lemma ActAccountsForAudio(s: Session, a: Action, late: seq<Unit>)
    requires SessionValid(s) && s.config.isVideo && ThrownAtTheEnd(s.queue)
    requires |s.queue.buffer| <= QueueOptions(s.config).Capacity()
    ensures var t := Act(s, a); var o := QueueOptions(s.config);
      var overflow := Enabled(s, a) && a.DoEmit? && AudioOverflow(o, s.queue, Numbered(s, a.unit));
      |Audios(Kept(t.queue))| + (if overflow then 1 else 0)
        + |Audios(late + if s.queue.ended then Made(s, a) else [])|
        == |Audios(Kept(s.queue))| + |Audios(late)| + t.audioSequence - s.audioSequence
  {
    MadeAudio(s, a, late);
    assert late + [] == late;
    if a.DoEmit? && Enabled(s, a) {
      EmitAccountsForAudio(s, a.unit);
    } else {
      OtherActsKeep(s, a);
    }
  }

  /**
   * The conservation law of the audio, for every run and through to its completion: what was produced
   * is what is handed out, held or thrown away at the end, and one unit for each time the whole buffer
   * was audio, and what came too late.
   */
  lemma {:induction false} AudioIsAccountedFor(c: Config, actions: seq<Action>)
    requires c.isVideo
    ensures |Audios(Kept(RunSession(NewSession(c), actions).queue))| + AudioOverflows(c, actions)
        + |Audios(Late(NewSession(c), actions))|
      == |Audios(Produced(NewSession(c), actions))|
    decreases |actions|
  {
    AudioIsNumbered(c, actions);
    if actions == [] {
      assert Kept(NewSession(c).queue) == [];
    } else {
      var init, a := actions[..|actions| - 1], actions[|actions| - 1];
      var s := RunSession(NewSession(c), init);
      AudioIsAccountedFor(c, init);
      AudioIsNumbered(c, init);
      RunKeepsSession(c, init);
      VideoRun(c, init);
      KeptExactly(c, init);
      ActAccountsForAudio(s, a, Late(NewSession(c), init));
      assert Late(NewSession(c), actions) == Late(NewSession(c), init) + if s.queue.ended then Made(s, a) else [];
    }
  }

  // ---------------------------------------------------------------------------------------------
  // What the pipeline yields in the end
  // ---------------------------------------------------------------------------------------------

  lemma {:induction false} RunPipeConcat(s: Pipe, a: seq<Move>, b: seq<Move>)
    ensures RunPipe(s, a + b) == RunPipe(RunPipe(s, a), b)
    decreases |b|
  {
    if b == [] {
      assert a + b == a;
    } else {
      RunPipeConcat(s, a, b[..|b| - 1]);
      assert (a + b)[..|a + b| - 1] == a + b[..|b| - 1];
    }
  }

  /** A state of a run: valid, with nothing thrown away before the queue ends, and as its story has it. */
  lemma StateOfRun(c: Config, before: seq<Action>, hasAudioSource: bool, hasSignal: bool, moves: seq<Move>)
    requires Unused(RunSession(NewSession(c), before))
    ensures var r := RunPipe(Start(RunSession(NewSession(c), before), hasAudioSource, hasSignal), moves);
      && PipeValid(r) && ThrownAtTheEnd(r.t.queue)
      && r.t == RunSession(NewSession(c), Story(c, before, hasAudioSource, hasSignal, moves))
  {
    ConsumersGetTheStream(c, before);
    StartIsValid(RunSession(NewSession(c), before), hasAudioSource, hasSignal);
    RunKeepsPipe(Start(RunSession(NewSession(c), before), hasAudioSource, hasSignal), moves);
    StoryRuns(c, before, hasAudioSource, hasSignal, moves);
    KeptExactly(c, Story(c, before, hasAudioSource, hasSignal, moves));
  }

  lemma NothingThrownAway(q: State<Unit>)
    requires q.discarded == []
    ensures Kept(q) == Contents(q)
  {
  }

  /**
   * The end of the stream loses nothing: whatever the queue held or had handed out when it ended, or
   * already when the native side closed, has been yielded once the pipeline is about to complete or
   * to throw the failure of a pump.
   */
  lemma EverythingHeldWasYielded(
    c: Config, before: seq<Action>, hasAudioSource: bool, hasSignal: bool, a: seq<Move>, b: seq<Move>)
    requires Unused(RunSession(NewSession(c), before))
    ensures var p := Start(RunSession(NewSession(c), before), hasAudioSource, hasSignal);
      NoMore(RunPipe(p, a).t) && AtItsEnd(RunPipe(p, a + b)) ==>
        PipeYields(p, a + b) == Contents(RunPipe(p, a).t.queue) && Unharmed(RunPipe(p, a + b))
  {
    var p := Start(RunSession(NewSession(c), before), hasAudioSource, hasSignal);
    var mid, r := RunPipe(p, a), RunPipe(p, a + b);
    if NoMore(mid.t) && AtItsEnd(r) {
      StateOfRun(c, before, hasAudioSource, hasSignal, a);
      RunPipeConcat(p, a, b);
      PipelineOperates(mid, b);
      KeptForGood(mid.t, AllOperations(mid, b));
      EndYieldsTheContents(c, before, hasAudioSource, hasSignal, a + b);
      NothingThrownAway(mid.t.queue);
      NothingThrownAway(r.t.queue);
    }
  }

  // ---------------------------------------------------------------------------------------------
  // Nothing comes too late for a pipeline that ends in order
  // ---------------------------------------------------------------------------------------------

  lemma {:induction false} LateConcat(s: Session, a: seq<Action>, b: seq<Action>)
    ensures Late(s, a + b) == Late(s, a) + Late(RunSession(s, a), b)
    decreases |b|
  {
    if b == [] {
      assert a + b == a;
    } else {
      var c := b[..|b| - 1];
      LateConcat(s, a, c);
      RunConcat(s, a, c);
      assert (a + b)[..|a + b| - 1] == a + c && (a + b)[|a + b| - 1] == b[|b| - 1];
    }
  }

  /** Before the queue ends nothing is too late. */
  lemma {:induction false} OpenIsInTime(c: Config, actions: seq<Action>)
    requires !RunSession(NewSession(c), actions).queue.ended
    ensures Late(NewSession(c), actions) == []
    decreases |actions|
  {
    if actions != [] {
      var init, a := actions[..|actions| - 1], actions[|actions| - 1];
      RunKeepsSession(c, init);
      if RunSession(NewSession(c), init).queue.ended {
        EndStays(RunSession(NewSession(c), init), a);
      }
      OpenIsInTime(c, init);
    }
  }

  lemma EndStays(s: Session, a: Action)
    requires SessionValid(s) && s.queue.ended
    ensures Act(s, a).queue.ended
  {
    if a.DoEmit? {
      PushStepEffect(QueueOptions(s.config), s.queue, Numbered(s, a.unit));
    } else {
      OtherActsAreCalm(s, a);
    }
  }

  /** Streaming without a native error, or at its end in order. */
  predicate OnCourse(s: Pipe)
  {
    (s.stage.Streaming? && s.t.queue.error.None?) || AtItsEnd(s)
  }

  /** On course the queue has ended only because the native side has closed. */
  predicate ClosedFirst(s: Pipe)
  {
    OnCourse(s) && s.t.queue.ended ==> s.t.native.Closed?
  }

  /** What a step of the session does to the end of the queue, its error, and the native side. */
  lemma WithinEnds(s: Session, a: Action)
    requires SessionValid(s) && Enabled(s, a)
    requires a.DoEmit? || a.DoError? || a.DoSettle? || a.DoResumeEnd? || a.DoAbort? || a.DoPull?
    ensures var t := Act(s, a);
      && (s.queue.ended ==> t.queue.ended && t.queue.error == s.queue.error)
      && (t.queue.error.None? ==> s.queue.error.None?)
      && (t.queue.ended && t.queue.error.None? && !s.queue.ended ==> t.native.Closed?)
      && (s.native.Closed? ==> t.native.Closed? && Made(s, a) == [])
  {
    match a
    case DoEmit(n) => PushStepEffect(QueueOptions(s.config), s.queue, Numbered(s, n));
    case DoAbort(_) => AbortEffect(s.queue, s.signal);
    case _ =>
  }

  lemma WithinClosesFirst(s: Pipe, a: Action)
    requires PipeValid(s) && ClosedFirst(s) && OfSession(s, a)
    ensures var r := s.(t := Act(s.t, a));
      && ClosedFirst(r) && (OnCourse(r) ==> OnCourse(s) && (s.t.queue.ended ==> Made(s.t, a) == []))
  {
    var r := s.(t := Act(s.t, a));
    WithinEnds(s.t, a);
    assert r.Aborted() || !s.Aborted();
    if AtItsEnd(s) { AtItsEndHasEnded(s); }
  }

  lemma AtItsEndHasEnded(s: Pipe)
    requires PipeValid(s) && AtItsEnd(s)
    ensures s.t.queue.ended
  {
  }

  /** What a step of the pump or of the end does to the native side, once that has closed: nothing. */
  lemma ClosedStays(s: Pipe, m: Move)
    requires SessionValid(s.t) && Possible(s, m) && s.t.native.Closed?
    ensures Make(s, m).t.native.Closed?
  {
    MoveOperates(s, m);
    NativeStays(s.t, Operations(s, m));
  }

  lemma {:induction false} NativeStays(s: Session, actions: seq<Action>)
    requires SessionValid(s) && s.native.Closed?
    ensures SessionValid(RunSession(s, actions)) && RunSession(s, actions).native.Closed?
    decreases |actions|
  {
    if actions != [] {
      NativeStays(s, actions[..|actions| - 1]);
      ActKeepsValid(RunSession(s, actions[..|actions| - 1]), actions[|actions| - 1]);
    }
  }

  lemma PumpClosesFirst(s: Pipe, m: Move)
    requires PipeValid(s) && ClosedFirst(s) && Possible(s, m)
    requires !m.Within? && !m.UnitSettles? && !m.ConsumerLeaves?
    ensures ClosedFirst(Make(s, m)) && (OnCourse(Make(s, m)) ==> OnCourse(s))
  {
    PumpsAreAnswerless(s, m);
    if s.t.native.Closed? { ClosedStays(s, m); }
  }

  lemma AfterAnswer(s: Pipe, answer: Result<Unit>)
    requires s.stage.Streaming?
    ensures var r := UnitArrives(s, answer);
      && (answer.Value? ==> r.stage == s.stage && r.t.queue == s.t.queue && r.t.native == s.t.native)
      && (answer.Done? ==> r.stage == Closing(Drained))
      && (answer.Rejected? ==> r.stage == Closing(Thrown(answer.error)))
      && r.Aborted() == s.Aborted()
  {
  }

  /** The consumer goes on, leaves its loop in order, or leaves it otherwise. */
  lemma LeavingClosesFirst(s: Pipe, r: Pipe)
    requires ClosedFirst(s) && s.stage.Streaming? && (s.t.native.Closed? ==> r.t.native.Closed?)
    requires
      || (r.stage == s.stage && r.t.queue == s.t.queue && r.t.native == s.t.native)
      || (r.stage == Closing(Drained) && (!r.Aborted() ==> s.t.queue.ended && s.t.queue.error.None?))
      || (r.stage.Closing? && r.stage.exit != Drained)
    ensures ClosedFirst(r) && (OnCourse(r) ==> OnCourse(s))
  {
  }

  lemma AnswerClosesFirst(s: Pipe, answer: Result<Unit>)
    requires PipeValid(s) && ClosedFirst(s) && Possible(s, UnitSettles(answer))
    ensures var r := Make(s, UnitSettles(answer)); ClosedFirst(r) && (OnCourse(r) ==> OnCourse(s))
  {
    var r := UnitArrives(s, answer);
    assert r == Make(s, UnitSettles(answer));
    if s.t.native.Closed? { ClosedStays(s, UnitSettles(answer)); }
    AfterAnswer(s, answer);
    DoneMeansEnded(s, answer);
    LeavingClosesFirst(s, r);
  }

  lemma ReturnClosesFirst(s: Pipe)
    requires PipeValid(s) && ClosedFirst(s) && Possible(s, ConsumerLeaves)
    ensures var r := Make(s, ConsumerLeaves); ClosedFirst(r) && (OnCourse(r) ==> OnCourse(s))
  {
    var r := LeaveLoop(s.(t := ReturnUnits(s.t)), Left);
    assert r == Make(s, ConsumerLeaves) && r.stage == Closing(Left);
  }

  lemma DoneMeansEnded(s: Pipe, answer: Result<Unit>)
    requires PipeValid(s) && Possible(s, UnitSettles(answer))
    ensures answer.Done? && !s.Aborted() ==> s.t.queue.ended && s.t.queue.error.None?
  {
  }

  /** The operations of a move deliver nothing, unless the move is a delivery itself. */
  lemma OnlyDeliveriesMake(s: Pipe, m: Move)
    requires !m.Within?
    ensures Late(s.t, Operations(s, m)) == []
  {
    var ops := Operations(s, m);
    assert forall i :: 0 <= i < |ops| ==> !ops[i].DoEmit?;
    NoDeliveryIsLate(s.t, ops);
  }

  lemma {:induction false} NoDeliveryIsLate(s: Session, actions: seq<Action>)
    requires forall i :: 0 <= i < |actions| ==> !actions[i].DoEmit?
    ensures Late(s, actions) == []
    decreases |actions|
  {
    if actions != [] {
      NoDeliveryIsLate(s, actions[..|actions| - 1]);
    }
  }

  lemma MoveIsInTime(s: Pipe, m: Move)
    requires PipeValid(s) && ClosedFirst(s)
    ensures ClosedFirst(Make(s, m))
    ensures OnCourse(Make(s, m)) ==> OnCourse(s) && Late(s.t, Operations(s, m)) == []
  {
    if !Possible(s, m) {
      assert Operations(s, m) == [];
    } else if m.Within? {
      WithinClosesFirst(s, m.action);
      var t := s.t;
      assert Operations(s, m) == [m.action] && [m.action][..0] == [] && RunSession(t, []) == t;
    } else {
      OnlyDeliveriesMake(s, m);
      if m.UnitSettles? {
        AnswerClosesFirst(s, m.answer);
      } else if m.ConsumerLeaves? {
        ReturnClosesFirst(s);
      } else {
        PumpClosesFirst(s, m);
      }
    }
  }

  lemma StartEndsNothing(t: Session, hasAudioSource: bool, hasSignal: bool)
    requires Unused(t)
    ensures var p := Start(t, hasAudioSource, hasSignal);
      ClosedFirst(p) && (OnCourse(p) ==> !t.queue.ended)
  {
    var p := Start(t, hasAudioSource, hasSignal);
    assert p.stage.Streaming? && p.t.queue.ended == t.queue.ended && p.t.queue.error == t.queue.error;
  }

  lemma StartIsNeverLate(c: Config, before: seq<Action>, caller: Option<nat>)
    requires !RunSession(NewSession(c), before).queue.ended
    ensures Late(NewSession(c), before + [DoStart(caller)]) == []
  {
    OpenIsInTime(c, before);
    LateConcat(NewSession(c), before, [DoStart(caller)]);
    NoDeliveryIsLate(RunSession(NewSession(c), before), [DoStart(caller)]);
  }

  lemma StoryBegins(c: Config, before: seq<Action>, hasAudioSource: bool, hasSignal: bool)
    ensures Story(c, before, hasAudioSource, hasSignal, [])
      == before + [DoStart(if hasSignal then Some(0) else None)]
  {
  }

  lemma StartIsInTime(c: Config, before: seq<Action>, hasAudioSource: bool, hasSignal: bool)
    requires Unused(RunSession(NewSession(c), before))
    ensures InTime(c, Start(RunSession(NewSession(c), before), hasAudioSource, hasSignal),
                   Story(c, before, hasAudioSource, hasSignal, []))
  {
    var t := RunSession(NewSession(c), before);
    StartEndsNothing(t, hasAudioSource, hasSignal);
    StoryBegins(c, before, hasAudioSource, hasSignal);
    if !t.queue.ended {
      StartIsNeverLate(c, before, if hasSignal then Some(0) else None);
    }
  }

  /** The invariant of `RunIsInTime`: on course, nothing has been too late. */
  predicate InTime(c: Config, s: Pipe, story: seq<Action>)
  {
    ClosedFirst(s) && (OnCourse(s) ==> Late(NewSession(c), story) == [])
  }

  lemma StoryGoesOn(
    c: Config, before: seq<Action>, hasAudioSource: bool, hasSignal: bool, init: seq<Move>, m: Move)
    ensures var p := Start(RunSession(NewSession(c), before), hasAudioSource, hasSignal);
      Story(c, before, hasAudioSource, hasSignal, init + [m])
        == Story(c, before, hasAudioSource, hasSignal, init) + Operations(RunPipe(p, init), m)
  {
    assert (init + [m])[..|init|] == init;
  }

  lemma StepIsInTime(c: Config, s: Pipe, m: Move, story: seq<Action>)
    requires PipeValid(s) && InTime(c, s, story) && s.t == RunSession(NewSession(c), story)
    ensures InTime(c, Make(s, m), story + Operations(s, m))
  {
    MoveIsInTime(s, m);
    LateConcat(NewSession(c), story, Operations(s, m));
  }

  lemma NextIsInTime(
    c: Config, before: seq<Action>, hasAudioSource: bool, hasSignal: bool, init: seq<Move>, m: Move)
    requires Unused(RunSession(NewSession(c), before))
    requires TimelyRun(c, before, hasAudioSource, hasSignal, init)
    ensures TimelyRun(c, before, hasAudioSource, hasSignal, init + [m])
  {
    var p := Start(RunSession(NewSession(c), before), hasAudioSource, hasSignal);
    StateOfRun(c, before, hasAudioSource, hasSignal, init);
    StepIsInTime(c, RunPipe(p, init), m, Story(c, before, hasAudioSource, hasSignal, init));
    StoryGoesOn(c, before, hasAudioSource, hasSignal, init, m);
    RunPipeAppend(p, init, m);
  }

  lemma RunPipeAppend(s: Pipe, init: seq<Move>, m: Move)
    ensures RunPipe(s, init + [m]) == Make(RunPipe(s, init), m)
  {
    assert (init + [m])[..|init|] == init;
  }

  predicate TimelyRun(c: Config, before: seq<Action>, hasAudioSource: bool, hasSignal: bool, moves: seq<Move>)
  {
    InTime(c, RunPipe(Start(RunSession(NewSession(c), before), hasAudioSource, hasSignal), moves),
           Story(c, before, hasAudioSource, hasSignal, moves))
  }

  lemma {:induction false} RunIsTimely(
    c: Config, before: seq<Action>, hasAudioSource: bool, hasSignal: bool, moves: seq<Move>)
    requires Unused(RunSession(NewSession(c), before))
    ensures TimelyRun(c, before, hasAudioSource, hasSignal, moves)
    decreases |moves|
  {
    if moves == [] {
      StartIsInTime(c, before, hasAudioSource, hasSignal);
    } else {
      RunIsTimely(c, before, hasAudioSource, hasSignal, moves[..|moves| - 1]);
      NextIsInTime(c, before, hasAudioSource, hasSignal, moves[..|moves| - 1], moves[|moves| - 1]);
      assert moves == moves[..|moves| - 1] + [moves[|moves| - 1]];
    }
  }

  /** A pipeline that is on course has had no unit come too late, and its queue ended only after the native side. */
  lemma RunIsInTime(
    c: Config, before: seq<Action>, hasAudioSource: bool, hasSignal: bool, moves: seq<Move>)
    requires Unused(RunSession(NewSession(c), before))
    ensures var r := RunPipe(Start(RunSession(NewSession(c), before), hasAudioSource, hasSignal), moves);
      && (OnCourse(r) ==> Late(NewSession(c), Story(c, before, hasAudioSource, hasSignal, moves)) == [])
      && (OnCourse(r) && r.t.queue.ended ==> r.t.native.Closed?)
  {
    RunIsTimely(c, before, hasAudioSource, hasSignal, moves);
  }

  // ---------------------------------------------------------------------------------------------
  // All that was produced
  // ---------------------------------------------------------------------------------------------

  lemma EndKeepsWhatItYields(
    c: Config, before: seq<Action>, hasAudioSource: bool, hasSignal: bool, moves: seq<Move>)
    requires Unused(RunSession(NewSession(c), before))
    ensures var p := Start(RunSession(NewSession(c), before), hasAudioSource, hasSignal);
      var story := Story(c, before, hasAudioSource, hasSignal, moves);
      AtItsEnd(RunPipe(p, moves)) ==>
        && PipeYields(p, moves) == Kept(RunSession(NewSession(c), story).queue)
        && Late(NewSession(c), story) == []
  {
    var p := Start(RunSession(NewSession(c), before), hasAudioSource, hasSignal);
    if AtItsEnd(RunPipe(p, moves)) {
      EndYieldsTheContents(c, before, hasAudioSource, hasSignal, moves);
      RunIsInTime(c, before, hasAudioSource, hasSignal, moves);
      ConsumersGetTheStream(c, before);
      StoryRuns(c, before, hasAudioSource, hasSignal, moves);
      NothingThrownAway(RunPipe(p, moves).t.queue);
    }
  }

  /**
   * "Everything already produced is still yielded", exactly: a pipeline about to complete, or to
   * throw the failure of a pump, has yielded all that the native side ever produced if and only if
   * every unit found a request waiting or room in the buffer. Otherwise some are missing.
   */
  lemma ProducedIsYieldedExactly(
    c: Config, before: seq<Action>, hasAudioSource: bool, hasSignal: bool, moves: seq<Move>)
    requires Unused(RunSession(NewSession(c), before))
    ensures var p := Start(RunSession(NewSession(c), before), hasAudioSource, hasSignal);
      var story := Story(c, before, hasAudioSource, hasSignal, moves);
      AtItsEnd(RunPipe(p, moves)) ==>
        && (PipeYields(p, moves) == Produced(NewSession(c), story) <==> AlwaysRoom(NewSession(c), story))
        && (!AlwaysRoom(NewSession(c), story) ==> |PipeYields(p, moves)| < |Produced(NewSession(c), story)|)
  {
    EndKeepsWhatItYields(c, before, hasAudioSource, hasSignal, moves);
    KeptExactly(c, Story(c, before, hasAudioSource, hasSignal, moves));
  }

  lemma {:induction false} SubseqIsShorter<T>(a: seq<T>, b: seq<T>)
    requires Subseq(a, b)
    ensures |a| <= |b| && (|a| == |b| ==> a == b)
    decreases |b|
  {
    if a != [] {
      var a', b' := a[..|a| - 1], b[..|b| - 1];
      if a[|a| - 1] == b[|b| - 1] && Subseq(a', b') {
        SubseqIsShorter(a', b');
        assert a == a' + [a[|a| - 1]] && b == b' + [b[|b| - 1]];
      } else {
        SubseqIsShorter(a, b');
      }
    }
  }

  lemma {:induction false} SubseqOfFilters<T>(a: seq<T>, b: seq<T>, p: T -> bool)
    requires Subseq(a, b)
    ensures Subseq(Filter(a, p), Filter(b, p))
    decreases |b|
  {
    if a != [] {
      var a', b', x := a[..|a| - 1], b[..|b| - 1], b[|b| - 1];
      FilterAppend(b', x, p);
      assert b == b' + [x];
      if a[|a| - 1] == x && Subseq(a', b') {
        SubseqOfFilters(a', b', p);
        FilterAppend(a', x, p);
        assert a == a' + [x];
        SubseqGrows(Filter(a', p), Filter(b', p), if p(x) then [x] else []);
      } else {
        SubseqOfFilters(a, b', p);
        SubseqGrows(Filter(a, p), Filter(b', p), if p(x) then [x] else []);
      }
    }
  }

  lemma {:induction false} SubseqGrows<T>(a: seq<T>, b: seq<T>, last: seq<T>)
    requires Subseq(a, b) && |last| <= 1
    ensures Subseq(a + last, b + last) && Subseq(a, b + last)
  {
    if last == [] {
      assert a + last == a && b + last == b;
    } else {
      SubseqAppend(a, b, last[0]);
      assert last == [last[0]];
    }
  }

  /**
   * The audio in the end: what is yielded and one unit for each time the whole buffer was audio make
   * up what was produced, so that all of it is yielded if and only if that never happened.
   */
  lemma AudioIsYieldedExactly(
    c: Config, before: seq<Action>, hasAudioSource: bool, hasSignal: bool, moves: seq<Move>)
    requires c.isVideo && Unused(RunSession(NewSession(c), before))
    ensures var p := Start(RunSession(NewSession(c), before), hasAudioSource, hasSignal);
      var story := Story(c, before, hasAudioSource, hasSignal, moves);
      var heard, made := Audios(PipeYields(p, moves)), Audios(Produced(NewSession(c), story));
      AtItsEnd(RunPipe(p, moves)) ==>
        && |heard| + AudioOverflows(c, story) == |made| && Subseq(heard, made)
        && (heard == made <==> AudioOverflows(c, story) == 0)
  {
    var p := Start(RunSession(NewSession(c), before), hasAudioSource, hasSignal);
    var story := Story(c, before, hasAudioSource, hasSignal, moves);
    var ys, made := PipeYields(p, moves), Produced(NewSession(c), story);
    EndKeepsWhatItYields(c, before, hasAudioSource, hasSignal, moves);
    AudioIsAccountedFor(c, story);
    PipelineGivesTheStream(c, before, hasAudioSource, hasSignal, moves);
    SubseqOfFilters(ys, made, IsAudio);
    SubseqIsShorter(Audios(ys), Audios(made));
  }
}
