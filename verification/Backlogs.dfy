/** Runs in which a consumer falls behind until the buffer is full, and what the next unit then costs. */
module Backlogs {
  import opened Sequences
  import opened UnitQueues
  import opened QueueRuns
  import opened Transcoders
  import opened TranscoderRuns
  import opened Pipelines
  import opened PipelineRuns
  import opened Streams
  import opened Outcomes
  import opened Deliveries

  /** The consumer is busy with a unit and the native side delivers the same one over and over. */
  function Flood(n: NativeUnit, count: nat): seq<Move>
  {
    if count == 0 then [] else Flood(n, count - 1) + [Within(DoEmit(n))]
  }

  /** The video has ended and `end()` waits for the native side, while the consumer is busy. */
  predicate Ending(s: Pipe)
  {
    && s.stage.Streaming? && s.t.consumer.Suspended? && s.video.Finishing? && !s.Aborted()
    && s.t.closing == ByEnd(false) && s.t.native.InFlight?
    && s.t.queue.waiter.None? && !s.t.queue.ended && !s.t.queue.resyncing
  }

  /** So many units are held, all of one track. */
  predicate Holds(s: Pipe, count: nat, audio: bool)
  {
    && Ending(s) && s.t.config.isVideo && |s.t.queue.buffer| == count
    && forall u :: u in s.t.queue.buffer ==> if audio then IsAudio(u) else IsVideo(u)
  }

  lemma DeliveryJoins(s: Pipe, n: NativeUnit, count: nat)
    requires Holds(s, count, n.audio) && count < QueueOptions(s.t.config).Capacity()
    ensures var r := Make(s, Within(DoEmit(n)));
      && Holds(r, count + 1, n.audio) && r.t.queue.log == s.t.queue.log && r.t.config == s.t.config
      && r.t.sequence == s.t.sequence + if n.audio then 0 else 1
  {
    WithinStep(s, DoEmit(n));
  }

  lemma {:induction false} Filling(s: Pipe, n: NativeUnit, count: nat)
    requires Holds(s, 0, n.audio) && count <= QueueOptions(s.t.config).Capacity()
    ensures var r := RunPipe(s, Flood(n, count));
      && Holds(r, count, n.audio) && r.t.queue.log == s.t.queue.log && r.t.config == s.t.config
      && r.t.sequence == s.t.sequence + if n.audio then 0 else count
  {
    if count > 0 {
      Filling(s, n, count - 1);
      DeliveryJoins(RunPipe(s, Flood(n, count - 1)), n, count - 1);
      assert Flood(n, count)[..|Flood(n, count)| - 1] == Flood(n, count - 1);
    }
  }

  /** The pipeline over a new transcoder, without audio source and signal. */
  function Plain(c: Config): Pipe
  {
    Start(NewSession(c), false, false)
  }

  /** One unit is yielded, and the video ends. */
  function Opening(c: Config, n: NativeUnit): seq<Move>
  {
    [Within(DoEmit(n)), UnitSettles(Value(Numbered(NewSession(c), n))), VideoEnds]
  }

  lemma NewIsUnused(c: Config)
    ensures RunSession(NewSession(c), []) == NewSession(c) && Unused(NewSession(c)) && PipeValid(Plain(c))
  {
    RunKeepsSession(c, []);
    StartIsValid(NewSession(c), false, false);
  }

  lemma FirstRequest(c: Config)
    ensures var t := Plain(c).t;
      && t == NewSession(c).(consumer := Awaiting(0), signal := 1, queue := t.queue)
      && t.queue == Init<Unit>().(issued := 1, waiter := Some(Waiter(0, 1)), listeners := t.queue.listeners)
  {
  }

  lemma FirstAnswer(o: Options<Unit>, q: State<Unit>, u: Unit)
    requires q == Init<Unit>().(issued := 1, waiter := Some(Waiter(0, 1)), listeners := q.listeners)
    ensures var t := PushStep(o, q, u);
      t == Init<Unit>().(issued := 1, log := [Settlement(0, Value(u))], listeners := t.listeners)
  {
  }

  lemma FirstUnit(c: Config, n: NativeUnit)
    requires c.isVideo
    ensures var u := Numbered(NewSession(c), n); var s := Make(Plain(c), Within(DoEmit(n)));
      && s.t.queue.log == [Settlement(0, Value(u))] && s.t.queue.buffer == [] && s.t.consumer == Awaiting(0)
      && s.t.queue.waiter.None? && !s.t.queue.ended && !s.t.queue.resyncing
      && s == Plain(c).(t := s.t) && s.t.native.NotCalled? && s.t.closing == Open && s.t.config == c
      && s.t.sequence == if n.audio then 0 else 1
  {
    var p := Plain(c);
    FirstRequest(c);
    FirstAnswer(QueueOptions(c), p.t.queue, Numbered(p.t, n));
    WithinStep(p, DoEmit(n));
  }

  lemma RunThree(s: Pipe, a: Move, b: Move, c: Move)
    ensures RunPipe(s, [a, b, c]) == Make(Make(Make(s, a), b), c)
  {
    assert [a, b, c][..2] == [a, b] && [a, b][..1] == [a] && [a][..0] == [];
    assert RunPipe(s, []) == s && RunPipe(s, [a]) == Make(s, a) && RunPipe(s, [a, b]) == Make(Make(s, a), b);
  }

  lemma Opened(c: Config, n: NativeUnit)
    requires c.isVideo
    ensures var s := RunPipe(Plain(c), Opening(c, n));
      && Holds(s, 0, n.audio) && s.t.queue.log == [Settlement(0, Value(Numbered(NewSession(c), n)))]
      && s.t.config == c && s.t.sequence == if n.audio then 0 else 1
  {
    var u := Numbered(NewSession(c), n);
    var s1 := Make(Plain(c), Within(DoEmit(n)));
    FirstUnit(c, n);
    var s2 := s1.(t := s1.t.(consumer := Suspended));
    assert Settlement(0, Value(u)) in s1.t.queue.log;
    assert Make(s1, UnitSettles(Value(u))) == s2;
    var s3 := Make(s2, VideoEnds);
    assert s3.t == BeginEnd(s2.t) && s3.video.Finishing? && s3.stage == s2.stage && !s3.hasSignal;
    RunThree(Plain(c), Within(DoEmit(n)), UnitSettles(Value(u)), VideoEnds);
  }

  /** Any number of units up to the capacity can be held when the video has ended. */
  lemma BacklogIsReached(c: Config, n: NativeUnit, count: nat)
    requires c.isVideo && count <= QueueOptions(c).Capacity()
    ensures var s := RunPipe(Plain(c), Opening(c, n) + Flood(n, count));
      && PipeValid(s) && Holds(s, count, n.audio)
      && s.t.queue.log == [Settlement(0, Value(Numbered(NewSession(c), n)))]
      && s.t.config == c && s.t.sequence == if n.audio then 0 else count + 1
  {
    NewIsUnused(c);
    Opened(c, n);
    Filling(RunPipe(Plain(c), Opening(c, n)), n, count);
    RunPipeConcat(Plain(c), Opening(c, n), Flood(n, count));
    RunKeepsPipe(Plain(c), Opening(c, n) + Flood(n, count));
  }

  // ---------------------------------------------------------------------------------------------
  // One more video unit costs the backlog
  // ---------------------------------------------------------------------------------------------

  /** The flush delivers a unit, the native close settles, `end()` resumes, and the consumer asks. */
  function Flush(s: Pipe, n: NativeUnit): Pipe
  {
    Make(Make(Make(Make(s, Within(DoEmit(n))), Within(DoSettle(None))), Within(DoResumeEnd)), Within(DoPull))
  }

  lemma FlushOverflows(s: Pipe, n: NativeUnit)
    requires Holds(s, QueueOptions(s.t.config).Capacity(), false) && !n.audio
    ensures var r := Make(s, Within(DoEmit(n)));
      && r == s.(t := r.t) && r.t.queue == s.t.queue.(buffer := [], resyncing := true, overflows := r.t.queue.overflows)
      && r.t.native == s.t.native && r.t.closing == s.t.closing && r.t.consumer == s.t.consumer
      && r.t.callerAborted == s.t.callerAborted && r.t.signal == s.t.signal
      && r.t.sequence == s.t.sequence + 1
  {
    var u := Numbered(s.t, n);
    WithinStep(s, DoEmit(n));
    OverflowOutcome(s.t.config, s.t.queue, u);
    var b := s.t.queue.buffer + [u];
    assert forall v :: v in b ==> !IsAudio(v);
    FilterExtremes(b, IsAudio);
  }

  lemma EmptyEnds(s: Pipe)
    requires s.stage.Streaming? && s.t.consumer.Suspended? && !s.t.queue.ended && s.t.queue.buffer == []
    requires s.t.queue.waiter.None? && s.t.closing == ByEnd(false) && s.t.native.InFlight?
    requires s.t.queue.error.None? && !s.t.queue.draining
    ensures var r := Make(Make(Make(s, Within(DoSettle(None))), Within(DoResumeEnd)), Within(DoPull));
      && r.stage.Streaming? && r.t.consumer == Awaiting(s.t.queue.issued)
      && r.t.queue.log == s.t.queue.log + [Settlement(s.t.queue.issued, Done)]
      && r.hasSignal == s.hasSignal && r.t.callerAborted == s.t.callerAborted && r.t.sequence == s.t.sequence
  {
    var a := s.(t := NativeSettles(s.t, None));
    assert Make(s, Within(DoSettle(None))) == a;
    var b := a.(t := EndResumes(a.t));
    assert Make(a, Within(DoResumeEnd)) == b && b.t.queue.ended && !b.t.queue.draining && b.t.queue.error.None?;
    WithinStep(b, DoPull);
  }

  lemma DoneAppends(log: seq<Settlement<Unit>>, p: nat)
    ensures Delivered(log + [Settlement(p, Done)]) == Delivered(log)
    ensures Settlement(p, Done) in log + [Settlement(p, Done)]
  {
    var x: Settlement<Unit> := Settlement(p, Done);
    assert (log + [x])[|log|] == x && (log + [x])[..|log|] == log;
    assert Delivered(log) + [] == Delivered(log);
  }

  lemma FlushAnswersDone(s: Pipe, n: NativeUnit)
    requires !s.t.queue.draining && s.t.queue.error.None?
    requires Holds(s, QueueOptions(s.t.config).Capacity(), false) && !n.audio
    ensures var f := Flush(s, n);
      && f.stage.Streaming? && f.t.consumer == Awaiting(s.t.queue.issued) && !f.Aborted()
      && f.t.queue.log == s.t.queue.log + [Settlement(s.t.queue.issued, Done)]
      && f.t.sequence == s.t.sequence + 1
  {
    FlushOverflows(s, n);
    EmptyEnds(Make(s, Within(DoEmit(n))));
  }

  /**
   * The end of the stream can cost everything held: with a full buffer of video, one more unit flushed
   * by the closing native side throws it all out, itself included, and the stream then ends in order.
   */
  lemma FlushCostsTheBacklog(s: Pipe, n: NativeUnit)
    requires PipeValid(s) && Holds(s, QueueOptions(s.t.config).Capacity(), false) && !n.audio
    ensures var r := Make(Flush(s, n), UnitSettles(Done));
      && AtItsEnd(r) && Unharmed(r) && r.t.sequence == s.t.sequence + 1
      && Contents(r.t.queue) == Delivered(s.t.queue.log)
  {
    FlushAnswersDone(s, n);
    DoneAppends(s.t.queue.log, s.t.queue.issued);
    StepsKeepPipe(s, [Within(DoEmit(n)), Within(DoSettle(None)), Within(DoResumeEnd), Within(DoPull)]);
    DoneInOrder(Flush(s, n), s.t.queue.issued);
  }

  lemma DoneInOrder(s: Pipe, p: nat)
    requires PipeValid(s) && s.stage.Streaming? && s.t.consumer == Awaiting(p) && !s.Aborted()
    requires Settlement(p, Done) in s.t.queue.log
    ensures var r := Make(s, UnitSettles(Done));
      && AtItsEnd(r) && Unharmed(r) && Contents(r.t.queue) == Delivered(s.t.queue.log)
      && r.t.sequence == s.t.sequence
  {
    DoneEndsTheLoop(s);
    LeavingInOrder(s);
  }

  lemma StepsKeepPipe(s: Pipe, moves: seq<Move>)
    requires PipeValid(s) && |moves| == 4
    ensures PipeValid(Make(Make(Make(Make(s, moves[0]), moves[1]), moves[2]), moves[3]))
  {
    MakeKeepsPipe(s, moves[0]);
    MakeKeepsPipe(Make(s, moves[0]), moves[1]);
    MakeKeepsPipe(Make(Make(s, moves[0]), moves[1]), moves[2]);
    MakeKeepsPipe(Make(Make(Make(s, moves[0]), moves[1]), moves[2]), moves[3]);
  }

  lemma LeavingInOrder(s: Pipe)
    requires PipeValid(s) && Possible(s, UnitSettles(Done)) && !s.Aborted()
    ensures var r := Make(s, UnitSettles(Done));
      && AtItsEnd(r) && Unharmed(r) && Contents(r.t.queue) == Delivered(s.t.queue.log)
      && r.t.sequence == s.t.sequence
  {
    var r := Make(s, UnitSettles(Done));
    assert r == UnitArrives(s, Done);
    AfterAnswer(s, Done);
    MakeKeepsPipe(s, UnitSettles(Done));
    ResumeKeepsValid(s.t, Done);
    CloseKeepsDelivered(ResumeUnits(s.t, Done));
    EndHoldsNothing(r);
    assert Contents(r.t.queue) == Delivered(r.t.queue.log) + [];
  }

  /** The flush, and the end of the loop. */
  function LastMoves(n: NativeUnit): seq<Move>
  {
    [Within(DoEmit(n)), Within(DoSettle(None)), Within(DoResumeEnd), Within(DoPull), UnitSettles(Done)]
  }

  /** The moves of such a run. */
  function LosingMoves(c: Config, n: NativeUnit): seq<Move>
  {
    Opening(c, n) + Flood(n, QueueOptions(c).Capacity()) + LastMoves(n)
  }

  lemma RunFive(s: Pipe, n: NativeUnit)
    ensures RunPipe(s, LastMoves(n)) == Make(Flush(s, n), UnitSettles(Done))
  {
    var a, b := [Within(DoEmit(n)), Within(DoSettle(None)), Within(DoResumeEnd)], [Within(DoPull), UnitSettles(Done)];
    var t := RunPipe(s, a);
    RunThree(s, a[0], a[1], a[2]);
    RunPipeConcat(s, a, b);
    assert b[..1] == [b[0]] && [b[0]][..0] == [] && RunPipe(t, []) == t && RunPipe(t, [b[0]]) == Make(t, b[0]);
    assert a + b == LastMoves(n);
  }

  /** How that run goes, on the state before the flush. */
  lemma LosingRun(c: Config, n: NativeUnit)
    requires c.isVideo && !n.audio
    ensures var r := RunPipe(Plain(c), LosingMoves(c, n));
      && AtItsEnd(r) && Unharmed(r) && r.t.sequence == QueueOptions(c).Capacity() + 2
      && Contents(r.t.queue) == Delivered([Settlement(0, Value(Numbered(NewSession(c), n)))])
  {
    var first := Opening(c, n) + Flood(n, QueueOptions(c).Capacity());
    BacklogIsReached(c, n, QueueOptions(c).Capacity());
    FlushCostsTheBacklog(RunPipe(Plain(c), first), n);
    RunFive(RunPipe(Plain(c), first), n);
    RunPipeConcat(Plain(c), first, LastMoves(n));
  }

  /**
   * A run from a new transcoder: the native side produces two units more than the capacity, the
   * source ends, nothing fails or aborts, and the pipeline ends in order having yielded the first one.
   */
  lemma OneUnitOfAll(c: Config, n: NativeUnit)
    requires c.isVideo && !n.audio
    ensures var r := RunPipe(Plain(c), LosingMoves(c, n));
      && AtItsEnd(r) && Unharmed(r) && r.t.sequence == QueueOptions(c).Capacity() + 2
      && PipeYields(Plain(c), LosingMoves(c, n)) == [Numbered(NewSession(c), n)]
  {
    var first: Settlement<Unit> := Settlement(0, Value(Numbered(NewSession(c), n)));
    NewIsUnused(c);
    LosingRun(c, n);
    EndYieldsTheContents(c, [], false, false, LosingMoves(c, n));
    DeliveredAppend([], first);
    assert [] + [first] == [first];
  }

  // ---------------------------------------------------------------------------------------------
  // One more audio unit costs the oldest
  // ---------------------------------------------------------------------------------------------

  /** Audio is dropped too: a buffer full of nothing but audio is reached, and one more unit pushes one out. */
  lemma AudioIsDropped(c: Config, n: NativeUnit)
    requires c.isVideo && n.audio
    ensures var moves := Opening(c, n) + Flood(n, QueueOptions(c).Capacity());
      var s, r := RunPipe(Plain(c), moves), RunPipe(Plain(c), moves + [Within(DoEmit(n))]);
      && AudioOverflow(QueueOptions(c), s.t.queue, Numbered(s.t, n))
      && r.t.queue.buffer == (s.t.queue.buffer + [Numbered(s.t, n)])[1..] && r.t.queue.log == s.t.queue.log
  {
    var capacity := QueueOptions(c).Capacity();
    var moves := Opening(c, n) + Flood(n, capacity);
    var s := RunPipe(Plain(c), moves);
    BacklogIsReached(c, n, capacity);
    WithinStep(s, DoEmit(n));
    OverflowOutcome(c, s.t.queue, Numbered(s.t, n));
    assert (moves + [Within(DoEmit(n))])[..|moves|] == moves;
  }
}
