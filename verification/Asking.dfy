/**
 * Liveness through the caller: once the native side has closed, a consumer that keeps asking gets
 * the pipeline to its end.
 */
module Asking {
  import opened UnitQueues
  import opened QueueRuns
  import opened Transcoders
  import opened Pipelines
  import opened PipelineRuns
  import opened Streams
  import opened Outcomes

  /** The native side has closed, or failed to: it delivers nothing more. */
  predicate Silenced(s: Pipe)
  {
    s.t.native.Closed? || s.t.native.CloseFailed?
  }

  /** The promise has been resolved with a unit. */
  predicate HandedUnit(log: seq<Settlement<Unit>>, promise: nat)
  {
    exists i :: 0 <= i < |log| && log[i].promise == promise && log[i].result.Value?
  }

  /** How many requests the consumer can still make: one for each unit held, and one to learn of the end. */
  function Asks(s: Pipe): (n: nat)
    ensures n <= |s.t.queue.buffer| + 1
  {
    if !s.stage.Streaming? then 0
    else match s.t.consumer
      case Idle => 0
      case Suspended => |s.t.queue.buffer| + 1
      case Awaiting(p) => if HandedUnit(s.t.queue.log, p) then |s.t.queue.buffer| + 1 else 0
  }

  predicate IsPull(m: Move) { m == Within(DoPull) }

  /** The requests made in a run. */
  function Pulls(s: Pipe, moves: seq<Move>): nat
  {
    if moves == [] then 0
    else
      var init, m := moves[..|moves| - 1], moves[|moves| - 1];
      Pulls(s, init) + if IsPull(m) && Possible(RunPipe(s, init), m) then 1 else 0
  }

  lemma HandedAppend(log: seq<Settlement<Unit>>, x: Settlement<Unit>, p: nat)
    ensures HandedUnit(log + [x], p) <==> HandedUnit(log, p) || (x.promise == p && x.result.Value?)
  {
    var all := log + [x];
    assert all[|log|] == x && forall i :: 0 <= i < |log| ==> all[i] == log[i];
  }

  /** No unit more is handed out, and none more is held. */
  predicate Quieter(q: State<Unit>, t: State<Unit>)
  {
    && |t.buffer| <= |q.buffer|
    && (t.log == q.log || (|t.log| == |q.log| + 1 && t.log[..|q.log|] == q.log && !t.log[|q.log|].result.Value?))
  }

  lemma QuieterHands(q: State<Unit>, t: State<Unit>, p: nat)
    requires Quieter(q, t)
    ensures HandedUnit(t.log, p) ==> HandedUnit(q.log, p)
  {
    if t.log != q.log {
      assert t.log == q.log + [t.log[|q.log|]];
      HandedAppend(q.log, t.log[|q.log|], p);
    }
  }

  lemma NoMoreToAsk(s: Pipe, r: Pipe)
    requires r.t.consumer == s.t.consumer && (r.stage.Streaming? ==> s.stage.Streaming?)
    requires Quieter(s.t.queue, r.t.queue)
    ensures Asks(r) <= Asks(s)
  {
    if s.t.consumer.Awaiting? { QuieterHands(s.t.queue, r.t.queue, s.t.consumer.promise); }
  }

  lemma EndsAreQuieter(q: State<Unit>, e: Error)
    ensures Quieter(q, FailStep(q, e)) && Quieter(q, EndStep(q, true))
  {
  }

  lemma AbortIsQuieter(q: State<Unit>, signal: nat)
    requires Valid(q)
    ensures Quieter(q, AbortStep(q, signal))
  {
    AbortEffect(q, signal);
  }

  lemma ResumingAsksNoMore(s: Pipe)
    requires OfSession(s, DoResumeEnd)
    ensures Asks(s.(t := EndResumes(s.t))) <= Asks(s)
  {
    EndsAreQuieter(s.t.queue, WrapNativeError(if s.t.native.CloseFailed? then s.t.native.error else Falsy));
    NoMoreToAsk(s, s.(t := EndResumes(s.t)));
  }

  lemma AbortingAsksNoMore(s: Pipe, signal: nat)
    requires Valid(s.t.queue) && OfSession(s, DoAbort(signal))
    ensures Asks(s.(t := CallerAborts(s.t, signal))) <= Asks(s)
  {
    AbortIsQuieter(s.t.queue, s.t.signal);
    NoMoreToAsk(s, s.(t := CallerAborts(s.t, signal)));
  }

  /** A request takes a unit, or is told of the end, or is parked for good but for the end. */
  lemma PullAsksLess(s: Pipe)
    requires SessionValid(s.t) && OfSession(s, DoPull)
    ensures Asks(s.(t := CallNext(s.t))) < Asks(s)
  {
    var q, p := s.t.queue, s.t.queue.issued;
    var t := NextStep(q, s.t.signal);
    assert !HandedUnit(q.log, p);
    if t.log != q.log {
      assert t.log == q.log + [t.log[|q.log|]];
      HandedAppend(q.log, t.log[|q.log|], p);
    }
  }

  lemma PumpAsksNoMore(s: Pipe, m: Move)
    requires Possible(s, m) && !m.Within? && !m.UnitSettles? && !m.ConsumerLeaves?
    ensures Asks(Make(s, m)) <= Asks(s)
  {
    PumpsAreAnswerless(s, m);
    NoMoreToAsk(s, Make(s, m));
  }

  lemma AnswerAsksNoMore(s: Pipe, answer: Result<Unit>)
    requires Possible(s, UnitSettles(answer))
    ensures Asks(UnitArrives(s, answer)) <= Asks(s)
  {
    var i :| 0 <= i < |s.t.queue.log| && s.t.queue.log[i] == Settlement(s.t.consumer.promise, answer);
    if answer.Value? {
      assert HandedUnit(s.t.queue.log, s.t.consumer.promise);
    }
  }

  lemma MoveAsks(s: Pipe, m: Move)
    requires SessionValid(s.t) && Silenced(s) && Possible(s, m)
    ensures Asks(Make(s, m)) + (if IsPull(m) then 1 else 0) <= Asks(s)
  {
    match m
    case Within(DoResumeEnd) => ResumingAsksNoMore(s);
    case Within(DoAbort(signal)) => AbortingAsksNoMore(s, signal);
    case Within(DoPull) => PullAsksLess(s);
    case UnitSettles(answer) => AnswerAsksNoMore(s, answer);
    case ConsumerLeaves =>
    case _ => PumpAsksNoMore(s, m);
  }

  lemma StaysSilenced(s: Pipe, m: Move)
    requires SessionValid(s.t) && Silenced(s) && Possible(s, m)
    ensures Silenced(Make(s, m))
  {
    MoveOperates(s, m);
    SilencedRun(s.t, Operations(s, m));
  }

  lemma {:induction false} SilencedRun(t: Session, actions: seq<Action>)
    requires SessionValid(t) && (t.native.Closed? || t.native.CloseFailed?)
    ensures SessionValid(RunSession(t, actions)) && RunSession(t, actions).native == t.native
    decreases |actions|
  {
    if actions != [] {
      SilencedRun(t, actions[..|actions| - 1]);
      ActKeepsValid(RunSession(t, actions[..|actions| - 1]), actions[|actions| - 1]);
    }
  }

  /** In every run from there, each request leaves one less to make. */
  lemma {:induction false} PullsAreCounted(s: Pipe, moves: seq<Move>)
    requires PipeValid(s) && Silenced(s)
    ensures var r := RunPipe(s, moves);
      PipeValid(r) && Silenced(r) && Pulls(s, moves) + Asks(r) <= Asks(s)
    decreases |moves|
  {
    if moves != [] {
      var init, m := moves[..|moves| - 1], moves[|moves| - 1];
      PullsAreCounted(s, init);
      MakeKeepsPipe(RunPipe(s, init), m);
      if Possible(RunPipe(s, init), m) {
        MoveAsks(RunPipe(s, init), m);
        StaysSilenced(RunPipe(s, init), m);
      }
    }
  }

  /** At rest the pipeline has finished, or the consumer can ask. */
  lemma RestIsTheConsumers(s: Pipe)
    requires PipeValid(s) && Silenced(s) && !Ready(s)
    ensures s.stage.Finished? || (Possible(s, Within(DoPull)) && Asks(s) > 0)
  {
    ValidWaitsOutside(s);
    SilencedIsNotLive(s);
    if s.t.consumer.Suspended? { SuspendedStreams(s); }
  }

  lemma SilencedIsNotLive(s: Pipe)
    requires CloseValid(s.t) && Silenced(s)
    ensures !Live(s) && !s.t.native.InFlight?
  {
  }

  lemma SuspendedStreams(s: Pipe)
    requires Base(s) && s.t.consumer.Suspended?
    ensures Possible(s, Within(DoPull)) && Asks(s) > 0
  {
  }

  /**
   * Whatever else happens, a consumer makes at most one request for each unit held when the native
   * side had closed, and one more; whenever the program is at rest it can make the next one, or the
   * pipeline has finished; and after that many requests it has.
   */
  lemma AskingFinishes(s: Pipe, moves: seq<Move>)
    requires Reached(s) && Silenced(s)
    ensures var r := RunPipe(s, moves);
      && Pulls(s, moves) <= |s.t.queue.buffer| + 1
      && (!Ready(r) ==> r.stage.Finished? || Possible(r, Within(DoPull)))
      && (!Ready(r) && Pulls(s, moves) == |s.t.queue.buffer| + 1 ==> r.stage.Finished?)
  {
    var r := RunPipe(s, moves);
    ReachedIsValid(s);
    PullsAreCounted(s, moves);
    if !Ready(r) { RestIsTheConsumers(r); }
  }

  /** A step of the program, or a request. */
  predicate Driven(m: Move) { Internal(m) || IsPull(m) }

  function Fuel(s: Pipe): nat
  {
    Rank(s) + 2 * Asks(s)
  }

  lemma PullRaisesRank(s: Pipe)
    requires Possible(s, Within(DoPull))
    ensures Rank(Make(s, Within(DoPull))) == Rank(s) + 1
  {
    WithinStep(s, DoPull);
  }

  lemma DrivenBurnsFuel(s: Pipe, m: Move)
    requires SessionValid(s.t) && Silenced(s) && Possible(s, m) && Driven(m)
    ensures Fuel(Make(s, m)) < Fuel(s)
  {
    MoveAsks(s, m);
    if IsPull(m) {
      PullRaisesRank(s);
    } else {
      InternalLowersRank(s, m);
    }
  }

  lemma {:induction false} DrivenRunIsShort(s: Pipe, moves: seq<Move>)
    requires PipeValid(s) && Silenced(s)
    requires forall i :: 0 <= i < |moves| ==> Driven(moves[i]) && Possible(RunPipe(s, moves[..i]), moves[i])
    ensures |moves| + Fuel(RunPipe(s, moves)) <= Fuel(s)
    decreases |moves|
  {
    if moves != [] {
      var init := moves[..|moves| - 1];
      assert forall i :: 0 <= i < |init| ==> init[..i] == moves[..i];
      DrivenRunIsShort(s, init);
      PullsAreCounted(s, init);
      DrivenBurnsFuel(RunPipe(s, init), moves[|moves| - 1]);
    }
  }

  /**
   * The program and a consumer that keeps asking, in whatever order they take their turns: they get
   * to the end, and in at most nine steps and two for each unit held.
   */
  lemma DrivenFinishes(s: Pipe, moves: seq<Move>)
    requires Reached(s) && Silenced(s)
    requires forall i :: 0 <= i < |moves| ==> Driven(moves[i]) && Possible(RunPipe(s, moves[..i]), moves[i])
    ensures |moves| <= 2 * |s.t.queue.buffer| + 9
    ensures var r := RunPipe(s, moves);
      r.stage.Finished? || exists m :: Driven(m) && Possible(r, m)
  {
    var r := RunPipe(s, moves);
    ReachedIsValid(s);
    DrivenRunIsShort(s, moves);
    AskingFinishes(s, moves);
    if Ready(r) {
      var m := ReadyMove(r);
      assert Driven(m) && Possible(r, m);
    } else if !r.stage.Finished? {
      assert Driven(Within(DoPull)) && Possible(r, Within(DoPull));
    }
  }
}
