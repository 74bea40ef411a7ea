/**
 * The transcoder around the queue: two clocks, per-track sequence numbers, a close-once native
 * handle, and the `units()` generator. Every function below is one synchronous segment of the
 * program; what runs between two `await`s is atomic, and the environment chooses the order.
 */
module Transcoders {
  import opened Integers
  import opened Sequences
  import opened UnitQueues
  import opened QueueRuns
  import opened Timing

  const MAX_BUFFERED_AUDIO_UNITS: nat := 500

  /** What `units()` yields. `data` stands for the payload, which passes through untouched. */
  datatype Unit =
    | Access(track: Track, data: nat, isKeyFrame: bool, sequence: nat, timestampMicros: int)
    | Jpeg(data: nat, sequence: nat, timestampMicros: int)

  datatype NativeUnit = NativeUnit(data: nat, isKeyFrame: bool, timestampMicros: int, audio: bool)

  datatype AccessUnit = AccessUnit(data: nat, isKeyFrame: bool, timestamp: int, receivedAt: Option<real>)

  datatype Config = Config(isVideo: bool, hasAudio: bool)

  predicate IsVideo(u: Unit) { u.Access? && u.track.Video? }
  predicate IsAudio(u: Unit) { u.Access? && u.track.Audio? }
  predicate DropsDuringResync(u: Unit) { IsVideo(u) && !u.isKeyFrame }
  predicate EndsResync(u: Unit) { IsVideo(u) && u.isKeyFrame }

  function QueueOptions(c: Config): Options<Unit>
  {
    if c.isVideo then
      Options(DropsDuringResync, EndsResync, Some(IsAudio),
              Some(MAX_BUFFERED_UNITS + if c.hasAudio then MAX_BUFFERED_AUDIO_UNITS else 0))
    else Options(_ => false, _ => true, None, None)
  }

  /** The `closePromise`: unset, the one of `end()`, or the native promise itself. */
  datatype Closing = Open | ByEnd(resumed: bool) | ByClose

  datatype NativeClose = NotCalled | InFlight | Closed | CloseFailed(error: Error)

  /** Where the active `units()` generator stands; `Idle` when there is none. */
  datatype Consumer = Idle | Awaiting(promise: nat) | Suspended

  datatype NativeCall =
    | PushCall(data: nat, micros: int, isKeyFrame: bool)
    | PushAudioCall(data: nat, micros: int)
    | RequestKeyFrame
    | CloseCall

  datatype Session = Session(
    config: Config,
    queue: State<Unit>,
    timeline: Timeline,
    sequence: nat,
    audioSequence: nat,
    closing: Closing,
    native: NativeClose,
    stopped: bool,             // the stop controller has aborted
    consumer: Consumer,
    signal: nat,               // combined abort signal of the latest units() call
    caller: Option<nat>,       // the caller's signal it derives from
    callerAborted: set<nat>,
    calls: seq<NativeCall>)    // every call made on the native handle
  {
    /** The `closePromise` has settled. */
    predicate CloseSettled()
    {
      match closing
      case Open => false
      case ByEnd(resumed) => resumed
      case ByClose => native.Closed? || native.CloseFailed?
    }
  }

  function NewSession(c: Config): Session
  {
    Session(c, Init(), NewTimeline(), 0, 0, Open, NotCalled, false, Idle, 0, None, {}, [])
  }

  /** Native failures are re-typed as error objects, which are truthy. */
  function WrapNativeError(e: Error): (r: Error)
    ensures r != Falsy && (e != Falsy ==> r == e)
  {
    if e == Falsy then Error(0) else e
  }

  const OPTION_ERROR := Error(1)

  // ---------------------------------------------------------------------------------------------
  // The synchronous segments
  // ---------------------------------------------------------------------------------------------

  function ArrivalTime(au: AccessUnit, now: real): real
  {
    if au.receivedAt.Some? then au.receivedAt.value else now
  }

  /** `push(au)`; `fault` is what the native call throws, if anything. */
  function Feed(s: Session, au: AccessUnit, now: real): (r: Session)
    ensures r.queue == s.queue && r.consumer == s.consumer && r.callerAborted == s.callerAborted
  {
    if s.closing != Open then s
    else
      var t := Stamp(s.timeline, Video, au.timestamp, ArrivalTime(au, now));
      s.(timeline := t, calls := s.calls + [PushCall(au.data, NativeMicros(t, Video), au.isKeyFrame)])
  }

  function FeedAudio(s: Session, au: AccessUnit, now: real): (r: Session)
    ensures r.queue == s.queue && r.consumer == s.consumer && r.callerAborted == s.callerAborted
  {
    if !s.config.hasAudio || s.closing != Open then s
    else
      var t := Stamp(s.timeline, Audio, au.timestamp, ArrivalTime(au, now));
      s.(timeline := t, calls := s.calls + [PushAudioCall(au.data, NativeMicros(t, Audio))])
  }

  function FeedThrows(s: Session, fault: Option<Error>): Option<Error>
  {
    if s.closing != Open || fault.None? then None else Some(WrapNativeError(fault.value))
  }

  function FeedAudioThrows(s: Session, fault: Option<Error>): Option<Error>
  {
    if !s.config.hasAudio then Some(OPTION_ERROR) else FeedThrows(s, fault)
  }

  function Numbered(s: Session, n: NativeUnit): Unit
  {
    if s.config.isVideo
    then Access(if n.audio then Audio else Video, n.data, n.isKeyFrame,
                if n.audio then s.audioSequence else s.sequence, n.timestampMicros)
    else Jpeg(n.data, s.sequence, n.timestampMicros)
  }

  /** The native side delivers a unit. */
  function Emit(s: Session, n: NativeUnit): Session
  {
    var audio := s.config.isVideo && n.audio;
    var q := PushStep(QueueOptions(s.config), s.queue, Numbered(s, n));
    s.(queue := q,
       sequence := s.sequence + if audio then 0 else 1,
       audioSequence := s.audioSequence + if audio then 1 else 0,
       calls := s.calls + if s.config.isVideo && q.overflows > s.queue.overflows then [RequestKeyFrame] else [])
  }

  function NativeError(s: Session, e: Error): Session
  {
    s.(queue := FailStep(s.queue, WrapNativeError(e)))
  }

  /** `handle.close()`, called only where the close promise is still unset. */
  function CloseNative(s: Session, how: Closing): Session
  {
    if s.closing == Open then s.(closing := how, native := InFlight, calls := s.calls + [CloseCall]) else s
  }

  function BeginEnd(s: Session): (r: Session)
    ensures r.queue == s.queue && r.consumer == s.consumer && r.callerAborted == s.callerAborted
  {
    CloseNative(s, ByEnd(false))
  }

  function Close(s: Session): Session
  {
    CloseNative(s.(stopped := true, queue := EndStep(AbortStep(s.queue, s.signal), false)), ByClose)
  }

  function NativeSettles(s: Session, failure: Option<Error>): Session
  {
    s.(native := if failure.None? then Closed else CloseFailed(failure.value))
  }

  /** The rest of `end()` once the native close has settled. */
  function EndResumes(s: Session): Session
  {
    s.(closing := ByEnd(true),
       queue :=
         if s.native.CloseFailed? then FailStep(s.queue, WrapNativeError(s.native.error))
         else EndStep(s.queue, true))
  }

  function CallNext(s: Session): Session
  {
    s.(consumer := Awaiting(s.queue.issued), queue := NextStep(s.queue, s.signal))
  }

  /** `AbortSignal.any` of the caller's signal and the stop controller's: aborted at birth if either is. */
  function DeriveSignal(s: Session, caller: Option<nat>): Session
  {
    var signal := s.signal + 1;
    var born := s.stopped || (caller.Some? && caller.value in s.callerAborted);
    s.(signal := signal, caller := caller,
       queue := s.queue.(aborted := s.queue.aborted + if born then {signal} else {}))
  }

  /** A generator starts: refused while another is active, else it derives its signal and asks. */
  function StartUnits(s: Session, caller: Option<nat>): Session
  {
    if s.consumer != Idle then s else CallNext(DeriveSignal(s, caller))
  }

  /** The awaited promise has settled: a value is yielded, anything else finishes the generator. */
  function ResumeUnits(s: Session, answer: Result<Unit>): Session
  {
    s.(consumer := if answer.Value? then Suspended else Idle)
  }

  function ReturnUnits(s: Session): Session
  {
    s.(consumer := Idle)
  }

  function CallerAborts(s: Session, c: nat): Session
  {
    s.(callerAborted := s.callerAborted + {c},
       queue := if s.caller == Some(c) then AbortStep(s.queue, s.signal) else s.queue)
  }

  // ---------------------------------------------------------------------------------------------
  // Runs
  // ---------------------------------------------------------------------------------------------

  datatype Action =
    | DoPush(au: AccessUnit, now: real)
    | DoPushAudio(au: AccessUnit, now: real)
    | DoEmit(unit: NativeUnit)
    | DoError(error: Error)
    | DoEnd
    | DoClose
    | DoSettle(failure: Option<Error>)
    | DoResumeEnd
    | DoStart(caller: Option<nat>)
    | DoResumeUnits(answer: Result<Unit>)
    | DoPull
    | DoReturn
    | DoAbort(signal: nat)

  /** The native side calls back only until its close settles; the rest is what each `await` demands. */
  predicate Enabled(s: Session, a: Action)
  {
    match a
    case DoEmit(_) => s.native.NotCalled? || s.native.InFlight?
    case DoError(_) => s.native.NotCalled? || s.native.InFlight?
    case DoSettle(_) => s.native.InFlight?
    case DoResumeEnd => s.closing == ByEnd(false) && (s.native.Closed? || s.native.CloseFailed?)
    case DoResumeUnits(r) => s.consumer.Awaiting? && Settlement(s.consumer.promise, r) in s.queue.log
    case DoPull => s.consumer.Suspended?
    case DoReturn => s.consumer.Suspended?
    case _ => true
  }

  /** An action that is not possible now does nothing, so that every sequence of actions is a run. */
  function Act(s: Session, a: Action): Session
  {
    if !Enabled(s, a) then s
    else
      match a
      case DoPush(au, now) => Feed(s, au, now)
      case DoPushAudio(au, now) => FeedAudio(s, au, now)
      case DoEmit(n) => Emit(s, n)
      case DoError(e) => NativeError(s, e)
      case DoEnd => BeginEnd(s)
      case DoClose => Close(s)
      case DoSettle(failure) => NativeSettles(s, failure)
      case DoResumeEnd => EndResumes(s)
      case DoStart(caller) => StartUnits(s, caller)
      case DoResumeUnits(r) => ResumeUnits(s, r)
      case DoPull => CallNext(s)
      case DoReturn => ReturnUnits(s)
      case DoAbort(c) => CallerAborts(s, c)
  }

  function RunSession(s: Session, actions: seq<Action>): Session
  {
    if actions == [] then s else Act(RunSession(s, actions[..|actions| - 1]), actions[|actions| - 1])
  }

  // ---------------------------------------------------------------------------------------------
  // The invariant of every run
  // ---------------------------------------------------------------------------------------------

  ghost predicate ConsumerValid(s: Session)
  {
    && (s.queue.waiter.Some? ==>
         s.consumer == Awaiting(s.queue.waiter.value.promise) && s.queue.waiter.value.signal == s.signal)
    && (s.consumer.Awaiting? ==> s.consumer.promise < s.queue.issued)
    && (s.signal in s.queue.aborted <==> s.stopped || (s.caller.Some? && s.caller.value in s.callerAborted))
    && (forall x :: x in s.queue.aborted ==> x <= s.signal)
  }

  ghost predicate CloseValid(s: Session)
  {
    && (s.closing == Open <==> s.native.NotCalled?)
    && (s.closing == ByEnd(true) ==> s.queue.ended && !s.native.InFlight?)
    && (s.stopped ==> s.closing != Open && s.queue.ended && !s.queue.draining)
    && (s.closing == ByClose ==> s.stopped)
    && (s.closing == Open ==> CloseCall !in s.calls)
    && (forall i, j :: 0 <= i < j < |s.calls| && s.calls[i] == CloseCall ==> s.calls[j] == RequestKeyFrame)
  }

  ghost predicate SessionValid(s: Session)
  {
    Valid(s.queue) && ConsumerValid(s) && CloseValid(s)
  }

  lemma PushStepEffect(o: Options<Unit>, q: State<Unit>, u: Unit)
    ensures var t := PushStep(o, q, u);
      && t.ended == q.ended && t.draining == q.draining && (q.ended ==> t == q)
      && (t.waiter.Some? ==> t.waiter == q.waiter)
      && t.issued == q.issued && t.aborted == q.aborted
  {
  }

  /** What a step that is neither a request nor an abort does to the parts the session relies on. */
  lemma PlainStepEffect(o: Options<Unit>, q: State<Unit>, e: QueueRuns.Event<Unit>)
    requires !e.Next? && !e.Abort?
    ensures var t := QueueRuns.Step(o, q, e);
      && (q.ended ==> t.ended && (!q.draining ==> !t.draining))
      && (t.waiter.Some? ==> t.waiter == q.waiter)
      && t.issued == q.issued && t.aborted == q.aborted
  {
    if e.Push? {
      PushStepEffect(o, q, e.unit);
    }
  }

  lemma AbortStepEffect(q: State<Unit>, signal: nat)
    requires Valid(q)
    ensures var t := AbortStep(q, signal);
      && t.ended == q.ended && t.draining == q.draining
      && (t.waiter.Some? ==> t.waiter == q.waiter)
      && t.issued == q.issued && t.aborted == q.aborted + {signal}
  {
    AbortEffect(q, signal);
  }

  lemma NextStepEffect(q: State<Unit>, signal: nat)
    ensures var t := NextStep(q, signal);
      && (q.ended ==> t.ended && (!q.draining ==> !t.draining))
      && t.issued == q.issued + 1 && t.aborted == q.aborted
  {
  }

  lemma QueueKeepsItsEnd(o: Options<Unit>, q: State<Unit>, e: QueueRuns.Event<Unit>)
    requires Valid(q) && (e.Next? ==> q.waiter.None?)
    ensures var t := QueueRuns.Step(o, q, e);
      && Valid(t)
      && (q.ended ==> t.ended && (!q.draining ==> !t.draining))
      && (t.waiter.Some? && !e.Next? ==> t.waiter == q.waiter)
      && t.issued == q.issued + (if e.Next? then 1 else 0)
      && t.aborted == q.aborted + (if e.Abort? then {e.signal} else {})
  {
    StepKeepsValid(o, q, e);
    match e
    case Abort(signal) => AbortStepEffect(q, signal);
    case Next(signal) => NextStepEffect(q, signal);
    case _ => PlainStepEffect(o, q, e);
  }

  lemma QueueActionKeepsValid(s: Session, e: QueueRuns.Event<Unit>, t: Session)
    requires SessionValid(s) && !e.Next? && !e.Abort?
    requires t == s.(queue := QueueRuns.Step(QueueOptions(s.config), s.queue, e))
    ensures SessionValid(t)
  {
    QueueKeepsItsEnd(QueueOptions(s.config), s.queue, e);
  }

  lemma EmitKeepsValid(s: Session, n: NativeUnit)
    requires SessionValid(s)
    ensures SessionValid(Emit(s, n))
  {
    QueueKeepsItsEnd(QueueOptions(s.config), s.queue, QueueRuns.Push(Numbered(s, n)));
  }

  /** The queue after `close()`: nothing is held, nobody is parked, and the signal has fired. */
  lemma StoppedQueue(q: State<Unit>, signal: nat)
    requires Valid(q)
    ensures var t := EndStep(AbortStep(q, signal), false);
      && Valid(t) && t.ended && !t.draining && t.waiter.None?
      && t.issued == q.issued && t.aborted == q.aborted + {signal}
  {
    QueueRuns.AbortKeepsValid(q, signal);
    AbortStepEffect(q, signal);
    EndKeepsValid(AbortStep(q, signal), false);
  }

  /** `close()` in its two halves: the queue stops, then the native side is told, once. */
  lemma StopKeepsConsumer(s: Session, r: Session)
    requires ConsumerValid(s) && r == s.(stopped := true, queue := r.queue)
    requires r.queue.waiter.None? && r.queue.issued == s.queue.issued
    requires r.queue.aborted == s.queue.aborted + {s.signal}
    ensures ConsumerValid(r)
  {
  }

  lemma TellNative(s: Session, r: Session)
    requires CloseValid(s) && r == s.(stopped := true, queue := r.queue)
    requires r.queue.ended && !r.queue.draining
    ensures CloseValid(CloseNative(r, ByClose))
  {
  }

  lemma CloseKeepsValid(s: Session)
    requires SessionValid(s)
    ensures SessionValid(Close(s))
  {
    var r := s.(stopped := true, queue := EndStep(AbortStep(s.queue, s.signal), false));
    StoppedQueue(s.queue, s.signal);
    StopKeepsConsumer(s, r);
    TellNative(s, r);
  }

  lemma EndResumesKeepsValid(s: Session)
    requires SessionValid(s) && Enabled(s, DoResumeEnd)
    ensures SessionValid(EndResumes(s))
  {
    var e := if s.native.CloseFailed? then QueueRuns.Fail(WrapNativeError(s.native.error)) else QueueRuns.End(true);
    QueueKeepsItsEnd(QueueOptions(s.config), s.queue, e);
  }

  lemma CallNextKeepsValid(s: Session)
    requires SessionValid(s) && s.queue.waiter.None?
    ensures SessionValid(CallNext(s))
  {
    QueueKeepsItsEnd(QueueOptions(s.config), s.queue, QueueRuns.Next(s.signal));
  }

  lemma DeriveKeepsValid(s: Session, caller: Option<nat>)
    requires SessionValid(s) && s.consumer == Idle
    ensures SessionValid(DeriveSignal(s, caller))
  {
  }

  lemma StartKeepsValid(s: Session, caller: Option<nat>)
    requires SessionValid(s)
    ensures SessionValid(StartUnits(s, caller))
  {
    if s.consumer == Idle {
      DeriveKeepsValid(s, caller);
      CallNextKeepsValid(DeriveSignal(s, caller));
    }
  }

  lemma AbortKeepsValid(s: Session, c: nat)
    requires SessionValid(s)
    ensures SessionValid(CallerAborts(s, c))
  {
    QueueKeepsItsEnd(QueueOptions(s.config), s.queue, QueueRuns.Abort(s.signal));
  }

  lemma FeedKeepsValid(s: Session, au: AccessUnit, now: real)
    requires SessionValid(s)
    ensures SessionValid(Feed(s, au, now))
  {
  }

  lemma FeedAudioKeepsValid(s: Session, au: AccessUnit, now: real)
    requires SessionValid(s)
    ensures SessionValid(FeedAudio(s, au, now))
  {
  }

  lemma BeginEndKeepsValid(s: Session)
    requires SessionValid(s)
    ensures SessionValid(BeginEnd(s))
  {
  }

  lemma ResumeKeepsValid(s: Session, answer: Result<Unit>)
    requires SessionValid(s) && Enabled(s, DoResumeUnits(answer))
    ensures SessionValid(ResumeUnits(s, answer))
  {
  }

  lemma ReturnKeepsValid(s: Session)
    requires SessionValid(s) && s.consumer.Suspended?
    ensures SessionValid(ReturnUnits(s))
  {
  }

  lemma ActKeepsValid(s: Session, a: Action)
    requires SessionValid(s)
    ensures SessionValid(Act(s, a))
  {
    if !Enabled(s, a) { return; }
    match a
    case DoEmit(n) => EmitKeepsValid(s, n);
    case DoError(e) => QueueActionKeepsValid(s, QueueRuns.Fail(WrapNativeError(e)), Act(s, a));
    case DoClose => CloseKeepsValid(s);
    case DoResumeEnd => EndResumesKeepsValid(s);
    case DoStart(caller) => StartKeepsValid(s, caller);
    case DoPull => CallNextKeepsValid(s);
    case DoAbort(c) => AbortKeepsValid(s, c);
    case DoPush(au, now) => FeedKeepsValid(s, au, now);
    case DoPushAudio(au, now) => FeedAudioKeepsValid(s, au, now);
    case DoEnd => BeginEndKeepsValid(s);
    case DoSettle(_) =>
    case DoResumeUnits(r) => ResumeKeepsValid(s, r);
    case DoReturn => ReturnKeepsValid(s);
  }

  lemma {:induction false} RunKeepsSession(c: Config, actions: seq<Action>)
    ensures SessionValid(RunSession(NewSession(c), actions))
    ensures RunSession(NewSession(c), actions).config == c
    decreases |actions|
  {
    if actions != [] {
      RunKeepsSession(c, actions[..|actions| - 1]);
      ActKeepsValid(RunSession(NewSession(c), actions[..|actions| - 1]), actions[|actions| - 1]);
    }
  }

  // ---------------------------------------------------------------------------------------------
  // The transcoder itself
  // ---------------------------------------------------------------------------------------------

  class Transcoder {
    const isVideo: bool
    const hasAudio: bool
    const queue: UnitQueue<Unit>
    const clock: TimestampConverter
    const audioClock: TimestampConverter
    var sequence: nat
    var audioSequence: nat
    var originMs: Option<real>
    var videoOffset: Option<int>
    var audioOffset: Option<int>
    var closing: Closing
    var native: NativeClose
    var stopped: bool
    var consumer: Consumer
    var signal: nat
    var caller: Option<nat>
    var callerAborted: set<nat>
    var calls: seq<NativeCall>

    ghost predicate WellFormed()
      reads this
    {
      && queue.opts == QueueOptions(Config(isVideo, hasAudio))
      && clock != audioClock && clock.clockRate == CLOCK_RATE && audioClock.clockRate == AUDIO_CLOCK_RATE
    }

    ghost function View(): Session
      reads this, queue, clock, audioClock
    {
      Session(Config(isVideo, hasAudio), queue.View(),
              Timeline(clock.View(), audioClock.View(), originMs, videoOffset, audioOffset),
              sequence, audioSequence, closing, native, stopped, consumer, signal, caller, callerAborted, calls)
    }

    constructor (config: Config)
      ensures WellFormed() && View() == NewSession(config)
      ensures fresh(queue) && fresh(clock) && fresh(audioClock)
    {
      isVideo, hasAudio := config.isVideo, config.hasAudio;
      queue := new UnitQueue(QueueOptions(config));
      clock := new TimestampConverter(CLOCK_RATE);
      audioClock := new TimestampConverter(AUDIO_CLOCK_RATE);
      sequence, audioSequence := 0, 0;
      originMs, videoOffset, audioOffset := None, None, None;
      closing, native, stopped, consumer := Open, NotCalled, false, Idle;
      signal, caller, callerAborted, calls := 0, None, {}, [];
    }

    method OffsetFromOrigin(now: real) returns (offset: int)
      modifies this`originMs
      ensures originMs == if old(originMs).None? then Some(now) else old(originMs)
      ensures offset == OffsetFrom(originMs.value, now)
    {
      if originMs.None? {
        originMs := Some(now);
      }
      offset := Max(0, Round((now - originMs.value) * 1000.0));
    }

    /** `fault` is what the native call throws, if it does. */
    method Push(au: AccessUnit, now: real, fault: Option<Error>) returns (thrown: Option<Error>)
      requires WellFormed()
      modifies this, clock
      ensures WellFormed() && View() == Feed(old(View()), au, now) && thrown == FeedThrows(old(View()), fault)
    {
      if closing != Open {
        return None;
      }
      var micros := clock.ToMicros(au.timestamp);
      if videoOffset.None? {
        var offset := OffsetFromOrigin(ArrivalTime(au, now));
        videoOffset := Some(offset);
      }
      calls := calls + [PushCall(au.data, micros + videoOffset.value, au.isKeyFrame)];
      thrown := if fault.None? then None else Some(WrapNativeError(fault.value));
    }

    method PushAudio(au: AccessUnit, now: real, fault: Option<Error>) returns (thrown: Option<Error>)
      requires WellFormed()
      modifies this, audioClock
      ensures WellFormed() && View() == FeedAudio(old(View()), au, now) && thrown == FeedAudioThrows(old(View()), fault)
    {
      if !hasAudio {
        return Some(OPTION_ERROR);
      }
      if closing != Open {
        return None;
      }
      var micros := audioClock.ToMicros(au.timestamp);
      if audioOffset.None? {
        var offset := OffsetFromOrigin(ArrivalTime(au, now));
        audioOffset := Some(offset);
      }
      calls := calls + [PushAudioCall(au.data, micros + audioOffset.value)];
      thrown := if fault.None? then None else Some(WrapNativeError(fault.value));
    }

    method OnUnit(unit: NativeUnit)
      requires WellFormed()
      modifies this, queue
      ensures WellFormed() && View() == Emit(old(View()), unit)
    {
      var out: Unit;
      if isVideo {
        if unit.audio {
          out := Access(Audio, unit.data, unit.isKeyFrame, audioSequence, unit.timestampMicros);
          audioSequence := audioSequence + 1;
        } else {
          out := Access(Video, unit.data, unit.isKeyFrame, sequence, unit.timestampMicros);
          sequence := sequence + 1;
        }
      } else {
        out := Jpeg(unit.data, sequence, unit.timestampMicros);
        sequence := sequence + 1;
      }
      var overflows := queue.overflows;
      queue.Push(out);
      if isVideo && queue.overflows > overflows {
        calls := calls + [RequestKeyFrame];
      }
    }

    method OnError(err: Error)
      requires WellFormed()
      modifies queue
      ensures WellFormed() && View() == NativeError(old(View()), err)
    {
      queue.Fail(WrapNativeError(err));
    }

    method CloseHandle(how: Closing)
      requires WellFormed()
      modifies this
      ensures WellFormed() && View() == CloseNative(old(View()), how)
    {
      if closing == Open {
        native, calls, closing := InFlight, calls + [CloseCall], how;
      }
    }

    /** `end()` up to its first await. */
    method EndStream()
      requires WellFormed()
      modifies this
      ensures WellFormed() && View() == BeginEnd(old(View()))
    {
      CloseHandle(ByEnd(false));
    }

    /** The rest of `end()`, once the native close has settled. */
    method ResumeEnd()
      requires WellFormed() && closing == ByEnd(false) && (native.Closed? || native.CloseFailed?)
      modifies this, queue
      ensures WellFormed() && View() == EndResumes(old(View()))
    {
      if native.CloseFailed? {
        queue.Fail(WrapNativeError(native.error));
      } else {
        queue.End(true);
      }
      closing := ByEnd(true);
    }

    method CloseNow()
      requires WellFormed()
      modifies this, queue
      ensures WellFormed() && View() == Close(old(View()))
    {
      stopped := true;
      queue.Abort(signal);
      queue.End(false);
      CloseHandle(ByClose);
    }

    /** `units(signal)` up to its first await; refused while another consumer is active. */
    method Units(callerSignal: Option<nat>) returns (refused: bool)
      requires WellFormed()
      modifies this, queue
      ensures WellFormed() && View() == StartUnits(old(View()), callerSignal)
      ensures refused <==> old(consumer) != Idle
    {
      refused := consumer != Idle;
      if !refused {
        CombineSignals(callerSignal);
        RequestNext();
      }
    }

    method CombineSignals(callerSignal: Option<nat>)
      requires WellFormed()
      modifies this`signal, this`caller, queue`aborted
      ensures WellFormed() && View() == DeriveSignal(old(View()), callerSignal)
    {
      signal, caller := signal + 1, callerSignal;
      if stopped || (callerSignal.Some? && callerSignal.value in callerAborted) {
        queue.aborted := queue.aborted + {signal};
      }
    }

    method RequestNext()
      requires WellFormed()
      modifies this`consumer, queue
      ensures WellFormed() && View() == CallNext(old(View()))
    {
      var promise := queue.Next(signal);
      consumer := Awaiting(promise);
    }
  }
}