/**
 * The single-consumer queue between the native callback and `units()`: a bounded FIFO with one
 * parked waiter, a draining and a discarding end, and resynchronisation after an overflow.
 *
 * `State` is the queue together with what the rest of the program can observe of it: the promises
 * handed out by `next()`, the settlements of those promises in order, and the abort listeners.
 */
module UnitQueues {
  import opened Sequences

  const MAX_BUFFERED_UNITS: nat := 60

  /** A rejection reason. `Falsy` stands for the values that an `if (error)` test treats as absent. */
  datatype Error = Error(id: nat) | Falsy

  datatype Result<+T> = Value(value: T) | Done | Rejected(error: Error)

  /** One call of the resolve or reject function of the promise numbered `promise`. */
  datatype Settlement<+T> = Settlement(promise: nat, result: Result<T>)

  /** A parked `next()`: its promise and the abort signal it listens to. */
  datatype Waiter = Waiter(promise: nat, signal: nat)

  datatype Options<!T> = Options(
    dropsDuringResync: T -> bool,
    endsResync: T -> bool,
    keepOnOverflow: Option<T -> bool>,
    capacity: Option<nat>)
  {
    function Capacity(): nat { if capacity.Some? then capacity.value else MAX_BUFFERED_UNITS }
  }

  datatype State<+T> = State(
    buffer: seq<T>,
    waiter: Option<Waiter>,
    ended: bool,
    draining: bool,
    error: Option<Error>,
    resyncing: bool,
    issued: nat,                // promises handed out so far
    log: seq<Settlement<T>>,    // their settlements, oldest first
    listeners: seq<Waiter>,     // registered abort listeners
    aborted: set<nat>,          // signals that have fired
    overflows: nat,             // calls of onOverflow
    discarded: seq<T>)          // units thrown away by an end or a failure

  function Init<T>(): State<T>
  {
    State([], None, false, false, None, false, 0, [], [], {}, 0, [])
  }

  // ---------------------------------------------------------------------------------------------
  // What each operation does to the state
  // ---------------------------------------------------------------------------------------------

  /** `s.slice(-n)`: the last `n` elements, except that `-0` is `0` and keeps everything. */
  function SliceFromEnd<T>(s: seq<T>, n: nat): (r: seq<T>)
    ensures 0 < n ==> |r| == if |s| < n then |s| else n
    ensures n == 0 ==> r == s
  {
    if n == 0 || |s| <= n then s else s[|s| - n..]
  }

  function Unlisten(ls: seq<Waiter>, w: Waiter): seq<Waiter>
  {
    Filter(ls, (l: Waiter) => l != w)
  }

  /** A parked waiter is settled: its abort listener goes, and so does the waiter. */
  function Settle<T>(s: State<T>, r: Result<T>): State<T>
    requires s.waiter.Some?
  {
    var w := s.waiter.value;
    s.(waiter := None, listeners := Unlisten(s.listeners, w), log := s.log + [Settlement(w.promise, r)])
  }

  function Overflow<T>(o: Options<T>, s: State<T>): State<T>
  {
    var kept := if o.keepOnOverflow.Some? then Filter(s.buffer, o.keepOnOverflow.value) else [];
    var t := s.(buffer := SliceFromEnd(kept, o.Capacity()));
    if |kept| < |s.buffer| then t.(resyncing := true, overflows := s.overflows + 1) else t
  }

  /** The resync gate: whether a unit pushed now is let in. */
  predicate Admits<T>(o: Options<T>, s: State<T>, u: T)
  {
    !s.ended && !(s.resyncing && o.dropsDuringResync(u))
  }

  function PushStep<T>(o: Options<T>, s: State<T>, u: T): State<T>
  {
    if !Admits(o, s, u) then s
    else
      var s := s.(resyncing := s.resyncing && !o.endsResync(u));
      if s.waiter.Some? then Settle(s, Value(u))
      else
        var s := s.(buffer := s.buffer + [u]);
        if |s.buffer| > o.Capacity() then Overflow(o, s) else s
  }

  function FailStep<T>(s: State<T>, e: Error): State<T>
  {
    if s.ended then s
    else
      var s := s.(
        ended := true, draining := false, error := Some(e), buffer := [], discarded := s.discarded + s.buffer);
      if s.waiter.Some? then Settle(s, Rejected(e)) else s
  }

  function EndStep<T>(s: State<T>, drain: bool): State<T>
  {
    if s.ended then
      if !drain && s.draining
      then s.(draining := false, buffer := [], discarded := s.discarded + s.buffer)
      else s
    else if drain && |s.buffer| > 0 then
      s.(ended := true, draining := true)
    else
      var s := s.(ended := true, buffer := [], discarded := s.discarded + s.buffer);
      if s.waiter.Some? then Settle(s, Done) else s
  }

  /** `next(signal)`; the promise it returns is number `s.issued`. */
  function NextStep<T>(s: State<T>, signal: nat): State<T>
  {
    var p := s.issued;
    var t := s.(issued := p + 1);
    if signal in s.aborted then t.(log := s.log + [Settlement(p, Done)])
    else if s.ended && !s.draining then
      var failed := s.error.Some? && s.error.value != Falsy;
      t.(log := s.log + [Settlement(p, if failed then Rejected(s.error.value) else Done)])
    else if s.buffer != [] then
      t.(buffer := s.buffer[1..],
         draining := s.draining && |s.buffer| > 1,
         log := s.log + [Settlement(p, Value(s.buffer[0]))])
    else
      t.(draining := false, waiter := Some(Waiter(p, signal)), listeners := s.listeners + [Waiter(p, signal)])
  }

  /** One run of `onAbort`. It clears whichever waiter is parked, not only its own. */
  function OnAbort<T>(s: State<T>, l: Waiter): State<T>
  {
    s.(waiter := None, listeners := Unlisten(s.listeners, l), log := s.log + [Settlement(l.promise, Done)])
  }

  function FireAll<T>(s: State<T>, ls: seq<Waiter>): State<T>
    decreases |ls|
  {
    if ls == [] then s else FireAll(OnAbort(s, ls[0]), ls[1..])
  }

  /** The signal fires (once): every listener registered on it runs. */
  function AbortStep<T>(s: State<T>, signal: nat): State<T>
  {
    if signal in s.aborted then s
    else FireAll(s.(aborted := s.aborted + {signal}), Filter(s.listeners, (l: Waiter) => l.signal == signal))
  }

  // ---------------------------------------------------------------------------------------------
  // The queue itself
  // ---------------------------------------------------------------------------------------------

  class UnitQueue<T> {
    const opts: Options<T>
    var buffer: seq<T>
    var waiter: Option<Waiter>
    var ended: bool
    var draining: bool
    var error: Option<Error>
    var resyncing: bool
    var issued: nat
    var log: seq<Settlement<T>>
    var listeners: seq<Waiter>
    var aborted: set<nat>
    var overflows: nat
    var discarded: seq<T>

    ghost function View(): State<T>
      reads this
    {
      State(buffer, waiter, ended, draining, error, resyncing, issued, log, listeners, aborted, overflows, discarded)
    }

    constructor (opts: Options<T>)
      ensures this.opts == opts && View() == Init()
    {
      this.opts := opts;
      buffer, waiter, ended, draining, error, resyncing := [], None, false, false, None, false;
      issued, log, listeners, aborted, overflows, discarded := 0, [], [], {}, 0, [];
    }

    method SettleWaiter(r: Result<T>)
      requires waiter.Some?
      modifies this
      ensures View() == Settle(old(View()), r)
    {
      var w := waiter.value;
      waiter := None;
      listeners := Unlisten(listeners, w);
      log := log + [Settlement(w.promise, r)];
    }

    method KeptOnOverflow() returns (kept: seq<T>)
      ensures kept == if opts.keepOnOverflow.Some? then Filter(buffer, opts.keepOnOverflow.value) else []
    {
      kept := [];
      if opts.keepOnOverflow.Some? {
        for i := 0 to |buffer|
          invariant kept == Filter(buffer[..i], opts.keepOnOverflow.value)
        {
          assert buffer[..i + 1] == buffer[..i] + [buffer[i]];
          FilterAppend(buffer[..i], buffer[i], opts.keepOnOverflow.value);
          if opts.keepOnOverflow.value(buffer[i]) {
            kept := kept + [buffer[i]];
          }
        }
        assert buffer[..|buffer|] == buffer;
      }
    }

    method ClearBacklog()
      modifies this
      ensures View() == Overflow(opts, old(View()))
    {
      var kept := KeptOnOverflow();
      var dropped := |kept| < |buffer|;
      buffer := SliceFromEnd(kept, opts.Capacity());
      if dropped {
        resyncing := true;
        overflows := overflows + 1;
      }
    }

    method Push(unit: T)
      modifies this
      ensures View() == PushStep(opts, old(View()), unit)
    {
      if ended {
        return;
      }
      if resyncing {
        if opts.dropsDuringResync(unit) {
          return;
        }
        if opts.endsResync(unit) {
          resyncing := false;
        }
      }
      if waiter.Some? {
        SettleWaiter(Value(unit));
        return;
      }
      buffer := buffer + [unit];
      if |buffer| > opts.Capacity() {
        ClearBacklog();
      }
    }

    method Fail(err: Error)
      modifies this
      ensures View() == FailStep(old(View()), err)
    {
      if ended {
        return;
      }
      ended, draining, error := true, false, Some(err);
      discarded, buffer := discarded + buffer, [];
      if waiter.Some? {
        SettleWaiter(Rejected(err));
      }
    }

    method End(drain: bool)
      modifies this
      ensures View() == EndStep(old(View()), drain)
    {
      if ended {
        if !drain && draining {
          draining := false;
          discarded, buffer := discarded + buffer, [];
        }
        return;
      }
      ended := true;
      if drain && |buffer| > 0 {
        draining := true;
        return;
      }
      discarded, buffer := discarded + buffer, [];
      if waiter.Some? {
        SettleWaiter(Done);
      }
    }

    method Next(signal: nat) returns (promise: nat)
      modifies this
      ensures promise == old(issued)
      ensures View() == NextStep(old(View()), signal)
    {
      promise := issued;
      issued := issued + 1;
      if signal in aborted {
        log := log + [Settlement(promise, Done)];
        return;
      }
      if ended && !draining {
        var failed := error.Some? && error.value != Falsy;
        log := log + [Settlement(promise, if failed then Rejected(error.value) else Done)];
        return;
      }
      var buffered := if buffer == [] then None else Some(buffer[0]);
      buffer := if buffer == [] then [] else buffer[1..];
      if draining && buffer == [] {
        draining := false;
      }
      if buffered.Some? {
        log := log + [Settlement(promise, Value(buffered.value))];
        return;
      }
      waiter := Some(Waiter(promise, signal));
      listeners := listeners + [Waiter(promise, signal)];
    }

    method Abort(signal: nat)
      modifies this
      ensures View() == AbortStep(old(View()), signal)
    {
      if signal in aborted {
        return;
      }
      aborted := aborted + {signal};
      var todo := Filter(listeners, (l: Waiter) => l.signal == signal);
      while todo != []
        invariant FireAll(View(), todo) == AbortStep(old(View()), signal)
        decreases |todo|
      {
        waiter := None;
        listeners := Unlisten(listeners, todo[0]);
        log := log + [Settlement(todo[0].promise, Done)];
        todo := todo[1..];
      }
    }
  }
}
