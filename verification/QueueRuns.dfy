/**
 * Whole runs of the queue under a single consumer: wake-ups, order, the two ends, and the bound.
 */
module QueueRuns {
  import opened Sequences
  import opened UnitQueues

  datatype Event<+T> = Push(unit: T) | Fail(error: Error) | End(drain: bool) | Next(signal: nat) | Abort(signal: nat)

  function Step<T>(o: Options<T>, s: State<T>, e: Event<T>): State<T>
  {
    match e
    case Push(u) => PushStep(o, s, u)
    case Fail(err) => FailStep(s, err)
    case End(drain) => EndStep(s, drain)
    case Next(signal) => NextStep(s, signal)
    case Abort(signal) => AbortStep(s, signal)
  }

  function Run<T>(o: Options<T>, s: State<T>, es: seq<Event<T>>): State<T>
    decreases |es|
  {
    if es == [] then s else Step(o, Run(o, s, es[..|es| - 1]), es[|es| - 1])
  }

  /** One consumer at a time: it asks for the next unit only when no earlier request is parked. */
  predicate Legal<T>(o: Options<T>, s: State<T>, es: seq<Event<T>>)
    decreases |es|
  {
    es == [] ||
    (Legal(o, s, es[..|es| - 1]) && (es[|es| - 1].Next? ==> Run(o, s, es[..|es| - 1]).waiter.None?))
  }

  function Pushed<T>(es: seq<Event<T>>): seq<T>
    decreases |es|
  {
    if es == [] then []
    else Pushed(es[..|es| - 1]) + (if es[|es| - 1].Push? then [es[|es| - 1].unit] else [])
  }

  /** The units that promises were resolved with, in order. */
  function Delivered<T>(log: seq<Settlement<T>>): seq<T>
    decreases |log|
  {
    if log == [] then []
    else Delivered(log[..|log| - 1]) + (if log[|log| - 1].result.Value? then [log[|log| - 1].result.value] else [])
  }

  function Contents<T>(s: State<T>): seq<T>
  {
    Delivered(s.log) + s.buffer
  }

  lemma DeliveredAppend<T>(log: seq<Settlement<T>>, x: Settlement<T>)
    ensures Delivered(log + [x]) == Delivered(log) + (if x.result.Value? then [x.result.value] else [])
  {
  }

  // ---------------------------------------------------------------------------------------------
  // Wake-ups
  // ---------------------------------------------------------------------------------------------

  predicate Parked<T>(s: State<T>, promise: nat)
  {
    s.waiter.Some? && s.waiter.value.promise == promise
  }

  predicate SettledIn<T>(log: seq<Settlement<T>>, promise: nat)
  {
    exists i :: 0 <= i < |log| && log[i].promise == promise
  }

  /** Every promise handed out is either parked or settled exactly once. */
  ghost predicate PromisesKept<T>(s: State<T>)
  {
    && (forall i, j :: 0 <= i < j < |s.log| ==> s.log[i].promise != s.log[j].promise)
    && (forall i :: 0 <= i < |s.log| ==> s.log[i].promise < s.issued && !Parked(s, s.log[i].promise))
    && (forall p: nat :: p < s.issued ==> Parked(s, p) || SettledIn(s.log, p))
  }

  ghost predicate Valid<T>(s: State<T>)
  {
    && (s.waiter.Some? ==>
         !s.ended && s.buffer == [] && s.waiter.value.signal !in s.aborted && s.waiter.value.promise < s.issued)
    && s.listeners == (if s.waiter.Some? then [s.waiter.value] else [])
    && (s.draining <==> s.ended && s.buffer != [])
    && (s.error.Some? ==> s.ended && s.buffer == [])
    && PromisesKept(s)
  }

  lemma SettleKeepsPromises<T>(s: State<T>, r: Result<T>)
    requires s.waiter.Some? && s.waiter.value.promise < s.issued && s.listeners == [s.waiter.value]
    requires PromisesKept(s)
    ensures Settle(s, r).listeners == [] && PromisesKept(Settle(s, r))
    ensures Delivered(Settle(s, r).log) == Delivered(s.log) + (if r.Value? then [r.value] else [])
  {
    var t := Settle(s, r);
    DeliveredAppend(s.log, t.log[|s.log|]);
    AppendKeepsSettled(s.log, t.log[|s.log|]);
    FilterExtremes(s.listeners, (l: Waiter) => l != s.waiter.value);
  }

  lemma AppendKeepsSettled<T>(log: seq<Settlement<T>>, x: Settlement<T>)
    ensures SettledIn(log + [x], x.promise)
    ensures forall p: nat :: SettledIn(log, p) ==> SettledIn(log + [x], p)
  {
    assert (log + [x])[|log|] == x;
    forall p: nat | SettledIn(log, p)
      ensures SettledIn(log + [x], p)
    {
      var i :| 0 <= i < |log| && log[i].promise == p;
      assert (log + [x])[i].promise == p;
    }
  }

  lemma FireOne<T>(s: State<T>, w: Waiter)
    requires s.waiter == Some(w)
    ensures FireAll(s, [w]) == Settle(s, Done)
  {
  }

  /** With the queue's own listener the only one, an abort settles it or touches nothing. */
  lemma AbortEffect<T>(s: State<T>, signal: nat)
    requires Valid(s)
    ensures var t := AbortStep(s, signal);
      t == if signal !in s.aborted && s.waiter.Some? && s.waiter.value.signal == signal
           then Settle(s, Done).(aborted := s.aborted + {signal})
           else s.(aborted := s.aborted + {signal})
  {
    if signal !in s.aborted {
      var s' := s.(aborted := s.aborted + {signal});
      FilterExtremes(s.listeners, (l: Waiter) => l.signal == signal);
      if s.waiter.Some? && s.waiter.value.signal == signal {
        FireOne(s', s.waiter.value);
      }
    } else {
      assert s.aborted + {signal} == s.aborted;
    }
  }

  lemma PushKeepsValid<T>(o: Options<T>, s: State<T>, u: T)
    requires Valid(s)
    ensures Valid(PushStep(o, s, u))
  {
    if s.waiter.Some? {
      SettleKeepsPromises(s, Value(u));
    }
  }

  lemma NextKeepsValid<T>(s: State<T>, signal: nat)
    requires Valid(s) && s.waiter.None?
    ensures Valid(NextStep(s, signal))
  {
    var t := NextStep(s, signal);
    if |t.log| > |s.log| {
      assert t.log == s.log + [t.log[|s.log|]];
      AppendKeepsSettled(s.log, t.log[|s.log|]);
    }
  }

  lemma FailKeepsValid<T>(s: State<T>, err: Error)
    requires Valid(s)
    ensures Valid(FailStep(s, err))
  {
    if s.waiter.Some? { SettleKeepsPromises(s, Rejected(err)); }
  }

  lemma EndKeepsValid<T>(s: State<T>, drain: bool)
    requires Valid(s)
    ensures Valid(EndStep(s, drain))
  {
    if s.waiter.Some? { SettleKeepsPromises(s, Done); }
  }

  lemma AbortKeepsValid<T>(s: State<T>, signal: nat)
    requires Valid(s)
    ensures Valid(AbortStep(s, signal))
  {
    AbortEffect(s, signal);
    if s.waiter.Some? { SettleKeepsPromises(s, Done); }
  }

  lemma StepKeepsValid<T>(o: Options<T>, s: State<T>, e: Event<T>)
    requires Valid(s) && (e.Next? ==> s.waiter.None?)
    ensures Valid(Step(o, s, e))
  {
    match e
    case Push(u) => PushKeepsValid(o, s, u);
    case Fail(err) => FailKeepsValid(s, err);
    case End(drain) => EndKeepsValid(s, drain);
    case Next(signal) => NextKeepsValid(s, signal);
    case Abort(signal) => AbortKeepsValid(s, signal);
  }

  lemma {:induction false} RunKeepsValid<T>(o: Options<T>, s: State<T>, es: seq<Event<T>>)
    requires Valid(s) && Legal(o, s, es)
    ensures Valid(Run(o, s, es))
    decreases |es|
  {
    if es != [] {
      RunKeepsValid(o, s, es[..|es| - 1]);
      StepKeepsValid(o, Run(o, s, es[..|es| - 1]), es[|es| - 1]);
    }
  }

  /** No wake-up is lost and none happens twice; an ended queue drains exactly while it holds units. */
  lemma NoLostOrDoubleWakeUp<T>(o: Options<T>, es: seq<Event<T>>)
    requires Legal(o, Init(), es)
    ensures var s := Run(o, Init(), es);
      && (forall i, j :: 0 <= i < j < |s.log| ==> s.log[i].promise != s.log[j].promise)
      && (forall p: nat :: p < s.issued ==> (Parked(s, p) <==> !SettledIn(s.log, p)))
      && (s.waiter.Some? ==> !s.ended && s.buffer == [] && s.waiter.value.signal !in s.aborted)
      && (s.draining <==> s.ended && s.buffer != [])
  {
    RunKeepsValid(o, Init(), es);
  }

  /** A listener left by an earlier request never cancels a later one. */
  lemma StaleAbortIsHarmless<T>(o: Options<T>, es: seq<Event<T>>, signal: nat)
    requires Legal(o, Init(), es)
    ensures var s := Run(o, Init(), es);
      s.waiter.Some? && s.waiter.value.signal != signal ==>
        AbortStep(s, signal).waiter == s.waiter && AbortStep(s, signal).log == s.log
  {
    RunKeepsValid(o, Init(), es);
    AbortEffect(Run(o, Init(), es), signal);
  }

  // ---------------------------------------------------------------------------------------------
  // Order
  // ---------------------------------------------------------------------------------------------

  lemma BufferedContents<T>(s: State<T>, t: State<T>, u: T)
    requires t.log == s.log && t.buffer == s.buffer + [u]
    ensures Contents(t) == Contents(s) + [u]
  {
  }

  lemma HandedContents<T>(s: State<T>, u: T)
    requires Valid(s) && s.waiter.Some?
    ensures Settle(s, Value(u)).buffer == [] && Contents(Settle(s, Value(u))) == Contents(s) + [u]
  {
  }

  lemma PushContents<T>(o: Options<T>, s: State<T>, u: T)
    requires Valid(s)
    ensures Subseq(Contents(PushStep(o, s, u)), Contents(s) + [u])
  {
    var c := Contents(s);
    if !Admits(o, s, u) {
      PrefixSubseq(c, [u]);
    } else if s.waiter.Some? {
      HandedContents(s, u);
      SubseqReflexive(c + [u]);
      assert Contents(PushStep(o, s, u)) == Contents(Settle(s, Value(u)));
    } else {
      var s' := s.(resyncing := s.resyncing && !o.endsResync(u), buffer := s.buffer + [u]);
      BufferedContents(s, s', u);
      OverflowContents(o, s');
      SubseqReflexive(c + [u]);
    }
  }

  lemma OverflowContents<T>(o: Options<T>, s: State<T>)
    ensures Subseq(Contents(Overflow(o, s)), Contents(s))
  {
    var kept := if o.keepOnOverflow.Some? then Filter(s.buffer, o.keepOnOverflow.value) else [];
    var r := SliceFromEnd(kept, o.Capacity());
    assert r == kept[|kept| - |r|..];
    SuffixSubseq(kept, |kept| - |r|);
    if o.keepOnOverflow.Some? {
      FilterSubseq(s.buffer, o.keepOnOverflow.value);
      SubseqTransitive(r, kept, s.buffer);
    }
    SubseqConcat(Delivered(s.log), r, s.buffer);
  }

  lemma SettleContents<T>(s: State<T>, r: Result<T>)
    requires Valid(s) && s.waiter.Some? && !r.Value?
    ensures Delivered(Settle(s, r).log) == Delivered(s.log)
  {
  }

  lemma HeadMoves<T>(a: seq<T>, b: seq<T>)
    requires b != []
    ensures a + [b[0]] + b[1..] == a + b
  {
  }

  lemma NextContents<T>(s: State<T>, signal: nat)
    requires Valid(s) && s.waiter.None?
    ensures Contents(NextStep(s, signal)) == Contents(s)
  {
    var t := NextStep(s, signal);
    if t.log != s.log {
      var x := t.log[|s.log|];
      assert t.log == s.log + [x];
      DeliveredAppend(s.log, x);
      if x.result.Value? {
        HeadMoves(Delivered(s.log), s.buffer);
      } else {
        assert Delivered(s.log) + [] == Delivered(s.log);
      }
    }
  }

  /** The operations that throw the backlog away: a failure, and an end that does not drain. */
  predicate Discards<T>(s: State<T>, e: Event<T>)
  {
    (e.Fail? && !s.ended) || (e == End(false) && (!s.ended || s.draining))
  }

  /** Apart from pushes and those, delivered ++ buffered never changes. */
  lemma OtherContents<T>(o: Options<T>, s: State<T>, e: Event<T>)
    requires Valid(s) && !e.Push? && (e.Next? ==> s.waiter.None?)
    ensures !Discards(s, e) ==> Contents(Step(o, s, e)) == Contents(s)
    ensures Discards(s, e) ==> Contents(Step(o, s, e)) == Delivered(s.log)
  {
    match e
    case Fail(err) => if s.waiter.Some? { SettleContents(s, Rejected(err)); }
    case End(_) => if s.waiter.Some? { SettleContents(s, Done); }
    case Next(signal) => NextContents(s, signal);
    case Abort(signal) =>
      AbortEffect(s, signal);
      if s.waiter.Some? { SettleContents(s, Done); }
  }

  lemma StepContents<T>(o: Options<T>, s: State<T>, e: Event<T>)
    requires Valid(s) && (e.Next? ==> s.waiter.None?)
    ensures Subseq(Contents(Step(o, s, e)), Contents(s) + (if e.Push? then [e.unit] else []))
  {
    if e.Push? {
      PushContents(o, s, e.unit);
    } else {
      OtherContents(o, s, e);
      SubseqReflexive(Contents(s));
      PrefixSubseq(Delivered(s.log), s.buffer);
      assert Contents(s) + [] == Contents(s);
    }
  }

  lemma PrefixSubseq<T>(a: seq<T>, b: seq<T>)
    ensures Subseq(a, a + b)
  {
    SubseqConcat(a, [], b);
    assert a + [] == a;
  }

  /** Delivered ++ buffered is the pushed sequence with some units deleted: no reordering, no duplicate. */
  lemma {:induction false} Fifo<T>(o: Options<T>, es: seq<Event<T>>)
    requires Legal(o, Init(), es)
    ensures Subseq(Contents(Run(o, Init(), es)), Pushed(es))
    decreases |es|
  {
    if es != [] {
      var fs, e := es[..|es| - 1], es[|es| - 1];
      var c := Contents(Run(o, Init(), fs));
      Fifo(o, fs);
      RunKeepsValid(o, Init(), fs);
      StepContents(o, Run(o, Init(), fs), e);
      if e.Push? {
        SubseqAppend(c, Pushed(fs), e.unit);
        SubseqTransitive(Contents(Run(o, Init(), es)), c + [e.unit], Pushed(es));
      } else {
        assert c + [] == c && Pushed(es) == Pushed(fs);
        SubseqTransitive(Contents(Run(o, Init(), es)), c, Pushed(fs));
      }
    }
  }

  // ---------------------------------------------------------------------------------------------
  // The two ends
  // ---------------------------------------------------------------------------------------------

  /** `t` comes after `s`, where the queue had ended; `kept` says that nothing was discarded since. */
  ghost predicate EndedSince<T>(s: State<T>, t: State<T>, kept: bool)
  {
    && t.ended && Valid(t) && t.error == s.error
    && (kept ==> Contents(t) == Contents(s))
    && (!s.draining ==> Delivered(t.log) == Delivered(s.log) && t.buffer == [])
  }

  lemma EndedEffect<T>(o: Options<T>, t: State<T>, e: Event<T>)
    requires Valid(t) && t.ended && (e.Next? ==> t.waiter.None?)
    ensures var u := Step(o, t, e);
      && u.ended && u.error == t.error
      && (e != End(false) ==> Contents(u) == Contents(t))
      && (t.buffer == [] ==> Delivered(u.log) == Delivered(t.log) && u.buffer == [])
  {
    if !e.Push? {
      OtherContents(o, t, e);
    }
    if e.Abort? {
      AbortEffect(t, e.signal);
    }
  }

  lemma EndedStep<T>(o: Options<T>, s: State<T>, t: State<T>, e: Event<T>, kept: bool)
    requires EndedSince(s, t, kept) && (e.Next? ==> t.waiter.None?)
    ensures EndedSince(s, Step(o, t, e), kept && e != End(false))
  {
    StepKeepsValid(o, t, e);
    EndedEffect(o, t, e);
  }

  lemma NotAmong<T>(es: seq<Event<T>>, e: Event<T>, x: Event<T>)
    ensures x !in es + [e] <==> x !in es && x != e
  {
  }

  /** Once ended, a queue only ever hands out what it still holds. */
  lemma {:induction false} EndedContents<T>(o: Options<T>, s: State<T>, es: seq<Event<T>>)
    requires Valid(s) && s.ended && Legal(o, s, es)
    ensures EndedSince(s, Run(o, s, es), End(false) !in es)
    decreases |es|
  {
    if es != [] {
      var fs, e := es[..|es| - 1], es[|es| - 1];
      EndedContents(o, s, fs);
      EndedStep(o, s, Run(o, s, fs), e, End(false) !in fs);
      NotAmong(fs, e, End(false));
      assert es == fs + [e];
    }
  }

  /**
   * After a draining end and until a discarding one, whatever else happens, the units delivered are
   * a prefix of those held at the end; a request is answered `done` only when all are out, or its
   * signal has fired.
   */
  lemma DrainDeliversExactlyTheBacklog<T>(o: Options<T>, s: State<T>, es: seq<Event<T>>, signal: nat)
    requires Valid(s) && !s.ended
    requires Legal(o, EndStep(s, true), es) && End(false) !in es
    ensures var t := Run(o, EndStep(s, true), es);
      && Delivered(t.log) + t.buffer == Delivered(s.log) + s.buffer
      && t.waiter.None? && t.discarded == s.discarded
      && NextStep(t, signal).log == t.log +
           [Settlement(t.issued, if signal !in t.aborted && t.buffer != [] then Value(t.buffer[0]) else Done)]
  {
    var d := EndStep(s, true);
    StepKeepsValid(o, s, End(true));
    OtherContents(o, s, End(true));
    assert !Discards(s, Event<T>.End(true));
    EndedContents(o, d, es);
    DrainDiscardsNothing(o, d, es);
  }

  lemma {:induction false} DrainDiscardsNothing<T>(o: Options<T>, s: State<T>, es: seq<Event<T>>)
    requires Valid(s) && s.ended && Legal(o, s, es) && End(false) !in es
    ensures Run(o, s, es).discarded == s.discarded
    decreases |es|
  {
    if es != [] {
      var fs, e := es[..|es| - 1], es[|es| - 1];
      assert es == fs + [e];
      DrainDiscardsNothing(o, s, fs);
      EndedContents(o, s, fs);
      if e.Abort? {
        AbortEffect(Run(o, s, fs), e.signal);
      }
    }
  }

  /** A discarding end, or a failure, is final: nothing is delivered in any continuation. */
  lemma DiscardIsFinal<T>(o: Options<T>, s: State<T>, e: Event<T>, es: seq<Event<T>>)
    requires Valid(s) && (e == End(false) || e.Fail?)
    requires !s.ended || e == End(false)
    requires Legal(o, Step(o, s, e), es)
    ensures Delivered(Run(o, Step(o, s, e), es).log) == Delivered(s.log)
  {
    StepKeepsValid(o, s, e);
    OtherContents(o, s, e);
    EndedContents(o, Step(o, s, e), es);
    assert Contents(Step(o, s, e)) == Delivered(Step(o, s, e).log) + Step(o, s, e).buffer;
    assert Step(o, s, e).buffer == [];
  }

  /** After a failure every live request is rejected with it, provided the reason is truthy. */
  lemma FailureIsReported<T>(o: Options<T>, s: State<T>, err: Error, es: seq<Event<T>>, signal: nat)
    requires Valid(s) && !s.ended
    requires Legal(o, FailStep(s, err), es)
    ensures var t := Run(o, FailStep(s, err), es);
      && t.waiter.None?
      && (signal !in t.aborted ==>
           (NextStep(t, signal).log == t.log + [Settlement(t.issued, Rejected(err))] <==> err != Falsy))
  {
    StepKeepsValid(o, s, Fail(err));
    EndedContents(o, FailStep(s, err), es);
    var t := Run(o, FailStep(s, err), es);
    var expected := t.log + [Settlement(t.issued, Rejected(err))];
    assert expected[|t.log|].result == Rejected(err);
    assert signal !in t.aborted && err == Falsy ==> NextStep(t, signal).log[|t.log|].result == Done;
  }

  // ---------------------------------------------------------------------------------------------
  // The bound
  // ---------------------------------------------------------------------------------------------

  ghost predicate Bounded<T(!new)>(o: Options<T>)
  {
    forall es: seq<Event<T>> :: Legal(o, Init(), es) ==> |Run(o, Init(), es).buffer| <= o.Capacity()
  }

  lemma ZeroOverflows<T>(o: Options<T>, u: T)
    requires o.Capacity() == 0 && o.keepOnOverflow.Some? && o.keepOnOverflow.value(u)
    ensures Legal(o, Init(), [Push(u)]) && Run(o, Init(), [Push(u)]).buffer == [u]
  {
  }

  /** Slicing from the end keeps the bound for every capacity but zero; zero works only if nothing is kept. */
  lemma BoundedExactly<T(!new)>(o: Options<T>)
    ensures Bounded(o) <==> o.Capacity() > 0 || o.keepOnOverflow.None? || forall u :: !o.keepOnOverflow.value(u)
  {
    if o.Capacity() > 0 || o.keepOnOverflow.None? || forall u :: !o.keepOnOverflow.value(u) {
      forall es: seq<Event<T>> | Legal(o, Init(), es)
        ensures |Run(o, Init(), es).buffer| <= o.Capacity()
      {
        StaysBounded(o, es);
      }
    } else {
      var u :| o.keepOnOverflow.value(u);
      ZeroOverflows(o, u);
    }
  }

  lemma OverflowIsBounded<T>(o: Options<T>, s: State<T>)
    requires o.Capacity() > 0 || o.keepOnOverflow.None? || forall u :: !o.keepOnOverflow.value(u)
    ensures |Overflow(o, s).buffer| <= o.Capacity()
  {
    if o.keepOnOverflow.Some? && o.Capacity() == 0 {
      FilterExtremes(s.buffer, o.keepOnOverflow.value);
    }
  }

  lemma PushStaysBounded<T>(o: Options<T>, s: State<T>, u: T)
    requires |s.buffer| <= o.Capacity()
    requires o.Capacity() > 0 || o.keepOnOverflow.None? || forall u :: !o.keepOnOverflow.value(u)
    ensures |PushStep(o, s, u).buffer| <= o.Capacity()
  {
    OverflowIsBounded(o, s.(resyncing := s.resyncing && !o.endsResync(u), buffer := s.buffer + [u]));
  }

  lemma StepStaysBounded<T>(o: Options<T>, s: State<T>, e: Event<T>)
    requires Valid(s) && |s.buffer| <= o.Capacity()
    requires o.Capacity() > 0 || o.keepOnOverflow.None? || forall u :: !o.keepOnOverflow.value(u)
    ensures |Step(o, s, e).buffer| <= o.Capacity()
  {
    match e
    case Push(u) => PushStaysBounded(o, s, u);
    case Abort(signal) => AbortEffect(s, signal);
    case Fail(_) =>
    case End(_) =>
    case Next(_) =>
  }

  lemma {:induction false} StaysBounded<T>(o: Options<T>, es: seq<Event<T>>)
    requires Legal(o, Init(), es)
    requires o.Capacity() > 0 || o.keepOnOverflow.None? || forall u :: !o.keepOnOverflow.value(u)
    ensures |Run(o, Init(), es).buffer| <= o.Capacity()
    decreases |es|
  {
    if es != [] {
      StaysBounded(o, es[..|es| - 1]);
      RunKeepsValid(o, Init(), es[..|es| - 1]);
      StepStaysBounded(o, Run(o, Init(), es[..|es| - 1]), es[|es| - 1]);
    }
  }
}
