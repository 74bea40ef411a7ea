/**
 * Key sequences from the wire. The NULL key means "release every modifier", which the `type` action
 * does not know: the sequence is split at each NULL into records that are typed one by one.
 */
module WireKeys {
  import opened TextControls
  import opened Keyboards
  import opened Typings

  /** A key of the sequence once its wire character has been looked up. */
  datatype WireKey = Null | Typing(token: Token)

  datatype Record = Record(persist: bool, keys: seq<Token>)

  predicate WireOk(ks: seq<WireKey>) { forall i :: 0 <= i < |ks| ==> ks[i].Typing? ==> TokenOk(ks[i].token) }

  predicate RecordsOk(rs: seq<Record>) { forall i :: 0 <= i < |rs| ==> TokensOk(rs[i].keys) }

  /** The records made of a sequence; keys go to the last one. */
  function Split(ks: seq<WireKey>, persist: bool): (rs: seq<Record>)
    requires WireOk(ks)
    ensures rs != [] && RecordsOk(rs) && rs[|rs| - 1].persist == persist
  {
    if ks == [] then [Record(persist, [])]
    else
      var rs := Split(ks[..|ks| - 1], persist);
      var n := |rs| - 1;
      match ks[|ks| - 1]
      case Typing(t) => rs[n := rs[n].(keys := rs[n].keys + [t])]
      case Null => if persist then rs + [Record(false, []), Record(true, [])] else rs + [Record(false, [])]
  }

  /**
   * The records typed in turn, where `s` is the keyboard of the first record with the element in
   * focus: a supplied keyboard is used for all of them, else each later record gets a new one. The
   * focus moves for the first record at most.
   */
  function TypeRecords(s: State, supplied: bool, rs: seq<Record>): (r: State)
    requires InOrder(s.control) && RecordsOk(rs)
    ensures InOrder(r.control)
    decreases |rs|, 1
  {
    if rs == [] then s else TypeAction(BeforeLast(s, supplied, rs), rs[|rs| - 1].keys, rs[|rs| - 1].persist)
  }

  /** Where the last record starts. */
  function BeforeLast(s: State, supplied: bool, rs: seq<Record>): (r: State)
    requires InOrder(s.control) && RecordsOk(rs) && rs != []
    ensures InOrder(r.control)
    decreases |rs|, 0
  {
    if |rs| == 1 then s else Board(TypeRecords(s, supplied, rs[..|rs| - 1]), supplied)
  }

  /** `element.type` on a page in state `s`, or with the supplied keyboard in that state. */
  function TypeSequence(s: State, focused: bool, supplied: bool, ks: seq<WireKey>, persist: bool): (r: State)
    requires InOrder(s.control) && WireOk(ks)
    ensures InOrder(r.control)
  {
    TypeRecords(Focus(Board(s, supplied), !focused), supplied, Split(ks, persist))
  }

  method SplitKeys(ks: seq<WireKey>, persist: bool) returns (rs: seq<Record>)
    requires WireOk(ks)
    ensures rs == Split(ks, persist)
  {
    var done, current := [], Record(persist, []);
    for i := 0 to |ks|
      invariant done + [current] == Split(ks[..i], persist)
    {
      assert ks[..i + 1][..i] == ks[..i];
      match ks[i]
      case Typing(t) => current := current.(keys := current.keys + [t]);
      case Null =>
        done := done + [current];
        current := Record(persist, []);
        if persist {
          done := done + [Record(false, [])];
        }
    }
    assert ks[..|ks|] == ks;
    rs := done + [current];
  }

  method TypeWire(element: TextField, keyboard: Keyboard?, ks: seq<WireKey>, persist: bool, focused: bool)
    returns (kb: Keyboard, ok: bool)
    requires InOrder(element.View()) && WireOk(ks)
    requires keyboard != null ==> keyboard.element == element
    modifies element, keyboard
    ensures kb.element == element && if keyboard == null then fresh(kb) else kb == keyboard
    ensures ok && kb.View() ==
      TypeSequence(old(if keyboard == null then Page(element) else keyboard.View()),
                   focused, keyboard != null, ks, persist)
  {
    var rs := SplitKeys(ks, persist);
    ghost var first := old(if keyboard == null then Page(element) else keyboard.View());
    ghost var supplied := keyboard != null;
    ghost var start := Focus(Board(first, supplied), !focused);
    kb, ok := Type(element, keyboard, rs[0].keys, rs[0].persist, focused);
    OneRecord(start, supplied, rs[0]);
    assert rs[..1] == [rs[0]];
    for i := 1 to |rs|
      invariant kb.element == element && if keyboard == null then fresh(kb) else kb == keyboard
      invariant ok && kb.View() == TypeRecords(start, supplied, rs[..i])
    {
      NextRecord(start, supplied, rs, i);
      kb, ok := Type(element, keyboard, rs[i].keys, rs[i].persist, true);
    }
    assert rs[..|rs|] == rs;
  }

  lemma {:induction false} NextRecord(s: State, supplied: bool, rs: seq<Record>, i: nat)
    requires InOrder(s.control) && RecordsOk(rs) && 0 < i < |rs|
    ensures var before := TypeRecords(s, supplied, rs[..i]);
      TypeRecords(s, supplied, rs[..i + 1])
      == TypeOn(Board(before, supplied), true, supplied, rs[i].keys, rs[i].persist)
  {
    assert rs[..i + 1][..i] == rs[..i];
  }

  lemma {:induction false} OneRecord(s: State, supplied: bool, r: Record)
    requires InOrder(s.control) && TokensOk(r.keys)
    ensures RecordsOk([r]) && TypeRecords(s, supplied, [r]) == TypeAction(s, r.keys, r.persist)
  {
  }

  /** What the sequence means, one key at a time: NULL releases the modifiers. */
  function Play(s: State, ks: seq<WireKey>): (r: State)
    requires InOrder(s.control) && WireOk(ks)
    ensures InOrder(r.control)
  {
    PlayOn(s, true, ks)
  }

  /** A key; at NULL the keyboard is changed too, unless one was supplied. */
  function PlayKey(s: State, supplied: bool, k: WireKey): (r: State)
    requires InOrder(s.control) && (k.Typing? ==> TokenOk(k.token))
    ensures InOrder(r.control)
  {
    match k
    case Typing(t) => TypeToken(s, t)
    case Null => Board(ReleaseAll(s, MODIFIERS), supplied)
  }

  function PlayOn(s: State, supplied: bool, ks: seq<WireKey>): (r: State)
    requires InOrder(s.control) && WireOk(ks)
    ensures InOrder(r.control)
  {
    if ks == [] then s else PlayKey(PlayOn(s, supplied, ks[..|ks| - 1]), supplied, ks[|ks| - 1])
  }

  /** All records but the last are typed, and the last one is typed but not ended. */
  function Underway(s: State, supplied: bool, rs: seq<Record>): State
    requires InOrder(s.control) && RecordsOk(rs) && rs != []
  {
    TypeTokens(BeforeLast(s, supplied, rs), rs[|rs| - 1].keys)
  }

  lemma {:induction false} RecordEnds(s: State, supplied: bool, rs: seq<Record>)
    requires InOrder(s.control) && RecordsOk(rs) && rs != []
    ensures var u := Underway(s, supplied, rs);
      TypeRecords(s, supplied, rs) == if rs[|rs| - 1].persist then u else ReleaseAll(u, MODIFIERS)
  {
  }

  lemma {:induction false} NewRecord(s: State, supplied: bool, rs: seq<Record>, persist: bool)
    requires InOrder(s.control) && RecordsOk(rs) && rs != []
    ensures RecordsOk(rs + [Record(persist, [])])
    ensures Underway(s, supplied, rs + [Record(persist, [])]) == Board(TypeRecords(s, supplied, rs), supplied)
  {
    assert (rs + [Record(persist, [])])[..|rs|] == rs;
  }

  lemma TokensAppend(s: State, ts: seq<Token>, t: Token)
    requires InOrder(s.control) && TokensOk(ts) && TokenOk(t)
    ensures TokensOk(ts + [t]) && TypeTokens(s, ts + [t]) == TypeToken(TypeTokens(s, ts), t)
  {
    assert (ts + [t])[..|ts|] == ts;
  }

  lemma {:induction false} TypedKeyPlays(s: State, supplied: bool, rs: seq<Record>, t: Token)
    requires InOrder(s.control) && RecordsOk(rs) && rs != [] && TokenOk(t)
    ensures var n := |rs| - 1; var rs' := rs[n := rs[n].(keys := rs[n].keys + [t])];
      RecordsOk(rs') && Underway(s, supplied, rs') == TypeToken(Underway(s, supplied, rs), t)
  {
    var n := |rs| - 1;
    var rs' := rs[n := rs[n].(keys := rs[n].keys + [t])];
    assert rs'[..n] == rs[..n];
    TokensAppend(BeforeLast(s, supplied, rs), rs[n].keys, t);
  }

  lemma {:induction false} NullPlays(s: State, supplied: bool, rs: seq<Record>, persist: bool)
    requires InOrder(s.control) && RecordsOk(rs) && rs != [] && rs[|rs| - 1].persist == persist
    requires persist ==> supplied
    ensures var one := rs + [Record(false, [])];
      var rs' := if persist then one + [Record(true, [])] else one;
      && RecordsOk(rs')
      && Underway(s, supplied, rs') == Board(ReleaseAll(Underway(s, supplied, rs), MODIFIERS), supplied)
  {
    RecordEnds(s, supplied, rs);
    NewRecord(s, supplied, rs, false);
    if persist {
      var rs' := rs + [Record(false, [])];
      RecordEnds(s, supplied, rs');
      NewRecord(s, supplied, rs', true);
    }
  }

  /** The records of one more key. */
  lemma SplitStep(ks: seq<WireKey>, persist: bool)
    requires WireOk(ks) && ks != []
    ensures var rs := Split(ks[..|ks| - 1], persist);
      var n, one := |rs| - 1, rs + [Record(false, [])];
      Split(ks, persist) ==
        match ks[|ks| - 1]
        case Typing(t) => rs[n := rs[n].(keys := rs[n].keys + [t])]
        case Null => if persist then one + [Record(true, [])] else one
  {
    var rs := Split(ks[..|ks| - 1], persist);
    assert rs + [Record(false, []), Record(true, [])] == rs + [Record(false, [])] + [Record(true, [])];
  }

  lemma {:induction false} SplitPlays(s: State, supplied: bool, ks: seq<WireKey>, persist: bool)
    requires InOrder(s.control) && WireOk(ks) && (persist ==> supplied)
    ensures Underway(s, supplied, Split(ks, persist)) == PlayOn(s, supplied, ks)
  {
    if ks != [] {
      var rs := Split(ks[..|ks| - 1], persist);
      SplitPlays(s, supplied, ks[..|ks| - 1], persist);
      SplitStep(ks, persist);
      match ks[|ks| - 1]
      case Typing(t) => TypedKeyPlays(s, supplied, rs, t);
      case Null => NullPlays(s, supplied, rs, persist);
    }
  }

  /** The records together do what the keys do one by one, with or without a supplied keyboard. */
  lemma SplittingPlaysKeys(s: State, focused: bool, supplied: bool, ks: seq<WireKey>, persist: bool)
    requires InOrder(s.control) && WireOk(ks) && (persist ==> supplied)
    ensures var p := PlayOn(Focus(Board(s, supplied), !focused), supplied, ks);
      TypeSequence(s, focused, supplied, ks, persist) == if persist then p else ReleaseAll(p, MODIFIERS)
  {
    var start := Focus(Board(s, supplied), !focused);
    SplitPlays(start, supplied, ks, persist);
    RecordEnds(start, supplied, Split(ks, persist));
  }

  /**
   * With a supplied keyboard splitting means what it should, for every sequence: the records together
   * do what the keys do one by one, NULL included, and the modifiers are released at the end unless
   * they persist.
   */
  lemma SplittingKeepsMeaning(s: State, focused: bool, ks: seq<WireKey>, persist: bool)
    requires InOrder(s.control) && WireOk(ks)
    ensures var p := Play(Focus(s, !focused), ks);
      TypeSequence(s, focused, true, ks, persist) == if persist then p else ReleaseAll(p, MODIFIERS)
  {
    SplittingPlaysKeys(s, focused, true, ks, persist);
  }

  lemma {:induction false} PlayConcat(s: State, supplied: bool, a: seq<WireKey>, b: seq<WireKey>)
    requires InOrder(s.control) && WireOk(a) && WireOk(b)
    ensures WireOk(a + b) && PlayOn(s, supplied, a + b) == PlayOn(PlayOn(s, supplied, a), supplied, b)
  {
    if b == [] {
      assert a + b == a;
    } else {
      PlayConcat(s, supplied, a, b[..|b| - 1]);
      assert (a + b)[..|a + b| - 1] == a + b[..|b| - 1];
    }
  }

  /** On one and the same keyboard, two calls of which the first lets its modifiers persist are one call. */
  lemma SameKeyboardJoinsCalls(s: State, focused: bool, a: seq<WireKey>, b: seq<WireKey>, persist: bool)
    requires InOrder(s.control) && WireOk(a) && WireOk(b)
    ensures WireOk(a + b)
    ensures TypeSequence(TypeSequence(s, focused, true, a, true), true, true, b, persist)
         == TypeSequence(s, focused, true, a + b, persist)
  {
    PlayConcat(Focus(s, !focused), true, a, b);
    SplittingKeepsMeaning(s, focused, a, true);
    SplittingKeepsMeaning(TypeSequence(s, focused, true, a, true), true, b, persist);
    SplittingKeepsMeaning(s, focused, a + b, persist);
  }

  /** Right after NULL no modifier is down, whether modifiers persist or not, on any keyboard. */
  lemma NullReleasesModifiers(s: State, focused: bool, supplied: bool, ks: seq<WireKey>, persist: bool)
    requires InOrder(s.control) && WireOk(ks) && (persist ==> supplied)
    ensures WireOk(ks + [Null])
    ensures forall m :: IsModifier(m) ==> m !in TypeSequence(s, focused, supplied, ks + [Null], persist).pressed
  {
    var start := Focus(Board(s, supplied), !focused);
    assert (ks + [Null])[..|ks|] == ks;
    SplittingPlaysKeys(s, focused, supplied, ks + [Null], persist);
    ReleaseAllReleases(PlayOn(start, supplied, ks), MODIFIERS);
    ReleaseAllReleases(PlayOn(start, supplied, ks + [Null]), MODIFIERS);
  }
}
