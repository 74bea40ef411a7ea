/**
 * Keys sent to the active element over several calls. Each call reports the keyboard's state and the
 * next one restores it; the report travels as plain data, so that the keys that come back are new
 * objects, which the keyboard does not recognise.
 */
module SentKeys {
  import opened Sequences
  import opened KeyTable
  import opened TextControls
  import opened Keyboards
  import opened Editors
  import opened Typings
  import opened WireKeys
  import opened NewKeyboards

  /** The keys of a report as they arrive with the next call. */
  function Copies(keys: seq<Key>): (r: seq<Key>)
    ensures |r| == |keys| && forall i :: 0 <= i < |r| ==> r[i] == keys[i].(copy := i + 1)
  {
    seq(|keys|, i requires 0 <= i < |keys| => keys[i].(copy := i + 1))
  }

  /** A keyboard restored from a report, on a page in state `s`; a later call finds the page as `Fresh` has it. */
  function Restored(s: State, r: Report): State
  {
    s.(currentPos := r.currentPos, pressed := (set key | key in Copies(r.pressed)), modifiers := 0)
  }

  /** One call: the element has the focus, the keyboard is supplied, and modifiers persist. */
  function SendOn(s: State, ks: seq<WireKey>): (r: State)
    requires InOrder(s.control) && WireOk(ks)
    ensures InOrder(r.control)
  {
    TypeSequence(s, true, true, ks, true)
  }

  lemma CopiesAreNoModifiers(r: Report, s: State)
    ensures forall m :: IsModifier(m) ==> m !in Restored(s, r).pressed
    ensures MaskOf(set key | key in Copies(r.pressed)) == 0
  {
  }

  /** `sendKeys`: the keyboard of the report types the keys and reports in turn. */
  method SendKeys(element: TextField, report: Report, ks: seq<WireKey>) returns (next: Report, ok: bool)
    requires InOrder(element.View()) && WireOk(ks)
    modifies element
    ensures ok
    ensures var s := SendOn(Restored(old(Page(element)), report), ks);
      Reports(next, s) && Page(element) == Fresh(s)
  {
    CopiesAreNoModifiers(report, Page(element));
    var kb := new Keyboard(element, Copies(report.pressed), report.currentPos);
    assert kb.View() == Restored(old(Page(element)), report);
    kb, ok := TypeWire(element, kb, ks, true, true);
    next := kb.GetState();
  }

  // ---------------------------------------------------------------------------------------------
  // Keyboards that differ in the modifiers held
  // ---------------------------------------------------------------------------------------------

  /** The same control and cursor, and Shift held alike; with `all`, the other modifiers too. */
  ghost predicate Alike(s: State, t: State, all: bool)
  {
    && s.control == t.control && s.currentPos == t.currentPos
    && (SHIFT in s.pressed <==> SHIFT in t.pressed)
    && (all ==> forall m :: IsModifier(m) ==> (m in s.pressed <==> m in t.pressed))
  }

  lemma EditAlike(s: State, t: State, key: Key)
    requires InOrder(s.control) && Alike(s, t, false)
    ensures MaybeEditText(s, key).control == MaybeEditText(t, key).control
    ensures MaybeEditText(s, key).currentPos == MaybeEditText(t, key).currentPos
  {
  }

  lemma PressAlike(s: State, t: State, key: Key, all: bool)
    requires InOrder(s.control) && Alike(s, t, all)
    ensures Alike(Press(s, key), Press(t, key), all) && Alike(Release(s, key), Release(t, key), all)
    ensures Alike(PressAndRelease(s, key), PressAndRelease(t, key), all)
  {
    PressHolds(s, key);
    PressHolds(t, key);
    if key.code.Some? {
      EditAlike(s.(events := s.events + KeyEvents(key)), t.(events := t.events + KeyEvents(key)), key);
    }
  }

  /** A modifier edits nothing, whether pressed or released. */
  lemma ModifierIsSilent(s: State, m: Key)
    requires InOrder(s.control) && IsModifier(m)
    ensures Press(s, m).control == Release(s, m).control == s.control
    ensures Press(s, m).currentPos == Release(s, m).currentPos == s.currentPos
    ensures Press(s, m).pressed == s.pressed + {m} && Release(s, m).pressed == s.pressed - {m}
  {
  }

  lemma SpecialAlike(s: State, t: State, key: Key, all: bool)
    requires InOrder(s.control) && Alike(s, t, all)
    ensures Alike(TypeToken(s, Special(key)), TypeToken(t, Special(key)), all)
  {
    if IsModifier(key) {
      ModifierIsSilent(s, key);
      ModifierIsSilent(t, key);
    } else {
      PressAlike(s, t, key, all);
    }
  }

  lemma CharAlike(s: State, t: State, ch: char, all: bool)
    requires InOrder(s.control) && HasKey(ch) && Alike(s, t, all)
    ensures Alike(TypeChar(s, ch), TypeChar(t, ch), all)
  {
    var b := CharacterTable()[ch];
    PressAlike(s, t, b.key, all);
    PressAlike(s, t, SHIFT, all);
    PressAlike(Press(s, SHIFT), Press(t, SHIFT), b.key, all);
    PressAlike(PressAndRelease(Press(s, SHIFT), b.key), PressAndRelease(Press(t, SHIFT), b.key), SHIFT, all);
  }

  lemma {:induction false} TextAlike(s: State, t: State, text: string, all: bool)
    requires InOrder(s.control) && Known(text) && Alike(s, t, all)
    ensures Alike(TypeText(s, text), TypeText(t, text), all)
  {
    if text != [] {
      TextAlike(s, t, text[..|text| - 1], all);
      CharAlike(TypeText(s, text[..|text| - 1]), TypeText(t, text[..|text| - 1]), text[|text| - 1], all);
    }
  }

  lemma KeyAlike(s: State, t: State, k: WireKey, all: bool)
    requires InOrder(s.control) && Alike(s, t, all) && (k.Typing? ==> TokenOk(k.token))
    ensures Alike(PlayKey(s, true, k), PlayKey(t, true, k), all)
  {
    match k
    case Null =>
      ReleaseAllReleases(s, MODIFIERS);
      ReleaseAllReleases(t, MODIFIERS);
    case Typing(Text(text)) => TextAlike(s, t, text, all);
    case Typing(Special(key)) => SpecialAlike(s, t, key, all);
  }

  lemma {:induction false} PlayAlike(s: State, t: State, ks: seq<WireKey>, all: bool)
    requires InOrder(s.control) && WireOk(ks) && Alike(s, t, all)
    ensures Alike(Play(s, ks), Play(t, ks), all)
  {
    if ks != [] {
      PlayAlike(s, t, ks[..|ks| - 1], all);
      PlayStep(s, true, ks);
      PlayStep(t, true, ks);
      KeyAlike(Play(s, ks[..|ks| - 1]), Play(t, ks[..|ks| - 1]), ks[|ks| - 1], all);
    }
  }

  // ---------------------------------------------------------------------------------------------
  // One call or two
  // ---------------------------------------------------------------------------------------------

  lemma SendingPlays(s: State, ks: seq<WireKey>)
    requires InOrder(s.control) && WireOk(ks)
    ensures SendOn(s, ks) == Play(s, ks)
  {
    SplittingKeepsMeaning(s, true, ks, true);
  }

  lemma SendConcat(s: State, a: seq<WireKey>, b: seq<WireKey>)
    requires InOrder(s.control) && WireOk(a) && WireOk(b)
    ensures WireOk(a + b) && SendOn(s, a + b) == Play(SendOn(s, a), b)
  {
    PlayConcat(s, true, a, b);
    SendingPlays(s, a);
    SendingPlays(s, a + b);
  }

  /** The second call, from the report of the first, against one call with all the keys. */
  ghost predicate SameAsOneCall(s: State, r: Report, a: seq<WireKey>, b: seq<WireKey>, all: bool)
    requires InOrder(s.control) && WireOk(a)
  {
    WireOk(b) ==>
      WireOk(a + b) && Alike(SendOn(Restored(Fresh(SendOn(s, a)), r), b), SendOn(s, a + b), all)
  }

  /** The same control and cursor after the second call. */
  ghost predicate SameText(s: State, r: Report, a: seq<WireKey>, b: seq<WireKey>)
    requires InOrder(s.control) && WireOk(a)
  {
    WireOk(b) && WireOk(a + b) ==>
      var two, one := SendOn(Restored(Fresh(SendOn(s, a)), r), b), SendOn(s, a + b);
      two.control == one.control && two.currentPos == one.currentPos
  }

  lemma RestoredPlaysAlike(s: State, r: Report, a: seq<WireKey>, b: seq<WireKey>, all: bool)
    requires InOrder(s.control) && WireOk(a) && Reports(r, SendOn(s, a))
    requires SHIFT !in SendOn(s, a).pressed
    requires all ==> forall m :: IsModifier(m) ==> m !in SendOn(s, a).pressed
    ensures SameAsOneCall(s, r, a, b, all)
  {
    if WireOk(b) {
      var s1 := SendOn(s, a);
      CopiesAreNoModifiers(r, Fresh(s1));
      SendConcat(s, a, b);
      SendingPlays(Restored(Fresh(s1), r), b);
      PlayAlike(Restored(Fresh(s1), r), s1, b, all);
    }
  }

  /**
   * Two calls do what one call with all the keys does, down to the modifiers held, whatever the
   * second call types, if and only if the first call leaves no modifier held.
   */
  lemma TwoCallsAreOne(s: State, r: Report, a: seq<WireKey>)
    requires InOrder(s.control) && WireOk(a) && Reports(r, SendOn(s, a))
    ensures (forall b: seq<WireKey> :: SameAsOneCall(s, r, a, b, true))
      <==> forall m :: IsModifier(m) ==> m !in SendOn(s, a).pressed
  {
    var s1 := SendOn(s, a);
    if forall m :: IsModifier(m) ==> m !in s1.pressed {
      forall b: seq<WireKey> ensures SameAsOneCall(s, r, a, b, true) {
        RestoredPlaysAlike(s, r, a, b, true);
      }
    } else {
      assert a + [] == a;
      CopiesAreNoModifiers(r, Fresh(s1));
      SendingPlays(Restored(Fresh(s1), r), []);
      assert !SameAsOneCall(s, r, a, [], true);
    }
  }

  // ---------------------------------------------------------------------------------------------
  // What the text shows of it
  // ---------------------------------------------------------------------------------------------

  lemma {:induction false} LetterAMention(rs: seq<Registration>)
    requires forall r :: r in rs ==> r in KEYS
    requires LastMention(rs, 'a').Some?
    ensures LastMention(rs, 'a').value.key.shiftChar == Some('A')
  {
    LastMentionIsRegistered(rs, 'a');
    var r :| r in rs && Mentions(r, 'a') && LastMention(rs, 'a').value.key == MakeKey(r);
    PartOfKeyboard(r);
    if r in Letters() {
      var i :| 0 <= i < 26 && Letters()[i] == r;
    }
  }

  lemma LetterA()
    ensures HasKey('a') && Echo('a', false) == 'a' && Echo('a', true) == 'A'
  {
    LettersAreKnown('a');
    TableIsTheWinner(KEYS, 'a');
    LastMentionExists(KEYS, 'a');
    LetterAMention(KEYS);
  }

  /** A printable character that is no space can always be inserted. */
  lemma LetterIsClean(c: Control, ch: char)
    requires Valid(c) && Printable(ch) && ch != ' '
    ensures Clean(c.kind, Written(c, [ch]).value)
  {
  }

  lemma TypedA(s: State)
    requires Valid(s.control) && Roomy(s.control)
    ensures var b := [Typing(Text("a"))];
      && WireOk(b)
      && SendOn(s, b).control == Written(s.control, if SHIFT in s.pressed then "A" else "a")
  {
    var b, held := [Typing(Text("a"))], SHIFT in s.pressed;
    LetterA();
    assert Known("a");
    SendingPlays(s, b);
    assert b[..0] == [];
    PlayStep(s, true, b);
    assert "a"[..0] == [];
    assert TypeText(s, "a") == TypeChar(s, 'a');
    CharLands(s, 'a');
    EchoIsPrintable('a', held);
    LetterIsClean(s.control, Echo('a', held));
    InsertLands(s, Echo('a', held));
  }

  lemma LettersDiffer(c: Control)
    requires InOrder(c)
    ensures Written(c, "A") != Written(c, "a")
  {
    assert Written(c, "A").value[c.start] == 'A' && Written(c, "a").value[c.start] == 'a';
  }

  /** With Shift held at the end of the first call, the letter `a` already tells two calls from one. */
  lemma ShiftIsForgotten(s: State, r: Report, a: seq<WireKey>)
    requires InOrder(s.control) && WireOk(a) && Reports(r, SendOn(s, a))
    requires SHIFT in SendOn(s, a).pressed && Valid(SendOn(s, a).control) && Roomy(SendOn(s, a).control)
    ensures var b, c := [Typing(Text("a"))], SendOn(s, a).control;
      && WireOk(b) && WireOk(a + b)
      && SendOn(s, a + b).control == Written(c, "A")
      && SendOn(Restored(Fresh(SendOn(s, a)), r), b).control == Written(c, "a")
      && !SameText(s, r, a, b)
  {
    var b, s1 := [Typing(Text("a"))], SendOn(s, a);
    TypedA(s1);
    TypedA(Restored(Fresh(s1), r));
    SendConcat(s, a, b);
    SendingPlays(s1, b);
    CopiesAreNoModifiers(r, Fresh(s1));
    LettersDiffer(s1.control);
  }

  /** In the text, two calls do what one does, whatever is typed, if and only if Shift is not left held. */
  lemma TwoCallsTypeAsOne(s: State, r: Report, a: seq<WireKey>)
    requires InOrder(s.control) && WireOk(a) && Reports(r, SendOn(s, a))
    requires Valid(SendOn(s, a).control) && Roomy(SendOn(s, a).control)
    ensures (forall b: seq<WireKey> :: SameText(s, r, a, b)) <==> SHIFT !in SendOn(s, a).pressed
  {
    if SHIFT in SendOn(s, a).pressed {
      ShiftIsForgotten(s, r, a);
    } else {
      forall b: seq<WireKey> ensures SameText(s, r, a, b) {
        RestoredPlaysAlike(s, r, a, b, false);
      }
    }
  }

  // ---------------------------------------------------------------------------------------------
  // Any number of calls
  // ---------------------------------------------------------------------------------------------

  /** A later call: the report it starts from, and its keys. */
  datatype Call = Call(report: Report, keys: seq<WireKey>)

  predicate CallsOk(calls: seq<Call>) { forall i :: 0 <= i < |calls| ==> WireOk(calls[i].keys) }

  /** A first call and later ones, each on a keyboard restored from the report it is given. */
  function SendAll(s: State, first: seq<WireKey>, calls: seq<Call>): (r: State)
    requires InOrder(s.control) && WireOk(first) && CallsOk(calls)
    ensures InOrder(r.control)
  {
    if calls == [] then SendOn(s, first)
    else
      var init, last := calls[..|calls| - 1], calls[|calls| - 1];
      SendOn(Restored(Fresh(SendAll(s, first, init)), last.report), last.keys)
  }

  /** The keys of all calls together. */
  function AllKeys(first: seq<WireKey>, calls: seq<Call>): (r: seq<WireKey>)
    requires WireOk(first) && CallsOk(calls)
    ensures WireOk(r)
  {
    if calls == [] then first
    else AllKeys(first, calls[..|calls| - 1]) + calls[|calls| - 1].keys
  }

  /** Each later call is given the report of the call before it. */
  predicate Relayed(s: State, first: seq<WireKey>, calls: seq<Call>)
    requires InOrder(s.control) && WireOk(first) && CallsOk(calls)
  {
    forall k :: 0 <= k < |calls| ==> Reports(calls[k].report, SendAll(s, first, calls[..k]))
  }

  /** Shift is not held and, with `all`, no other modifier is. */
  ghost predicate Released(s: State, all: bool)
  {
    SHIFT !in s.pressed && (all ==> forall m :: IsModifier(m) ==> m !in s.pressed)
  }

  /** No call but the last leaves such a key held. */
  ghost predicate ReleasedBetween(s: State, first: seq<WireKey>, calls: seq<Call>, all: bool)
    requires InOrder(s.control) && WireOk(first) && CallsOk(calls)
  {
    forall k :: 0 <= k < |calls| ==> Released(SendAll(s, first, calls[..k]), all)
  }

  lemma RestoredIsAlike(t: State, u: State, r: Report, all: bool)
    requires Reports(r, t) && Released(t, all) && Alike(t, u, all)
    ensures Alike(Restored(Fresh(t), r), u, all)
  {
    CopiesAreNoModifiers(r, Fresh(t));
  }

  /** One more call, from the report of a state like that of one call so far. */
  lemma OneMoreCall(s: State, t: State, r: Report, a: seq<WireKey>, b: seq<WireKey>, all: bool)
    requires InOrder(s.control) && InOrder(t.control) && WireOk(a) && WireOk(b)
    requires Reports(r, t) && Released(t, all) && Alike(t, SendOn(s, a), all)
    ensures WireOk(a + b) && Alike(SendOn(Restored(Fresh(t), r), b), SendOn(s, a + b), all)
  {
    RestoredIsAlike(t, SendOn(s, a), r, all);
    SendConcat(s, a, b);
    SendingPlays(Restored(Fresh(t), r), b);
    PlayAlike(Restored(Fresh(t), r), SendOn(s, a), b, all);
  }

  lemma CallsBefore(s: State, first: seq<WireKey>, calls: seq<Call>, k: nat, all: bool)
    requires InOrder(s.control) && WireOk(first) && CallsOk(calls) && k <= |calls|
    ensures Relayed(s, first, calls) ==> Relayed(s, first, calls[..k])
    ensures ReleasedBetween(s, first, calls, all) ==> ReleasedBetween(s, first, calls[..k], all)
  {
    assert forall i :: 0 <= i < k ==> calls[..k][..i] == calls[..i];
  }

  lemma {:induction false} ReleasedCallsAreAlike(s: State, first: seq<WireKey>, calls: seq<Call>, all: bool)
    requires InOrder(s.control) && WireOk(first) && CallsOk(calls)
    requires Relayed(s, first, calls) && ReleasedBetween(s, first, calls, all)
    ensures Alike(SendAll(s, first, calls), SendOn(s, AllKeys(first, calls)), all)
    decreases |calls|
  {
    if calls != [] {
      var n := |calls| - 1;
      CallsBefore(s, first, calls, n, all);
      ReleasedCallsAreAlike(s, first, calls[..n], all);
      OneMoreCall(s, SendAll(s, first, calls[..n]), calls[n].report,
                  AllKeys(first, calls[..n]), calls[n].keys, all);
    }
  }

  /** The same control and cursor and, with `all`, the same modifiers held. */
  ghost predicate Matches(s: State, t: State, all: bool)
  {
    && s.control == t.control && s.currentPos == t.currentPos
    && (all ==> forall m :: IsModifier(m) ==> (m in s.pressed <==> m in t.pressed))
  }

  /** After `k` later calls: whatever one call more types, it is as if all had been one call. */
  ghost predicate SameSoFar(s: State, first: seq<WireKey>, calls: seq<Call>, k: nat, all: bool)
    requires InOrder(s.control) && WireOk(first) && CallsOk(calls) && k < |calls|
  {
    forall b: seq<WireKey> :: WireOk(b) ==>
      var keys := AllKeys(first, calls[..k]);
      WireOk(keys + b)
      && Matches(SendOn(Restored(Fresh(SendAll(s, first, calls[..k])), calls[k].report), b), SendOn(s, keys + b), all)
  }

  /** The text can take one more letter. */
  predicate Writable(s: State) { Valid(s.control) && Roomy(s.control) }

  /** An empty call shows which modifiers are held. */
  lemma EmptyCallTells(s: State, t: State, r: Report, keys: seq<WireKey>)
    requires InOrder(s.control) && InOrder(t.control) && WireOk(keys)
    requires Reports(r, t) && Alike(t, SendOn(s, keys), true)
    requires Matches(SendOn(Restored(Fresh(t), r), []), SendOn(s, keys + []), true)
    ensures Released(t, true)
  {
    CopiesAreNoModifiers(r, Fresh(t));
    assert keys + [] == keys;
    SendingPlays(Restored(Fresh(t), r), []);
  }

  /** A call that types a letter shows whether Shift is held. */
  lemma LetterTells(s: State, t: State, r: Report, keys: seq<WireKey>)
    requires InOrder(s.control) && Writable(t) && WireOk(keys)
    requires Reports(r, t) && Alike(t, SendOn(s, keys), false)
    ensures var b := [Typing(Text("a"))];
      && WireOk(b) && WireOk(keys + b)
      && (Matches(SendOn(Restored(Fresh(t), r), b), SendOn(s, keys + b), false) ==> Released(t, false))
  {
    var b := [Typing(Text("a"))];
    TypedA(SendOn(s, keys));
    TypedA(Restored(Fresh(t), r));
    SendConcat(s, keys, b);
    SendingPlays(SendOn(s, keys), b);
    CopiesAreNoModifiers(r, Fresh(t));
    LettersDiffer(t.control);
  }

  lemma SameMeansReleased(s: State, first: seq<WireKey>, calls: seq<Call>, k: nat, all: bool)
    requires InOrder(s.control) && WireOk(first) && CallsOk(calls) && Relayed(s, first, calls) && k < |calls|
    requires SameSoFar(s, first, calls, k, all) && ReleasedBetween(s, first, calls[..k], all)
    requires !all ==> Writable(SendAll(s, first, calls[..k]))
    ensures Released(SendAll(s, first, calls[..k]), all)
  {
    var t, r, keys := SendAll(s, first, calls[..k]), calls[k].report, AllKeys(first, calls[..k]);
    CallsBefore(s, first, calls, k, all);
    ReleasedCallsAreAlike(s, first, calls[..k], all);
    if all {
      assert WireOk([]);
      EmptyCallTells(s, t, r, keys);
    } else {
      LetterTells(s, t, r, keys);
    }
  }

  lemma ReleasedMeansSame(s: State, first: seq<WireKey>, calls: seq<Call>, k: nat, all: bool)
    requires InOrder(s.control) && WireOk(first) && CallsOk(calls) && Relayed(s, first, calls) && k < |calls|
    requires ReleasedBetween(s, first, calls, all)
    ensures SameSoFar(s, first, calls, k, all)
  {
    CallsBefore(s, first, calls, k, all);
    ReleasedCallsAreAlike(s, first, calls[..k], all);
    forall b: seq<WireKey> | WireOk(b)
      ensures var keys := AllKeys(first, calls[..k]);
        WireOk(keys + b)
        && Matches(SendOn(Restored(Fresh(SendAll(s, first, calls[..k])), calls[k].report), b), SendOn(s, keys + b), all)
    {
      OneMoreCall(s, SendAll(s, first, calls[..k]), calls[k].report, AllKeys(first, calls[..k]), b, all);
    }
  }

  lemma {:induction false} SameUpToMeansReleased(
    s: State, first: seq<WireKey>, calls: seq<Call>, n: nat, all: bool)
    requires InOrder(s.control) && WireOk(first) && CallsOk(calls) && Relayed(s, first, calls) && n <= |calls|
    requires forall k :: 0 <= k < n ==> SameSoFar(s, first, calls, k, all)
    requires !all ==> forall k :: 0 <= k < n ==> Writable(SendAll(s, first, calls[..k]))
    ensures ReleasedBetween(s, first, calls[..n], all)
  {
    if n > 0 {
      SameUpToMeansReleased(s, first, calls, n - 1, all);
      SameMeansReleased(s, first, calls, n - 1, all);
      OneReleasedMore(s, first, calls, n, all);
    }
  }

  lemma {:induction false} OneReleasedMore(s: State, first: seq<WireKey>, calls: seq<Call>, n: nat, all: bool)
    requires InOrder(s.control) && WireOk(first) && CallsOk(calls) && 0 < n <= |calls|
    requires ReleasedBetween(s, first, calls[..n - 1], all) && Released(SendAll(s, first, calls[..n - 1]), all)
    ensures ReleasedBetween(s, first, calls[..n], all)
  {
    forall k | 0 <= k < n
      ensures Released(SendAll(s, first, calls[..n][..k]), all)
    {
      assert calls[..n][..k] == calls[..k];
      if k < n - 1 { assert calls[..n - 1][..k] == calls[..k]; }
    }
  }

  lemma {:induction false} SameExactly(s: State, first: seq<WireKey>, calls: seq<Call>, all: bool)
    requires InOrder(s.control) && WireOk(first) && CallsOk(calls) && Relayed(s, first, calls)
    requires !all ==> forall k :: 0 <= k < |calls| ==> Writable(SendAll(s, first, calls[..k]))
    ensures (forall k :: 0 <= k < |calls| ==> SameSoFar(s, first, calls, k, all))
      <==> ReleasedBetween(s, first, calls, all)
  {
    if ReleasedBetween(s, first, calls, all) {
      forall k | 0 <= k < |calls|
        ensures SameSoFar(s, first, calls, k, all)
      {
        ReleasedMeansSame(s, first, calls, k, all);
      }
    }
    if forall k :: 0 <= k < |calls| ==> SameSoFar(s, first, calls, k, all) {
      SameUpToMeansReleased(s, first, calls, |calls|, all);
      assert calls[..|calls|] == calls;
    }
  }

  /**
   * Any number of calls: after each, whatever the next one types, it is as if all so far had been one
   * call, down to the modifiers held, if and only if no call but the last leaves a modifier held.
   * Then all of them together do what one call does.
   */
  lemma CallsAreOne(s: State, first: seq<WireKey>, calls: seq<Call>)
    requires InOrder(s.control) && WireOk(first) && CallsOk(calls) && Relayed(s, first, calls)
    ensures (forall k :: 0 <= k < |calls| ==> SameSoFar(s, first, calls, k, true))
      <==> ReleasedBetween(s, first, calls, true)
    ensures ReleasedBetween(s, first, calls, true) ==>
      Matches(SendAll(s, first, calls), SendOn(s, AllKeys(first, calls)), true)
  {
    SameExactly(s, first, calls, true);
    if ReleasedBetween(s, first, calls, true) { ReleasedCallsAreAlike(s, first, calls, true); }
  }

  /** The same in the text and the cursor alone, where it is Shift that must not be left held. */
  lemma CallsTypeAsOne(s: State, first: seq<WireKey>, calls: seq<Call>)
    requires InOrder(s.control) && WireOk(first) && CallsOk(calls) && Relayed(s, first, calls)
    requires forall k :: 0 <= k < |calls| ==> Writable(SendAll(s, first, calls[..k]))
    ensures (forall k :: 0 <= k < |calls| ==> SameSoFar(s, first, calls, k, false))
      <==> ReleasedBetween(s, first, calls, false)
    ensures ReleasedBetween(s, first, calls, false) ==>
      Matches(SendAll(s, first, calls), SendOn(s, AllKeys(first, calls)), false)
  {
    SameExactly(s, first, calls, false);
    if ReleasedBetween(s, first, calls, false) { ReleasedCallsAreAlike(s, first, calls, false); }
  }
}
