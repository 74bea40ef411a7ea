/**
 * The `type` atom supplies no keyboard, so that each record after a NULL key is typed by a new one,
 * which does not know where the cursor is. When that shows, and when it does not.
 */
module NewKeyboards {
  import opened KeyTable
  import opened TextControls
  import opened Keyboards
  import opened Editors
  import opened Typings
  import opened WireKeys

  // ---------------------------------------------------------------------------------------------
  // Which keys depend on the remembered cursor
  // ---------------------------------------------------------------------------------------------

  predicate Moves(key: Key) { key == LEFT || key == RIGHT || key == HOME || key == END }

  /** A movement with Shift: the only kind of key that asks where the cursor was. */
  predicate ShiftMove(s: State, t: Token)
  {
    t.Special? && Moves(t.key) && SHIFT in s.pressed
  }

  /** A key that puts the cursor somewhere without asking where it was. */
  predicate Repositions(s: State, t: Token)
  {
    match t
    case Text(text) => text != []
    case Special(key) =>
      && key.code.Some?
      && if key.character.Some? then true
         else if key == ENTER then s.control.kind.MultiLine?
         else key == BACKSPACE || key == DELETE || (Moves(key) && SHIFT !in s.pressed)
  }

  /**
   * A movement with Shift does the same for a keyboard that takes the cursor to be at `q` as for one
   * that takes it to be at `p`: both take the same branch, or the two branches come to the same.
   */
  predicate Agree(c: Control, p: int, q: int, key: Key)
  {
    if key == RIGHT then ((p == c.end) == (q == c.end)) || c.start == c.end == |c.value|
    else ((p == c.start) == (q == c.start)) || (key != LEFT && c.start == c.end)
  }

  /** Where a keyboard that takes the cursor to be at `q` takes it to be after the key. */
  function CursorAfter(s: State, q: int, t: Token): int
    requires InOrder(s.control) && TokenOk(t)
  {
    if ShiftMove(s, t) then
      if t.key == HOME then 0
      else if t.key == END then |s.control.value|
      else ShiftTarget(s.control, q, t.key).2
    else if Repositions(s, t) then TypeToken(s, t).currentPos
    else q
  }

  /** The only cursors a keyboard of this program can be wrong about. */
  predicate Plausible(c: Control, p: int, q: int)
  {
    q == p || q == 0 || (q == |c.value| + 1 && c.start == c.end == |c.value| > 0)
  }

  lemma CharacterAt(s: State, q: int, key: Key)
    requires InOrder(s.control)
    ensures OnCharacter(s.(currentPos := q), key) == OnCharacter(s, key)
  {
  }

  lemma EraseAt(s: State, q: int, key: Key)
    requires InOrder(s.control)
    ensures OnBackspaceOrDelete(s.(currentPos := q), key) == OnBackspaceOrDelete(s, key)
  {
  }

  lemma PlainMoveAt(s: State, q: int, key: Key)
    requires InOrder(s.control) && SHIFT !in s.pressed
    ensures OnLeftOrRight(s.(currentPos := q), key) == OnLeftOrRight(s, key)
    ensures OnHomeOrEnd(s.(currentPos := q), key) == OnHomeOrEnd(s, key)
  {
  }

  lemma EditAt(s: State, q: int, key: Key)
    requires InOrder(s.control) && key.code.Some? && !(Moves(key) && SHIFT in s.pressed)
    ensures var t := MaybeEditText(s, key);
      MaybeEditText(s.(currentPos := q), key)
      == t.(currentPos := if Repositions(s, Special(key)) then t.currentPos else q)
    ensures !Repositions(s, Special(key)) ==>
      MaybeEditText(s, key).currentPos == s.currentPos && MaybeEditText(s, key).control == s.control
  {
    if key.character.Some? {
      CharacterAt(s, q, key);
    } else if key == BACKSPACE || key == DELETE {
      EraseAt(s, q, key);
    } else if Moves(key) {
      PlainMoveAt(s, q, key);
    }
  }

  lemma PressAt(s: State, q: int, key: Key)
    requires InOrder(s.control) && !(Moves(key) && SHIFT in s.pressed)
    ensures var t, t' := Press(s, key), Press(s.(currentPos := q), key);
      t' == t.(currentPos := if Repositions(s, Special(key)) then t.currentPos else q)
    ensures !Repositions(s, Special(key)) ==>
      Press(s, key).currentPos == s.currentPos && Press(s, key).control == s.control
  {
    if key.code.Some? {
      EditAt(s.(events := s.events + KeyEvents(key)), q, key);
    }
  }

  lemma ReleaseAt(s: State, q: int, key: Key)
    ensures Release(s.(currentPos := q), key) == Release(s, key).(currentPos := q)
    ensures Release(s, key).currentPos == s.currentPos && Release(s, key).control == s.control
  {
  }

  lemma CharAt(s: State, q: int, ch: char)
    requires InOrder(s.control) && HasKey(ch)
    ensures TypeChar(s.(currentPos := q), ch) == TypeChar(s, ch)
  {
    var b := CharacterTable()[ch];
    TableKeysArePrintable(ch);
    if b.shift && SHIFT !in s.pressed {
      PressAt(s, q, SHIFT);
      PressAt(Press(s, SHIFT), q, b.key);
    } else {
      PressAt(s, q, b.key);
    }
  }

  lemma {:induction false} TextAt(s: State, q: int, text: string)
    requires InOrder(s.control) && Known(text) && text != []
    ensures TypeText(s.(currentPos := q), text) == TypeText(s, text)
  {
    if |text| == 1 {
      assert text[..0] == [];
      CharAt(s, q, text[0]);
    } else {
      TextAt(s, q, text[..|text| - 1]);
    }
  }

  /** Any other key: the two keyboards do the same. */
  lemma OtherTokenAt(s: State, q: int, t: Token)
    requires InOrder(s.control) && TokenOk(t) && !ShiftMove(s, t)
    ensures TypeToken(s.(currentPos := q), t) == TypeToken(s, t).(currentPos := CursorAfter(s, q, t))
    ensures !Repositions(s, t) ==>
      TypeToken(s, t).currentPos == s.currentPos && TypeToken(s, t).control == s.control
  {
    match t
    case Text(text) =>
      if text != [] {
        TextAt(s, q, text);
      }
    case Special(key) => SpecialAt(s, q, key);
  }

  lemma SpecialAt(s: State, q: int, key: Key)
    requires InOrder(s.control) && !ShiftMove(s, Special(key))
    ensures var t := TypeToken(s, Special(key));
      && TypeToken(s.(currentPos := q), Special(key))
         == t.(currentPos := if Repositions(s, Special(key)) then t.currentPos else q)
      && (!Repositions(s, Special(key)) ==> t.currentPos == s.currentPos && t.control == s.control)
  {
    if IsModifier(key) && key in s.pressed {
      ReleaseAt(s, q, key);
    } else {
      var u := Press(s, key);
      PressAt(s, q, key);
      ReleaseAt(u, if Repositions(s, Special(key)) then u.currentPos else q, key);
    }
  }

  // ---------------------------------------------------------------------------------------------
  // A movement with Shift
  // ---------------------------------------------------------------------------------------------

  /** The four movements, from a cursor that is tracked and from one that may not be. */
  lemma ArrowAgrees(s: State, q: int, key: Key)
    requires Tracks(s) && Plausible(s.control, s.currentPos, q) && SHIFT in s.pressed
    requires key == LEFT || key == RIGHT
    ensures var t, t' := OnLeftOrRight(s, key), OnLeftOrRight(s.(currentPos := q), key);
      var r := ShiftTarget(s.control, q, key).2;
      && (t'.control == t.control <==> Agree(s.control, s.currentPos, q, key))
      && t' == t.(control := t'.control, currentPos := r)
      && (Agree(s.control, s.currentPos, q, key) ==> Plausible(t.control, t.currentPos, r))
  {
    var c := s.control;
    var (a, b, _) := ShiftTarget(c, s.currentPos, key);
    var (a', b', _) := ShiftTarget(c, q, key);
    SettersSelect(c, a, b);
    if a' <= b' <= |c.value| {
      SettersSelect(c, a', b');
    } else if b' >= 0 {
      CollapsedSetters(c, a', b');
    }
  }

  /** An end set before the start takes the start along. */
  lemma CollapsedSetters(c: Control, a: nat, b: nat)
    requires Valid(c) && b < a <= |c.value| + 1 && b <= |c.value|
    ensures SetSelectionEnd(SetSelectionStart(c, a), b) == c.(start := b, end := b)
  {
    InRange(a);
    InRange(b);
  }

  lemma HomeAgrees(s: State, q: int)
    requires Tracks(s) && SHIFT in s.pressed
    ensures var t, t' := OnHomeOrEnd(s, HOME), OnHomeOrEnd(s.(currentPos := q), HOME);
      && (t'.control == t.control <==> Agree(s.control, s.currentPos, q, HOME))
      && t' == t.(control := t'.control) && t.currentPos == 0
  {
    var c := s.control;
    SettersSelect(c, 0, c.start);
    SettersSelect(c, 0, c.end);
  }

  lemma EndAgrees(s: State, q: int)
    requires Tracks(s) && SHIFT in s.pressed
    ensures var t, t' := OnHomeOrEnd(s, END), OnHomeOrEnd(s.(currentPos := q), END);
      && (t'.control == t.control <==> Agree(s.control, s.currentPos, q, END))
      && t' == t.(control := t'.control) && t.currentPos == |s.control.value|
  {
    var c := s.control;
    SettersSelect(c, c.end, |c.value|);
    InRange(|c.value|);
  }

  lemma MoveAgrees(s: State, q: int, key: Key)
    requires Tracks(s) && Plausible(s.control, s.currentPos, q) && SHIFT in s.pressed && Moves(key)
    ensures var t, t' := MaybeEditText(s, key), MaybeEditText(s.(currentPos := q), key);
      var r := CursorAfter(s, q, Special(key));
      && (t'.control == t.control <==> Agree(s.control, s.currentPos, q, key))
      && t' == t.(control := t'.control, currentPos := r)
      && (Agree(s.control, s.currentPos, q, key) ==> Plausible(t.control, t.currentPos, r))
  {
    if key == HOME {
      HomeAgrees(s, q);
    } else if key == END {
      EndAgrees(s, q);
    } else {
      ArrowAgrees(s, q, key);
    }
  }

  /** The control is the same after a movement with Shift exactly when the two cursors agree on it. */
  lemma ShiftMoveAt(s: State, q: int, t: Token)
    requires Tracks(s) && Plausible(s.control, s.currentPos, q) && ShiftMove(s, t)
    ensures var u, u', r := TypeToken(s, t), TypeToken(s.(currentPos := q), t), CursorAfter(s, q, t);
      && (u'.control == u.control <==> Agree(s.control, s.currentPos, q, t.key))
      && u' == u.(control := u'.control, currentPos := r)
      && (Agree(s.control, s.currentPos, q, t.key) ==> Plausible(u.control, u.currentPos, r))
  {
    var key := t.key;
    var s1 := s.(events := s.events + KeyEvents(key));
    MoveAgrees(s1, q, key);
    assert CursorAfter(s1, q, t) == CursorAfter(s, q, t);
  }

  // ---------------------------------------------------------------------------------------------
  // Whole sequences
  // ---------------------------------------------------------------------------------------------

  /** Nothing but modifiers is held, and the mask shows them. */
  ghost predicate Tidy(s: State)
  {
    s.modifiers == MaskOf(s.pressed) && forall key :: key in s.pressed ==> IsModifier(key)
  }

  lemma TokenKeepsTidy(s: State, t: Token)
    requires InOrder(s.control) && TokenOk(t) && Tidy(s)
    ensures Tidy(TypeToken(s, t))
  {
    OneToken(s, t);
    TypeKeepsMask(s, [t]);
    OnlyModifiersStayDown(s, [t]);
  }

  lemma ReleaseLeavesNothing(s: State)
    requires InOrder(s.control) && Tidy(s)
    ensures var t := ReleaseAll(s, MODIFIERS);
      t.pressed == {} && t.modifiers == 0 && t.control == s.control && t.currentPos == s.currentPos && Tidy(t)
  {
    ReleaseAllReleases(s, MODIFIERS);
    assert MaskOf({}) == 0;
  }

  lemma {:induction false} ReleaseAllAt(s: State, q: int, keys: seq<Key>)
    requires InOrder(s.control)
    ensures ReleaseAll(s.(currentPos := q), keys) == ReleaseAll(s, keys).(currentPos := q)
  {
    if keys != [] {
      ReleaseAllAt(s, q, keys[..|keys| - 1]);
    }
  }

  lemma {:induction false} PlayKeepsTidy(s: State, ks: seq<WireKey>)
    requires InOrder(s.control) && WireOk(ks) && Tidy(s)
    ensures Tidy(Play(s, ks))
  {
    if ks != [] {
      var s1 := Play(s, ks[..|ks| - 1]);
      PlayKeepsTidy(s, ks[..|ks| - 1]);
      match ks[|ks| - 1]
      case Typing(t) => TokenKeepsTidy(s1, t);
      case Null => ReleaseLeavesNothing(s1);
    }
  }

  /** Where the keyboard in use takes the cursor to be after a key; NULL brings a new one. */
  function CursorNext(d: State, r: int, k: WireKey): int
    requires InOrder(d.control) && (k.Typing? ==> TokenOk(k.token))
  {
    if k.Null? then 0 else CursorAfter(d, r, k.token)
  }

  function CursorAt(s: State, q: int, ks: seq<WireKey>): int
    requires InOrder(s.control) && WireOk(ks)
  {
    if ks == [] then q
    else
      var init := ks[..|ks| - 1];
      CursorNext(Play(s, init), CursorAt(s, q, init), ks[|ks| - 1])
  }

  /** The key does what it means, although the keyboard in use takes the cursor to be at `r`. */
  predicate AgreeOn(d: State, r: int, k: WireKey)
  {
    k.Typing? && ShiftMove(d, k.token) ==> Agree(d.control, d.currentPos, r, k.token.key)
  }

  predicate AgreeAt(s: State, q: int, ks: seq<WireKey>, n: nat)
    requires InOrder(s.control) && WireOk(ks) && n < |ks|
  {
    AgreeOn(Play(s, ks[..n]), CursorAt(s, q, ks[..n]), ks[n])
  }

  predicate InStep(s: State, q: int, ks: seq<WireKey>)
    requires InOrder(s.control) && WireOk(ks)
  {
    forall n :: 0 <= n < |ks| ==> AgreeAt(s, q, ks, n)
  }

  /** What is typed is tracked all along, if the right keyboard types it. */
  predicate AllTrack(s: State, ks: seq<WireKey>)
    requires InOrder(s.control) && WireOk(ks)
  {
    forall n :: 0 <= n <= |ks| ==> Tracks(Play(s, ks[..n]))
  }

  lemma AllTrackPrefix(s: State, q: int, ks: seq<WireKey>, m: nat)
    requires InOrder(s.control) && WireOk(ks) && m <= |ks|
    ensures AllTrack(s, ks) ==> AllTrack(s, ks[..m])
    ensures InStep(s, q, ks) ==> InStep(s, q, ks[..m])
  {
    assert forall n :: 0 <= n <= m ==> ks[..m][..n] == ks[..n];
    if InStep(s, q, ks) {
      forall n | 0 <= n < m ensures AgreeAt(s, q, ks[..m], n) {
        assert AgreeAt(s, q, ks, n);
      }
    }
  }

  /** `t'` is `t`, but for the cursor, which it takes to be at `q`. */
  predicate Shadows(t': State, t: State, q: int)
  {
    t' == t.(currentPos := q) && Plausible(t.control, t.currentPos, q)
  }

  /** The keyboards in use do what the right one does, but for the cursor they remember. */
  predicate Follows(s: State, q: int, ks: seq<WireKey>)
    requires InOrder(s.control) && WireOk(ks)
  {
    Shadows(PlayOn(s.(currentPos := q), false, ks), Play(s, ks), CursorAt(s, q, ks))
  }

  lemma NullFollows(d: State, r: int)
    requires InOrder(d.control) && Tidy(d)
    ensures PlayKey(d.(currentPos := r), false, Null) == PlayKey(d, true, Null).(currentPos := 0)
  {
    ReleaseAllAt(d, r, MODIFIERS);
    ReleaseLeavesNothing(d);
  }

  /** One more key: still in step if and only if the cursors agree on it. */
  lemma KeyFollows(d: State, r: int, k: WireKey)
    requires Tracks(d) && Tidy(d) && Plausible(d.control, d.currentPos, r) && (k.Typing? ==> TokenOk(k.token))
    ensures var t, t', q := PlayKey(d, true, k), PlayKey(d.(currentPos := r), false, k), CursorNext(d, r, k);
      && (AgreeOn(d, r, k) ==> t' == t.(currentPos := q) && Plausible(t.control, t.currentPos, q))
      && (!AgreeOn(d, r, k) ==> t'.control != t.control)
  {
    match k
    case Null => NullFollows(d, r);
    case Typing(t) =>
      if ShiftMove(d, t) {
        ShiftMoveAt(d, r, t);
      } else {
        OtherTokenAt(d, r, t);
      }
  }

  lemma {:induction false} PlayStep(s: State, supplied: bool, ks: seq<WireKey>)
    requires InOrder(s.control) && WireOk(ks) && ks != []
    ensures PlayOn(s, supplied, ks) == PlayKey(PlayOn(s, supplied, ks[..|ks| - 1]), supplied, ks[|ks| - 1])
  {
  }

  lemma {:induction false} CursorStep(s: State, q: int, ks: seq<WireKey>)
    requires InOrder(s.control) && WireOk(ks) && ks != []
    ensures var init, k := ks[..|ks| - 1], ks[|ks| - 1];
      && CursorAt(s, q, ks) == CursorNext(Play(s, init), CursorAt(s, q, init), k)
      && AgreeAt(s, q, ks, |ks| - 1) == AgreeOn(Play(s, init), CursorAt(s, q, init), k)
  {
  }

  lemma {:induction false} FollowsNext(s: State, q: int, ks: seq<WireKey>)
    requires InOrder(s.control) && WireOk(ks) && ks != [] && Tidy(s)
    requires Tracks(Play(s, ks[..|ks| - 1])) && Follows(s, q, ks[..|ks| - 1])
    ensures var agree := AgreeAt(s, q, ks, |ks| - 1);
      && agree == Follows(s, q, ks)
      && (agree || PlayOn(s.(currentPos := q), false, ks).control != Play(s, ks).control)
  {
    var init, k := ks[..|ks| - 1], ks[|ks| - 1];
    PlayKeepsTidy(s, init);
    PlayStep(s, true, ks);
    PlayStep(s.(currentPos := q), false, ks);
    CursorStep(s, q, ks);
    NextFollows(PlayOn(s.(currentPos := q), false, init), Play(s, init), CursorAt(s, q, init), k,
                AgreeAt(s, q, ks, |ks| - 1),
                PlayOn(s.(currentPos := q), false, ks), Play(s, ks), CursorAt(s, q, ks));
  }

  lemma NextFollows(d': State, d: State, r: int, k: WireKey, agree: bool, t': State, t: State, q: int)
    requires Tracks(d) && Tidy(d) && (k.Typing? ==> TokenOk(k.token))
    requires Shadows(d', d, r) && agree == AgreeOn(d, r, k)
    requires t' == PlayKey(d', false, k) && t == PlayKey(d, true, k) && q == CursorNext(d, r, k)
    ensures agree == Shadows(t', t, q)
    ensures agree || t'.control != t.control
  {
    KeyFollows(d, r, k);
  }

  lemma {:induction false} InStepFollows(s: State, q: int, ks: seq<WireKey>)
    requires InOrder(s.control) && WireOk(ks) && Tidy(s) && AllTrack(s, ks)
    requires Plausible(s.control, s.currentPos, q) && InStep(s, q, ks)
    ensures Follows(s, q, ks)
  {
    if ks != [] {
      var init := ks[..|ks| - 1];
      AllTrackPrefix(s, q, ks, |ks| - 1);
      InStepFollows(s, q, init);
      FollowsNext(s, q, ks);
    }
  }

  /** After every key, the control is what it would be if one keyboard had typed them all. */
  predicate SameControls(s: State, q: int, ks: seq<WireKey>)
    requires InOrder(s.control) && WireOk(ks)
  {
    forall n :: 0 <= n <= |ks| ==>
      PlayOn(s.(currentPos := q), false, ks[..n]).control == Play(s, ks[..n]).control
  }

  lemma {:induction false} FirstMiss(s: State, q: int, ks: seq<WireKey>) returns (n: nat)
    requires InOrder(s.control) && WireOk(ks) && !InStep(s, q, ks)
    ensures n < |ks| && !AgreeAt(s, q, ks, n) && InStep(s, q, ks[..n])
  {
    var m := |ks| - 1;
    forall i | 0 <= i < m ensures AgreeAt(s, q, ks[..m], i) == AgreeAt(s, q, ks, i) {
      assert ks[..m][..i] == ks[..i];
    }
    if InStep(s, q, ks[..m]) {
      n := m;
    } else {
      n := FirstMiss(s, q, ks[..m]);
      assert ks[..m][..n] == ks[..n];
    }
  }

  /**
   * With a new keyboard after each NULL, every key does what it means if and only if each movement
   * with Shift is typed by a keyboard whose cursor agrees with the true one on it.
   */
  lemma {:induction false} NewKeyboardsExactly(s: State, q: int, ks: seq<WireKey>)
    requires InOrder(s.control) && WireOk(ks) && Tidy(s) && AllTrack(s, ks)
    requires Plausible(s.control, s.currentPos, q)
    ensures SameControls(s, q, ks) <==> InStep(s, q, ks)
  {
    if InStep(s, q, ks) {
      forall n | 0 <= n <= |ks|
        ensures PlayOn(s.(currentPos := q), false, ks[..n]).control == Play(s, ks[..n]).control
      {
        AllTrackPrefix(s, q, ks, n);
        InStepFollows(s, q, ks[..n]);
      }
    } else {
      var n := FirstMiss(s, q, ks);
      AllTrackPrefix(s, q, ks, n);
      InStepFollows(s, q, ks[..n]);
      assert ks[..n + 1][..n] == ks[..n];
      FollowsNext(s, q, ks[..n + 1]);
    }
  }

  // ---------------------------------------------------------------------------------------------
  // The atom
  // ---------------------------------------------------------------------------------------------

  /**
   * The editor the atom's user has in mind: the caret at the end if the focus moves there, and
   * otherwise the selection as it is, with its cursor at the end `p` of it.
   */
  function Meant(s: State, focused: bool, p: int): State
  {
    if focused then Fresh(s).(currentPos := p) else Focus(Fresh(s), true)
  }

  /** Where the first new keyboard takes the cursor to be. */
  function FirstCursor(s: State, focused: bool): int
  {
    if focused then 0 else |s.control.value|
  }

  lemma MeantIsTracked(s: State, focused: bool, p: int)
    requires Valid(s.control) && (p == s.control.start || p == s.control.end)
    ensures var d, q := Meant(s, focused, p), FirstCursor(s, focused);
      && Tracks(d) && Tidy(d) && d.control.kind == s.control.kind && d.control.value == s.control.value
      && Plausible(d.control, d.currentPos, q)
      && Focus(Board(s, false), !focused) == d.(currentPos := q)
  {
    FocusTracks(Fresh(s));
    assert MaskOf({}) == 0;
  }

  /**
   * The `type` atom, for every sequence of keys: after each key the control is what the keys mean if
   * and only if the new keyboards are in step with them.
   */
  lemma AtomExactly(s: State, focused: bool, p: int, ks: seq<WireKey>)
    requires Valid(s.control) && (p == s.control.start || p == s.control.end)
    requires WireOk(ks) && InOrder(Meant(s, focused, p).control) && AllTrack(Meant(s, focused, p), ks)
    ensures var d := Meant(s, focused, p);
      (forall n :: 0 <= n <= |ks| ==>
         TypeSequence(s, focused, false, ks[..n], false).control == Play(d, ks[..n]).control)
      <==> InStep(d, FirstCursor(s, focused), ks)
  {
    var d, q := Meant(s, focused, p), FirstCursor(s, focused);
    MeantIsTracked(s, focused, p);
    forall n | 0 <= n <= |ks|
      ensures TypeSequence(s, focused, false, ks[..n], false).control
           == PlayOn(d.(currentPos := q), false, ks[..n]).control
    {
      SplittingPlaysKeys(s, focused, false, ks[..n], false);
      ReleaseAllReleases(PlayOn(d.(currentPos := q), false, ks[..n]), MODIFIERS);
    }
    NewKeyboardsExactly(d, q, ks);
  }

  /** A keyboard has found the cursor: it was told where it is, or it has put it somewhere since the last NULL. */
  predicate Oriented(s: State, told: bool, ks: seq<WireKey>)
    requires InOrder(s.control) && WireOk(ks)
  {
    if ks == [] then told
    else
      var init, k := ks[..|ks| - 1], ks[|ks| - 1];
      k.Typing? && (Repositions(Play(s, init), k.token) || Oriented(s, told, init))
  }

  lemma {:induction false} OrientedKnows(s: State, q: int, ks: seq<WireKey>)
    requires InOrder(s.control) && WireOk(ks) && Oriented(s, q == s.currentPos, ks)
    requires forall n :: 0 <= n < |ks| ==>
      ks[n].Typing? && ShiftMove(Play(s, ks[..n]), ks[n].token) ==> Oriented(s, q == s.currentPos, ks[..n])
    ensures CursorAt(s, q, ks) == Play(s, ks).currentPos
  {
    if ks != [] {
      var init, t := ks[..|ks| - 1], ks[|ks| - 1].token;
      var d := Play(s, init);
      assert forall n :: 0 <= n < |init| ==> init[..n] == ks[..n];
      PlayStep(s, true, ks);
      CursorStep(s, q, ks);
      if Oriented(s, q == s.currentPos, init) {
        OrientedKnows(s, q, init);
        KnownStaysKnown(d, t);
      } else {
        assert !ShiftMove(d, t) && Repositions(d, t);
      }
    }
  }

  lemma KnownStaysKnown(d: State, t: Token)
    requires InOrder(d.control) && TokenOk(t)
    ensures CursorAfter(d, d.currentPos, t) == TypeToken(d, t).currentPos
  {
    if !ShiftMove(d, t) {
      OtherTokenAt(d, d.currentPos, t);
    } else {
      var s1 := d.(events := d.events + KeyEvents(t.key));
      assert Press(d, t.key).currentPos == MaybeEditText(s1, t.key).currentPos;
    }
  }

  /**
   * Enough, and easy to see in advance: no keyboard is asked to extend a selection before it has put
   * the cursor somewhere, or was told where it is by moving the focus.
   */
  lemma {:induction false} OrientedIsInStep(s: State, q: int, ks: seq<WireKey>)
    requires InOrder(s.control) && WireOk(ks)
    requires forall n :: 0 <= n < |ks| ==>
      ks[n].Typing? && ShiftMove(Play(s, ks[..n]), ks[n].token) ==> Oriented(s, q == s.currentPos, ks[..n])
    ensures InStep(s, q, ks)
  {
    forall n | 0 <= n < |ks| ensures AgreeAt(s, q, ks, n) {
      if ks[n].Typing? && ShiftMove(Play(s, ks[..n]), ks[n].token) {
        assert forall m :: 0 <= m < n ==> ks[..n][..m] == ks[..m];
        OrientedKnows(s, q, ks[..n]);
      }
    }
  }

  // ---------------------------------------------------------------------------------------------
  // Tracking is no condition in text inputs and textareas
  // ---------------------------------------------------------------------------------------------

  function Weight(k: WireKey): nat
  {
    if k.Null? then 0 else if k.token.Text? then |k.token.text| else 1
  }

  function TotalWeight(ks: seq<WireKey>): nat
  {
    if ks == [] then 0 else TotalWeight(ks[..|ks| - 1]) + Weight(ks[|ks| - 1])
  }

  predicate PrintableKeys(ks: seq<WireKey>)
  {
    forall n :: 0 <= n < |ks| ==> ks[n].Typing? && ks[n].token.Special? ==> PrintableKey(ks[n].token.key)
  }

  lemma SpecialKeepsTracks(s: State, key: Key)
    requires Tracks(s) && !s.control.kind.Url? && PrintableKey(key) && |s.control.value| + 1 < UINT32 - 2
    ensures var c := TypeToken(s, Special(key)).control;
      && Tracks(TypeToken(s, Special(key)))
      && c.kind == s.control.kind && |c.value| <= |s.control.value| + 1
  {
    if !(IsModifier(key) && key in s.pressed) {
      PressRefinesEditor(s, key);
      EditStaysClean(s.control.kind, Abstract(s), key, SHIFT in s.pressed);
      if key.code.Some? {
        EditKeepsControl(s.(events := s.events + KeyEvents(key)), key);
      }
    }
  }

  lemma TextKeepsTracks(s: State, text: string)
    requires Tracks(s) && !s.control.kind.Url? && Known(text) && |s.control.value| + |text| < UINT32 - 2
    ensures var c := TypeText(s, text).control;
      Tracks(TypeText(s, text)) && c.kind == s.control.kind && |c.value| <= |s.control.value| + |text|
  {
    if text != [] {
      var held := SHIFT in s.pressed;
      EchoesArePrintable(text, held);
      PrintableStaysClean(s.control, Echoes(text, held));
      TypingLands(s, text);
      TypingKeepsControl(s, text);
    }
  }

  lemma {:induction false} PlayKeepsTracks(s: State, ks: seq<WireKey>)
    requires Tracks(s) && !s.control.kind.Url? && WireOk(ks) && PrintableKeys(ks)
    requires |s.control.value| + TotalWeight(ks) < UINT32 - 2
    ensures var d := Play(s, ks);
      Tracks(d) && d.control.kind == s.control.kind && |d.control.value| <= |s.control.value| + TotalWeight(ks)
  {
    if ks != [] {
      var d := Play(s, ks[..|ks| - 1]);
      PlayKeepsTracks(s, ks[..|ks| - 1]);
      PlayStep(s, true, ks);
      match ks[|ks| - 1]
      case Null => ReleaseAllReleases(d, MODIFIERS);
      case Typing(Text(text)) => TextKeepsTracks(d, text);
      case Typing(Special(key)) => SpecialKeepsTracks(d, key);
    }
  }

  lemma {:induction false} WeightOfPrefix(ks: seq<WireKey>, n: nat)
    requires n <= |ks|
    ensures TotalWeight(ks[..n]) <= TotalWeight(ks)
    decreases |ks|
  {
    if n == |ks| {
      assert ks[..n] == ks;
    } else {
      assert ks[..|ks| - 1][..n] == ks[..n];
      WeightOfPrefix(ks[..|ks| - 1], n);
    }
  }

  lemma TextFieldsTrack(s: State, ks: seq<WireKey>)
    requires Tracks(s) && !s.control.kind.Url? && WireOk(ks) && PrintableKeys(ks)
    requires |s.control.value| + TotalWeight(ks) < UINT32 - 2
    ensures AllTrack(s, ks)
  {
    forall n | 0 <= n <= |ks| ensures Tracks(Play(s, ks[..n])) {
      WeightOfPrefix(ks, n);
      PlayKeepsTracks(s, ks[..n]);
    }
  }

  /** In text inputs and textareas, then, being in step is the whole condition. */
  lemma AtomInTextFields(s: State, focused: bool, p: int, ks: seq<WireKey>)
    requires Valid(s.control) && (p == s.control.start || p == s.control.end) && !s.control.kind.Url?
    requires WireOk(ks) && PrintableKeys(ks) && |s.control.value| + TotalWeight(ks) < UINT32 - 2
    ensures var d := Meant(s, focused, p);
      && InOrder(d.control)
      && ((forall n :: 0 <= n <= |ks| ==>
             TypeSequence(s, focused, false, ks[..n], false).control == Play(d, ks[..n]).control)
          <==> InStep(d, FirstCursor(s, focused), ks))
  {
    MeantIsTracked(s, focused, p);
    TextFieldsTrack(Meant(s, focused, p), ks);
    AtomExactly(s, focused, p, ks);
  }

  // ---------------------------------------------------------------------------------------------
  // An input on which it fails
  // ---------------------------------------------------------------------------------------------

  lemma ShiftLeftFrom(s: State)
    requires Valid(s.control) && s.control.start == s.control.end > 0 && SHIFT in s.pressed
    requires s.currentPos == s.control.end || s.currentPos == 0
    ensures var n := s.control.end;
      TypeToken(s, Special(LEFT)).control
      == s.control.(start := n - 1, end := if s.currentPos == n then n else n - 1)
  {
    var n := s.control.end;
    if s.currentPos == n {
      SettersSelect(s.control, n - 1, n);
    } else {
      CollapsedSetters(s.control, n, n - 1);
    }
    var s1 := s.(events := s.events + KeyEvents(LEFT));
    assert Press(s, LEFT).control == OnLeftOrRight(s1, LEFT).control;
  }

  lemma ThreeKeys(s: State, supplied: bool, a: WireKey, b: WireKey, c: WireKey)
    requires InOrder(s.control) && WireOk([a, b, c])
    requires forall k :: k in [a, b, c] && k.Typing? ==> TokenOk(k.token)
    ensures PlayOn(s, supplied, [a, b, c])
         == PlayKey(PlayKey(PlayKey(s, supplied, a), supplied, b), supplied, c)
  {
    assert [a, b, c][..2] == [a, b] && [a, b][..1] == [a] && [a][..0] == [];
    PlayStep(s, supplied, [a, b, c]);
    PlayStep(s, supplied, [a, b]);
    PlayStep(s, supplied, [a]);
  }

  const NULL_SHIFT_LEFT := [Null, Typing(Special(SHIFT)), Typing(Special(LEFT))]

  lemma SelectsOrNot(d: State, supplied: bool)
    requires Tracks(d) && Tidy(d) && d.control.start == d.control.end > 0
    ensures var n := d.control.end;
      PlayOn(d, supplied, NULL_SHIFT_LEFT).control
      == d.control.(start := n - 1, end := if supplied then n else n - 1)
  {
    var e := PlayKey(d, supplied, Null);
    ThreeKeys(d, supplied, Null, Typing(Special(SHIFT)), Typing(Special(LEFT)));
    ReleaseLeavesNothing(d);
    ShiftIsSilent(e);
    assert PlayKey(e, supplied, Typing(Special(SHIFT))) == Press(e, SHIFT);
    ShiftLeftFrom(Press(e, SHIFT));
  }

  /**
   * NULL, Shift, Left on an input that has text but not the focus: the keys mean to select the last
   * character, and the atom leaves a caret before it.
   */
  lemma AtomSelectsNothing(s: State)
    requires Valid(s.control) && s.control.value != []
    ensures var d, n := Meant(s, false, 0), |s.control.value|;
      && InOrder(d.control)
      && TypeSequence(s, false, false, NULL_SHIFT_LEFT, false).control == s.control.(start := n - 1, end := n - 1)
      && Play(d, NULL_SHIFT_LEFT).control == s.control.(start := n - 1, end := n)
  {
    var d := Meant(s, false, s.control.end);
    MeantIsTracked(s, false, s.control.end);
    FocusedControl(s, false);
    SelectsOrNot(d, false);
    SelectsOrNot(d, true);
    SplittingPlaysKeys(s, false, false, NULL_SHIFT_LEFT, false);
    ReleaseAllReleases(PlayOn(d, false, NULL_SHIFT_LEFT), MODIFIERS);
  }
}
