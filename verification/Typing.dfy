/**
 * Whole runs of the keyboard: every sequence of key presses and releases refines the editor, and
 * the `type` action puts a string into a text field.
 */
module Typings {
  import opened Integers
  import opened KeyTable
  import opened TextControls
  import opened Keyboards
  import opened Editors

  // ---------------------------------------------------------------------------------------------
  // Any sequence of keys
  // ---------------------------------------------------------------------------------------------

  datatype Stroke = Down(key: Key) | Up(key: Key)

  /** A press or release; one that throws changes nothing. */
  function Strike(s: State, k: Stroke): (r: State)
    requires InOrder(s.control)
    ensures InOrder(r.control)
  {
    match k
    case Down(key) => if CanPress(s, key) then Press(s, key) else s
    case Up(key) => if CanRelease(s, key) then Release(s, key) else s
  }

  function Run(s: State, ks: seq<Stroke>): (r: State)
    requires InOrder(s.control)
    ensures InOrder(r.control)
  {
    if ks == [] then s else Strike(Run(s, ks[..|ks| - 1]), ks[|ks| - 1])
  }

  /** The editor and the keys held over it. */
  datatype Desk = Desk(editor: Editor, pressed: set<Key>)

  function StrikeDesk(kind: Kind, d: Desk, k: Stroke): (r: Desk)
    requires d.editor.Ok()
    ensures r.editor.Ok() && |r.editor.text| <= |d.editor.text| + 1
  {
    match k
    case Down(key) =>
      if IsModifier(key) && key in d.pressed then d
      else Desk(Edit(kind, d.editor, key, SHIFT in d.pressed), d.pressed + {key})
    case Up(key) => d.(pressed := d.pressed - {key})
  }

  function RunDesk(kind: Kind, d: Desk, ks: seq<Stroke>): (r: Desk)
    requires d.editor.Ok()
    ensures r.editor.Ok() && |r.editor.text| <= |d.editor.text| + |ks|
  {
    if ks == [] then d else StrikeDesk(kind, RunDesk(kind, d, ks[..|ks| - 1]), ks[|ks| - 1])
  }

  function DeskOf(s: State): Desk { Desk(Abstract(s), s.pressed) }

  /** The control can hold every text the editor goes through. */
  predicate AllClean(kind: Kind, d: Desk, ks: seq<Stroke>)
    requires d.editor.Ok()
  {
    forall n :: 0 <= n <= |ks| ==> Clean(kind, RunDesk(kind, d, ks[..n]).editor.text)
  }

  predicate KeysOk(ks: seq<Stroke>) { forall k :: k in ks ==> KeyOk(k.key) }

  lemma StrikeRefines(s: State, k: Stroke)
    requires Tracks(s) && Roomy(s.control) && KeyOk(k.key)
    requires Clean(s.control.kind, StrikeDesk(s.control.kind, DeskOf(s), k).editor.text)
    ensures var s' := Strike(s, k);
      && Tracks(s') && DeskOf(s') == StrikeDesk(s.control.kind, DeskOf(s), k)
      && s'.control.kind == s.control.kind
  {
    if k.Down? && CanPress(s, k.key) {
      PressRefinesEditor(s, k.key);
      if k.key.code.Some? {
        EditKeepsControl(s.(events := s.events + KeyEvents(k.key)), k.key);
      }
    }
  }

  /** Every run, in every kind of control: the keyboard is the editor while the texts are clean. */
  lemma {:induction false} RunRefinesEditor(s: State, ks: seq<Stroke>)
    requires Tracks(s) && KeysOk(ks) && |s.control.value| + |ks| < UINT32 - 2
    requires AllClean(s.control.kind, DeskOf(s), ks)
    ensures var s' := Run(s, ks);
      && Tracks(s') && DeskOf(s') == RunDesk(s.control.kind, DeskOf(s), ks)
      && s'.control.kind == s.control.kind
  {
    assert ks[..|ks|] == ks;
    if ks != [] {
      var js := ks[..|ks| - 1];
      forall n | 0 <= n <= |js| ensures Clean(s.control.kind, RunDesk(s.control.kind, DeskOf(s), js[..n]).editor.text) {
        assert js[..n] == ks[..n];
      }
      RunRefinesEditor(s, js);
      StrikeRefines(Run(s, js), ks[|ks| - 1]);
    }
  }

  predicate PrintableKey(key: Key)
  {
    key.character.Some? ==>
      key.shiftChar.Some? && Printable(key.character.value) && Printable(key.shiftChar.value)
  }

  lemma OverwriteStaysClean(kind: Kind, e: Editor, text: string)
    requires e.Ok() && !kind.Url? && Clean(kind, e.text) && Clean(kind, text)
    ensures Clean(kind, Overwrite(e, text).text)
  {
  }

  lemma EraseStaysClean(kind: Kind, e: Editor, lo: int, hi: int)
    requires e.Ok() && !kind.Url? && Clean(kind, e.text) && 0 <= lo <= hi <= |e.text|
    ensures Clean(kind, Erase(e, lo, hi).text)
  {
  }

  lemma EditStaysClean(kind: Kind, e: Editor, key: Key, shift: bool)
    requires e.Ok() && !kind.Url? && Clean(kind, e.text) && PrintableKey(key)
    ensures Clean(kind, Edit(kind, e, key, shift).text)
  {
    if key.character.Some? {
      OverwriteStaysClean(kind, e, CharOf(key, shift));
    } else if key == ENTER && kind.MultiLine? {
      OverwriteStaysClean(kind, e, "\n");
    } else if key == BACKSPACE {
      EraseStaysClean(kind, e, Max(e.cursor - 1, 0), e.cursor);
    } else if key == DELETE {
      EraseStaysClean(kind, e, e.cursor, Min(e.cursor + 1, |e.text|));
    }
  }

  lemma {:induction false} RunStaysClean(kind: Kind, d: Desk, ks: seq<Stroke>)
    requires d.editor.Ok() && !kind.Url? && Clean(kind, d.editor.text)
    requires forall k :: k in ks ==> PrintableKey(k.key)
    ensures Clean(kind, RunDesk(kind, d, ks).editor.text)
  {
    if ks != [] {
      RunStaysClean(kind, d, ks[..|ks| - 1]);
      var m, k := RunDesk(kind, d, ks[..|ks| - 1]), ks[|ks| - 1];
      EditStaysClean(kind, m.editor, k.key, SHIFT in m.pressed);
    }
  }

  /** In text inputs and textareas the refinement holds of every run of every key. */
  lemma TextFieldsAreEditors(s: State, ks: seq<Stroke>)
    requires Tracks(s) && !s.control.kind.Url? && |s.control.value| + |ks| < UINT32 - 2
    requires forall k :: k in ks ==> PrintableKey(k.key)
    ensures var s' := Run(s, ks);
      Tracks(s') && DeskOf(s') == RunDesk(s.control.kind, DeskOf(s), ks)
  {
    forall n | 0 <= n <= |ks|
      ensures Clean(s.control.kind, RunDesk(s.control.kind, DeskOf(s), ks[..n]).editor.text)
    {
      RunStaysClean(s.control.kind, DeskOf(s), ks[..n]);
    }
    RunRefinesEditor(s, ks);
  }

  /** Every run, in every kind of control and from any `currentPos`: what never breaks. */
  lemma {:induction false} RunKeepsSelection(s: State, ks: seq<Stroke>)
    requires Valid(s.control) && |s.control.value| + |ks| < UINT32 - 2
    requires s.modifiers == MaskOf(s.pressed)
    ensures var s' := Run(s, ks);
      && s'.control.start <= s'.control.end <= |s'.control.value| && Valid(s'.control)
      && |s'.control.value| <= |s.control.value| + |ks|
      && s'.modifiers == MaskOf(s'.pressed)
  {
    if ks != [] {
      RunKeepsSelection(s, ks[..|ks| - 1]);
      var m, k := Run(s, ks[..|ks| - 1]), ks[|ks| - 1];
      if k.Down? && CanPress(m, k.key) {
        EditKeepsControl(m.(events := m.events + KeyEvents(k.key)), k.key);
      }
      PressKeepsMask(m, k.key);
    }
  }

  lemma PressKeepsMask(s: State, key: Key)
    requires InOrder(s.control) && s.modifiers == MaskOf(s.pressed)
    ensures Press(s, key).modifiers == MaskOf(Press(s, key).pressed)
    ensures Release(s, key).modifiers == MaskOf(Release(s, key).pressed)
    ensures Press(s, key).pressed == s.pressed + {key}
    ensures Release(s, key).pressed == s.pressed - {key}
  {
    MaskFollows(s, key, true);
    MaskFollows(s, key, false);
  }

  // ---------------------------------------------------------------------------------------------
  // The type action
  // ---------------------------------------------------------------------------------------------

  /** One value to type: a string, or a single key. */
  datatype Token = Text(text: string) | Special(key: Key)

  predicate Known(text: string) { forall i :: 0 <= i < |text| ==> HasKey(text[i]) }

  predicate TokenOk(t: Token) { t.Text? ==> Known(t.text) }

  predicate TokensOk(ts: seq<Token>) { forall t :: t in ts ==> TokenOk(t) }

  function PressAndRelease(s: State, key: Key): (r: State)
    requires InOrder(s.control)
    ensures InOrder(r.control)
  {
    Release(Press(s, key), key)
  }

  function TypeChar(s: State, ch: char): (r: State)
    requires InOrder(s.control) && HasKey(ch)
    ensures InOrder(r.control)
  {
    var b := CharacterTable()[ch];
    if b.shift && SHIFT !in s.pressed then
      Release(PressAndRelease(Press(s, SHIFT), b.key), SHIFT)
    else
      PressAndRelease(s, b.key)
  }

  function TypeText(s: State, text: string): (r: State)
    requires InOrder(s.control) && Known(text)
    ensures InOrder(r.control)
  {
    if text == [] then s else TypeChar(TypeText(s, text[..|text| - 1]), text[|text| - 1])
  }

  /** A string is typed out; a modifier key is pressed, or released if it is down. */
  function TypeToken(s: State, t: Token): (r: State)
    requires InOrder(s.control) && TokenOk(t)
    ensures InOrder(r.control)
  {
    match t
    case Text(text) => TypeText(s, text)
    case Special(key) =>
      if IsModifier(key) then (if key in s.pressed then Release(s, key) else Press(s, key))
      else PressAndRelease(s, key)
  }

  function TypeTokens(s: State, ts: seq<Token>): (r: State)
    requires InOrder(s.control) && TokensOk(ts)
    ensures InOrder(r.control)
  {
    if ts == [] then s else TypeToken(TypeTokens(s, ts[..|ts| - 1]), ts[|ts| - 1])
  }

  function ReleaseAll(s: State, keys: seq<Key>): (r: State)
    requires InOrder(s.control)
    ensures InOrder(r.control)
  {
    if keys == [] then s
    else
      var s', key := ReleaseAll(s, keys[..|keys| - 1]), keys[|keys| - 1];
      if key in s'.pressed then Release(s', key) else s'
  }

  function TypeAction(s: State, ts: seq<Token>, persistModifiers: bool): (r: State)
    requires InOrder(s.control) && TokensOk(ts)
    ensures InOrder(r.control)
  {
    var s' := TypeTokens(s, ts);
    if persistModifiers then s' else ReleaseAll(s', MODIFIERS)
  }

  /** The keyboard that is used: the one supplied, or a new one. */
  function Board(s: State, supplied: bool): State
  {
    if supplied then s else Fresh(s)
  }

  /** The whole of `type`: a keyboard, the focus, the values. `focused` says the element has the focus already. */
  function TypeOn(s: State, focused: bool, supplied: bool, ts: seq<Token>, persistModifiers: bool): (r: State)
    requires InOrder(s.control) && TokensOk(ts)
    ensures InOrder(r.control)
  {
    TypeAction(Focus(Board(s, supplied), !focused), ts, persistModifiers)
  }

  lemma TableKeysAreNotModifiers(ch: char)
    requires HasKey(ch)
    ensures !IsModifier(CharacterTable()[ch].key)
  {
    TableKeysArePrintable(ch);
  }

  method TypeCharacter(kb: Keyboard, ch: char) returns (ok: bool)
    requires InOrder(kb.element.View()) && HasKey(ch)
    modifies kb, kb.element
    ensures ok && kb.View() == TypeChar(old(kb.View()), ch)
  {
    TableKeysAreNotModifiers(ch);
    var b := CharacterTable()[ch];
    var shiftIsPressed := SHIFT in kb.pressed;
    ok := true;
    if b.shift && !shiftIsPressed {
      ok := kb.PressKey(SHIFT);
    }
    ghost var before := kb.View();
    var ok1 := kb.PressKey(b.key);
    PressHolds(before, b.key);
    var ok2 := kb.ReleaseKey(b.key);
    PressHolds(before, b.key);
    ok := ok && ok1 && ok2;
    if b.shift && !shiftIsPressed {
      PressHolds(old(kb.View()), SHIFT);
      var ok3 := kb.ReleaseKey(SHIFT);
      ok := ok && ok3;
    }
  }

  /** What a key press and release do to the pressed set. */
  lemma PressHolds(s: State, key: Key)
    requires InOrder(s.control)
    ensures Press(s, key).pressed == s.pressed + {key}
    ensures PressAndRelease(s, key).pressed == s.pressed - {key}
    ensures PressAndRelease(s, key).control == Press(s, key).control
  {
  }

  method TypeString(kb: Keyboard, text: string) returns (ok: bool)
    requires InOrder(kb.element.View()) && Known(text)
    modifies kb, kb.element
    ensures ok && kb.View() == TypeText(old(kb.View()), text)
  {
    ok := true;
    for i := 0 to |text|
      invariant ok && kb.View() == TypeText(old(kb.View()), text[..i])
    {
      assert text[..i + 1][..i] == text[..i];
      ok := TypeCharacter(kb, text[i]);
    }
    assert text[..|text|] == text;
  }

  method TypeValue(kb: Keyboard, t: Token) returns (ok: bool)
    requires InOrder(kb.element.View()) && TokenOk(t)
    modifies kb, kb.element
    ensures ok && kb.View() == TypeToken(old(kb.View()), t)
  {
    match t
    case Text(text) =>
      ok := TypeString(kb, text);
    case Special(key) =>
      if IsModifier(key) {
        if key in kb.pressed {
          ok := kb.ReleaseKey(key);
        } else {
          ok := kb.PressKey(key);
        }
      } else {
        PressHolds(kb.View(), key);
        ok := kb.PressKey(key);
        var ok2 := kb.ReleaseKey(key);
        ok := ok && ok2;
      }
  }

  /** The values: no press or release ever throws, whatever the values and the keys already held. */
  method TypeValues(kb: Keyboard, ts: seq<Token>, persistModifiers: bool) returns (ok: bool)
    requires InOrder(kb.element.View()) && TokensOk(ts)
    modifies kb, kb.element
    ensures ok && kb.View() == TypeAction(old(kb.View()), ts, persistModifiers)
  {
    ok := true;
    for i := 0 to |ts|
      invariant ok && kb.View() == TypeTokens(old(kb.View()), ts[..i])
    {
      assert ts[..i + 1][..i] == ts[..i];
      ok := TypeValue(kb, ts[i]);
    }
    assert ts[..|ts|] == ts;
    if !persistModifiers {
      ghost var typed := kb.View();
      for i := 0 to |MODIFIERS|
        invariant ok && kb.View() == ReleaseAll(typed, MODIFIERS[..i])
      {
        assert MODIFIERS[..i + 1][..i] == MODIFIERS[..i];
        if MODIFIERS[i] in kb.pressed {
          ok := kb.ReleaseKey(MODIFIERS[i]);
        }
      }
      assert MODIFIERS[..|MODIFIERS|] == MODIFIERS;
    }
  }

  /** What a new keyboard finds on the page. */
  function Page(element: TextField): State
    reads element
  {
    State(element.View(), 0, {}, 0, element.events)
  }

  /** `type`, from the choice of a keyboard on. */
  method Type(element: TextField, keyboard: Keyboard?, ts: seq<Token>, persistModifiers: bool, focused: bool)
    returns (kb: Keyboard, ok: bool)
    requires InOrder(element.View()) && TokensOk(ts)
    requires keyboard != null ==> keyboard.element == element
    modifies element, keyboard
    ensures kb.element == element && if keyboard == null then fresh(kb) else kb == keyboard
    ensures ok && kb.View() ==
      TypeOn(old(if keyboard == null then Page(element) else keyboard.View()),
             focused, keyboard != null, ts, persistModifiers)
  {
    if keyboard == null {
      kb := new Keyboard(element, [], 0);
      assert kb.View() == old(Page(element));
    } else {
      kb := keyboard;
    }
    kb.MoveCursor(!focused);
    ok := TypeValues(kb, ts, persistModifiers);
  }

  // ---------------------------------------------------------------------------------------------
  // The typing theorem
  // ---------------------------------------------------------------------------------------------

  /** What a character of the string types: itself, unless Shift is held down throughout. */
  function Echo(ch: char, held: bool): char
    requires HasKey(ch)
  {
    var key := CharacterTable()[ch].key;
    if held && key.shiftChar.Some? then key.shiftChar.value else ch
  }

  function Echoes(text: string, held: bool): (r: string)
    requires Known(text)
    ensures |r| == |text|
  {
    if text == [] then [] else Echoes(text[..|text| - 1], held) + [Echo(text[|text| - 1], held)]
  }

  lemma {:induction false} EchoesOfUnshifted(text: string)
    requires Known(text)
    ensures Echoes(text, false) == text
  {
    if text != [] {
      EchoesOfUnshifted(text[..|text| - 1]);
      assert text == text[..|text| - 1] + [text[|text| - 1]];
    }
  }

  lemma EchoIsPrintable(ch: char, held: bool)
    requires HasKey(ch)
    ensures Printable(Echo(ch, held))
  {
    TableKeysArePrintable(ch);
    EveryEntryTypesItsCharacter(KEYS, ch);
  }

  /** A character key pressed and released in state `s` inserts what it types there. */
  lemma PressLands(s: State, key: Key)
    requires InOrder(s.control) && key.code.Some? && key.character.Some?
    ensures var s', text := PressAndRelease(s, key), CharOf(key, SHIFT in s.pressed);
      && s'.control == Insert(s, text).control && s'.currentPos == s.control.start + 1
      && s'.pressed == s.pressed - {key}
  {
  }

  /** Shift edits nothing: it only joins and leaves the pressed set. */
  lemma ShiftIsSilent(s: State)
    requires InOrder(s.control)
    ensures Press(s, SHIFT).control == Release(s, SHIFT).control == s.control
    ensures Press(s, SHIFT).currentPos == Release(s, SHIFT).currentPos == s.currentPos
    ensures Press(s, SHIFT).pressed == s.pressed + {SHIFT}
    ensures Release(s, SHIFT).pressed == s.pressed - {SHIFT}
  {
  }

  lemma InsertIgnoresKeys(s: State, s': State, text: string)
    requires InOrder(s.control) && s'.control == s.control
    ensures Insert(s, text).control == Insert(s', text).control
  {
  }

  /** One character: the table supplies the key and the Shift state that insert it. */
  lemma CharLands(s: State, ch: char)
    requires InOrder(s.control) && HasKey(ch)
    ensures var s', held := TypeChar(s, ch), SHIFT in s.pressed;
      && s'.control == Insert(s, [Echo(ch, held)]).control
      && s'.currentPos == s.control.start + 1
      && s'.pressed == s.pressed - {CharacterTable()[ch].key}
  {
    var b := CharacterTable()[ch];
    EveryEntryTypesItsCharacter(KEYS, ch);
    TableKeysArePrintable(ch);
    if b.shift && SHIFT !in s.pressed {
      var s1 := Press(s, SHIFT);
      ShiftIsSilent(s);
      PressLands(s1, b.key);
      InsertIgnoresKeys(s, s1, [ch]);
      ShiftIsSilent(PressAndRelease(s1, b.key));
    } else {
      PressLands(s, b.key);
    }
  }

  // The text before and after the selection, into which the string goes.

  function Before(c: Control): string
    requires InOrder(c)
  {
    c.value[..c.start]
  }

  function After(c: Control): string
    requires InOrder(c)
  {
    c.value[c.end..]
  }

  /** The control with `text` typed over the selection of `c`, and the caret behind it. */
  function Written(c: Control, text: string): Control
    requires InOrder(c)
  {
    Control(c.kind, Before(c) + text + After(c), c.start + |text|, c.start + |text|)
  }

  /** The control can hold every value on the way. */
  predicate CleanOnTheWay(c: Control, text: string)
    requires InOrder(c)
  {
    forall n :: 1 <= n <= |text| ==> Clean(c.kind, Written(c, text[..n]).value)
  }

  lemma InsertLands(s: State, ch: char)
    requires Valid(s.control) && Roomy(s.control)
    requires Clean(s.control.kind, Written(s.control, [ch]).value)
    ensures Insert(s, [ch]).control == Written(s.control, [ch])
  {
    assert Replaced(s.control, [ch]) == Written(s.control, [ch]).value;
    InsertReplaces(s, [ch]);
  }

  lemma WrittenAgain(c: Control, text: string, ch: char)
    requires InOrder(c)
    ensures InOrder(Written(c, text))
    ensures Written(Written(c, text), [ch]) == Written(c, text + [ch])
  {
  }

  /** Typing text holds no new key, and keeps every modifier as it was. */
  lemma {:induction false} TypingKeepsModifiers(s: State, text: string)
    requires InOrder(s.control) && Known(text)
    ensures TypeText(s, text).pressed <= s.pressed
    ensures forall m :: IsModifier(m) ==> (m in TypeText(s, text).pressed <==> m in s.pressed)
  {
    if text != [] {
      var init, ch := text[..|text| - 1], text[|text| - 1];
      TypingKeepsModifiers(s, init);
      CharLands(TypeText(s, init), ch);
      TableKeysAreNotModifiers(ch);
    }
  }

  /** The values on the way, one character at a time. */
  lemma CleanAppend(c: Control, t: string, ch: char)
    requires InOrder(c)
    ensures CleanOnTheWay(c, t + [ch]) <==>
      CleanOnTheWay(c, t) && Clean(c.kind, Written(c, t + [ch]).value)
    ensures CleanOnTheWay(c, t) && t != [] ==> Clean(c.kind, Written(c, t).value)
  {
    assert (t + [ch])[..|t| + 1] == t + [ch] && t[..|t|] == t;
    assert forall n :: 1 <= n <= |t| ==> (t + [ch])[..n] == t[..n];
  }

  lemma LandNext(s: State, c: Control, t: string, ch: char)
    requires Valid(c) && |c.value| + |t| < UINT32 - 3
    requires s.control == Written(c, t) && Clean(c.kind, Written(c, t).value)
    requires Clean(c.kind, Written(c, t + [ch]).value)
    ensures Insert(s, [ch]).control == Written(c, t + [ch])
  {
    WrittenAgain(c, t, ch);
    InsertLands(s, ch);
  }

  lemma {:induction false} TypingLands(s: State, text: string)
    requires Valid(s.control) && |s.control.value| + |text| < UINT32 - 2
    requires Known(text) && text != []
    requires CleanOnTheWay(s.control, Echoes(text, SHIFT in s.pressed))
    ensures TypeText(s, text).control == Written(s.control, Echoes(text, SHIFT in s.pressed))
    ensures TypeText(s, text).currentPos == s.control.start + |text|
  {
    var c, held := s.control, SHIFT in s.pressed;
    var init, e := text[..|text| - 1], Echo(text[|text| - 1], held);
    var t, s1 := Echoes(init, held), TypeText(s, init);
    assert Echoes(text, held) == t + [e];
    CleanAppend(c, t, e);
    TypingKeepsModifiers(s, init);
    CharLands(s1, text[|text| - 1]);
    if init == [] {
      assert t + [e] == [e];
      InsertLands(s, e);
    } else {
      TypingLands(s, init);
      LandNext(s1, c, t, e);
    }
  }

  // When a value on the way is not clean, the lost characters never come back.

  lemma {:induction false} EchoesArePrintable(text: string, held: bool)
    requires Known(text)
    ensures forall i :: 0 <= i < |text| ==> Printable(Echoes(text, held)[i])
  {
    if text != [] {
      EchoesArePrintable(text[..|text| - 1], held);
      EchoIsPrintable(text[|text| - 1], held);
    }
  }

  lemma PrintableStaysClean(c: Control, t: string)
    requires Valid(c) && !c.kind.Url? && forall i :: 0 <= i < |t| ==> Printable(t[i])
    ensures CleanOnTheWay(c, t)
  {
  }

  /** Inserting a character lengthens the value by at most one, and by less if it is then unclean. */
  lemma InsertLength(s: State, ch: char)
    requires Valid(s.control) && Roomy(s.control)
    ensures var c, c' := s.control, Insert(s, [ch]).control;
      && Valid(c') && c'.kind == c.kind && |c'.value| <= |Replaced(c, [ch])| <= |c.value| + 1
      && (!c.kind.MultiLine? && !Clean(c.kind, Replaced(c, [ch])) ==> |c'.value| < |Replaced(c, [ch])|)
  {
    InsertKeepsControl(s, [ch]);
    SanitizeIsClosure(s.control.kind, Replaced(s.control, [ch]));
    if !s.control.kind.MultiLine? && !Clean(s.control.kind, Replaced(s.control, [ch])) {
      SanitizeShortens(s.control.kind, Replaced(s.control, [ch]));
    }
  }

  lemma {:induction false} TypingKeepsControl(s: State, text: string)
    requires Valid(s.control) && |s.control.value| + |text| < UINT32 - 2 && Known(text)
    ensures var c := TypeText(s, text).control;
      Valid(c) && c.kind == s.control.kind && |c.value| <= |s.control.value| + |text|
  {
    if text != [] {
      var s1 := TypeText(s, text[..|text| - 1]);
      TypingKeepsControl(s, text[..|text| - 1]);
      CharLands(s1, text[|text| - 1]);
      InsertLength(s1, Echo(text[|text| - 1], SHIFT in s1.pressed));
    }
  }

  /** The first unclean value on the way: the character that makes it so costs length. */
  lemma FirstLoss(s: State, c: Control, t: string, e: char)
    requires Valid(c) && !c.kind.MultiLine? && |c.value| + |t| < UINT32 - 3
    requires if t == [] then s.control == c
             else s.control == Written(c, t) && Clean(c.kind, Written(c, t).value)
    requires !Clean(c.kind, Written(c, t + [e]).value)
    ensures |Insert(s, [e]).control.value| < |Written(c, t + [e]).value|
  {
    if t == [] {
      assert t + [e] == [e];
    } else {
      WrittenAgain(c, t, e);
    }
    assert Replaced(s.control, [e]) == Written(c, t + [e]).value;
    InsertLength(s, e);
  }

  lemma {:induction false} TypingFallsShort(s: State, text: string)
    requires Valid(s.control) && |s.control.value| + |text| < UINT32 - 2
    requires Known(text) && !s.control.kind.MultiLine?
    requires !CleanOnTheWay(s.control, Echoes(text, SHIFT in s.pressed))
    ensures |TypeText(s, text).control.value| < |Written(s.control, Echoes(text, SHIFT in s.pressed)).value|
  {
    var c, held := s.control, SHIFT in s.pressed;
    var init, e := text[..|text| - 1], Echo(text[|text| - 1], held);
    var t, s1 := Echoes(init, held), TypeText(s, init);
    assert Echoes(text, held) == t + [e];
    TypingKeepsModifiers(s, init);
    TypingKeepsControl(s, init);
    CharLands(s1, text[|text| - 1]);
    if CleanOnTheWay(c, t) {
      CleanAppend(c, t, e);
      if init != [] {
        TypingLands(s, init);
      }
      FirstLoss(s1, c, t, e);
    } else {
      TypingFallsShort(s, init);
      InsertLength(s1, e);
    }
  }

  /**
   * The typing theorem, for every kind of control, selection and string of known characters: the
   * string lands in place of the selection exactly when the control can hold every value on the
   * way, and then the caret ends just behind it. No modifier changes and no new key stays down.
   */
  lemma TypingTheorem(s: State, text: string)
    requires Valid(s.control) && |s.control.value| + |text| < UINT32 - 2
    requires Known(text) && text != []
    ensures var s', w := TypeText(s, text), Written(s.control, Echoes(text, SHIFT in s.pressed));
      && (s'.control.value == w.value <==> CleanOnTheWay(s.control, Echoes(text, SHIFT in s.pressed)))
      && (s'.control.value == w.value ==> s'.control == w && s'.currentPos == w.start == w.end)
      && s'.pressed <= s.pressed
      && forall m :: IsModifier(m) ==> (m in s'.pressed <==> m in s.pressed)
  {
    var t := Echoes(text, SHIFT in s.pressed);
    TypingKeepsModifiers(s, text);
    if CleanOnTheWay(s.control, t) {
      TypingLands(s, text);
    } else {
      if s.control.kind.MultiLine? {
        EchoesArePrintable(text, SHIFT in s.pressed);
        PrintableStaysClean(s.control, t);
      }
      TypingFallsShort(s, text);
    }
  }

  lemma FocusedControl(s: State, focused: bool)
    requires Valid(s.control)
    ensures var c, n := Focus(Fresh(s), !focused).control, |s.control.value|;
      && Valid(c) && c == if focused then s.control else s.control.(start := n, end := n)
  {
    var n := |s.control.value|;
    SettersSelect(s.control, n, n);
  }

  /**
   * Text inputs and textareas: `type` with a string, on a new keyboard, inserts it in place of the
   * selection if the element has the focus and else at the end of its text, and leaves no key down.
   */
  lemma TextFieldsTakeAnyText(s: State, focused: bool, text: string)
    requires Valid(s.control) && !s.control.kind.Url? && |s.control.value| + |text| < UINT32 - 2
    requires Known(text) && text != []
    ensures var c, n := s.control, |s.control.value|;
      var s' := TypeOn(s, focused, false, [Text(text)], false);
      && s'.control == Written(if focused then c else c.(start := n, end := n), text)
      && s'.currentPos == s'.control.end
      && s'.pressed == {} && s'.modifiers == 0
  {
    FocusedControl(s, focused);
    ValuesTakeAnyText(Focus(Fresh(s), !focused), text);
  }

  lemma ValuesTakeAnyText(s: State, text: string)
    requires Valid(s.control) && !s.control.kind.Url? && |s.control.value| + |text| < UINT32 - 2
    requires Known(text) && text != []
    requires s.pressed == {} && s.modifiers == 0
    ensures var s' := TypeAction(s, [Text(text)], false);
      && s'.control == Written(s.control, text)
      && s'.currentPos == s.control.start + |text|
      && s'.pressed == {} && s'.modifiers == 0
  {
    TypingTheorem(s, text);
    EchoesOfUnshifted(text);
    EchoesArePrintable(text, false);
    PrintableStaysClean(s.control, text);
    OneToken(s, Text(text));
    TypeKeepsMask(s, [Text(text)]);
    ReleaseAllReleases(TypeText(s, text), MODIFIERS);
    assert MaskOf({}) == 0;
  }

  lemma SpaceIsUnclean(c: Control, text: string, i: nat)
    requires InOrder(c) && c.kind.Url? && c.end == |c.value| && i < |text| && text[i] == ' '
    ensures !CleanOnTheWay(c, text) && Written(c, text).value == Before(c) + text
  {
    var w := Written(c, text[..i + 1]).value;
    assert w == Before(c) + text[..i + 1] && w[|w| - 1] == ' ';
  }

  /** At the end of a `url` input no text with a space in it can be typed. */
  lemma UrlLosesSpaces(s: State, text: string, i: nat)
    requires Valid(s.control) && s.control.kind.Url? && s.control.end == |s.control.value|
    requires |s.control.value| + |text| < UINT32 - 2
    requires Known(text) && i < |text| && text[i] == ' ' && SHIFT !in s.pressed
    ensures TypeText(s, text).control.value != Before(s.control) + text
  {
    TypingTheorem(s, text);
    EchoesOfUnshifted(text);
    SpaceIsUnclean(s.control, text, i);
  }

  // ---------------------------------------------------------------------------------------------
  // The keys left down
  // ---------------------------------------------------------------------------------------------

  lemma OneToken(s: State, t: Token)
    requires InOrder(s.control) && TokenOk(t)
    ensures TypeTokens(s, [t]) == TypeToken(s, t)
  {
  }

  lemma {:induction false} ReleaseAllReleases(s: State, keys: seq<Key>)
    requires InOrder(s.control)
    ensures var s' := ReleaseAll(s, keys);
      && s'.pressed == s.pressed - (set key | key in keys)
      && s'.control == s.control && s'.currentPos == s.currentPos
      && (s.modifiers == MaskOf(s.pressed) ==> s'.modifiers == MaskOf(s'.pressed))
  {
    if keys != [] {
      var init, key := keys[..|keys| - 1], keys[|keys| - 1];
      ReleaseAllReleases(s, init);
      ReleaseKeepsMask(ReleaseAll(s, init), key);
      assert keys == init + [key];
    }
  }

  lemma ReleaseKeepsMask(s: State, key: Key)
    requires InOrder(s.control)
    ensures Release(s, key).pressed == s.pressed - {key} && Release(s, key).control == s.control
    ensures s.modifiers == MaskOf(s.pressed) ==> Release(s, key).modifiers == MaskOf(Release(s, key).pressed)
  {
    if s.modifiers == MaskOf(s.pressed) {
      MaskFollows(s, key, false);
    }
  }

  lemma {:induction false} TextKeepsMask(s: State, text: string)
    requires InOrder(s.control) && Known(text) && s.modifiers == MaskOf(s.pressed)
    ensures TypeText(s, text).modifiers == MaskOf(TypeText(s, text).pressed)
  {
    if text != [] {
      var s1, b := TypeText(s, text[..|text| - 1]), CharacterTable()[text[|text| - 1]];
      TextKeepsMask(s, text[..|text| - 1]);
      KeyKeepsMask(s1, b.key);
      PressKeepsMask(s1, SHIFT);
      KeyKeepsMask(Press(s1, SHIFT), b.key);
      PressKeepsMask(PressAndRelease(Press(s1, SHIFT), b.key), SHIFT);
    }
  }

  lemma KeyKeepsMask(s: State, key: Key)
    requires InOrder(s.control) && s.modifiers == MaskOf(s.pressed)
    ensures PressAndRelease(s, key).modifiers == MaskOf(PressAndRelease(s, key).pressed)
  {
    PressKeepsMask(s, key);
    PressKeepsMask(Press(s, key), key);
  }

  lemma {:induction false} TypeKeepsMask(s: State, ts: seq<Token>)
    requires InOrder(s.control) && TokensOk(ts) && s.modifiers == MaskOf(s.pressed)
    ensures TypeTokens(s, ts).modifiers == MaskOf(TypeTokens(s, ts).pressed)
  {
    if ts != [] {
      TypeKeepsMask(s, ts[..|ts| - 1]);
      var s1, t := TypeTokens(s, ts[..|ts| - 1]), ts[|ts| - 1];
      assert TokenOk(t);
      match t
      case Text(text) => TextKeepsMask(s1, text);
      case Special(key) =>
        PressKeepsMask(s1, key);
        KeyKeepsMask(s1, key);
    }
  }

  /** The modifier is listed an odd number of times among the values. */
  predicate ListedOddly(ts: seq<Token>, m: Key)
  {
    ts != [] && (ListedOddly(ts[..|ts| - 1], m) != (ts[|ts| - 1] == Special(m)))
  }

  /** A modifier is down after the values exactly when they toggled it an odd number of times. */
  lemma {:induction false} ModifiersToggle(s: State, ts: seq<Token>, m: Key)
    requires InOrder(s.control) && TokensOk(ts) && IsModifier(m)
    ensures m in TypeTokens(s, ts).pressed <==> (m in s.pressed) != ListedOddly(ts, m)
  {
    if ts != [] {
      ModifiersToggle(s, ts[..|ts| - 1], m);
      var s1, t := TypeTokens(s, ts[..|ts| - 1]), ts[|ts| - 1];
      assert TokenOk(t);
      match t
      case Text(text) => TypingKeepsModifiers(s1, text);
      case Special(key) => PressHolds(s1, key);
    }
  }

  /** No key but a modifier is ever added to those held, whatever is typed. */
  lemma {:induction false} OnlyModifiersStayDown(s: State, ts: seq<Token>)
    requires InOrder(s.control) && TokensOk(ts)
    ensures forall key :: key in TypeTokens(s, ts).pressed ==> key in s.pressed || IsModifier(key)
  {
    if ts != [] {
      OnlyModifiersStayDown(s, ts[..|ts| - 1]);
      var s1, t := TypeTokens(s, ts[..|ts| - 1]), ts[|ts| - 1];
      assert TokenOk(t);
      match t
      case Text(text) => TypingKeepsModifiers(s1, text);
      case Special(key) => PressHolds(s1, key);
    }
  }

  /**
   * `type` from a keyboard that holds nothing but modifiers: without persistence nothing is left
   * down and the mask is clear; with it exactly the modifiers toggled an odd number of times are.
   */
  lemma TypeLeaves(s: State, ts: seq<Token>, persistModifiers: bool)
    requires InOrder(s.control) && TokensOk(ts)
    requires s.modifiers == MaskOf(s.pressed) && forall key :: key in s.pressed ==> IsModifier(key)
    ensures var s' := TypeAction(s, ts, persistModifiers);
      && s'.modifiers == MaskOf(s'.pressed)
      && (forall key :: key in s'.pressed <==>
            persistModifiers && IsModifier(key) && (key in s.pressed) != ListedOddly(ts, key))
  {
    TypeKeepsMask(s, ts);
    OnlyModifiersStayDown(s, ts);
    ReleaseAllReleases(TypeTokens(s, ts), MODIFIERS);
    forall m | IsModifier(m)
      ensures m in TypeTokens(s, ts).pressed <==> (m in s.pressed) != ListedOddly(ts, m)
    {
      ModifiersToggle(s, ts, m);
    }
  }

  // ---------------------------------------------------------------------------------------------
  // Focus
  // ---------------------------------------------------------------------------------------------

  /** Focus that moves leaves the keyboard tracking a caret at the end of the text. */
  lemma FocusTracks(s: State)
    requires Valid(s.control)
    ensures var s', n := Focus(s, true), |s.control.value|;
      && Tracks(s') && Abstract(s') == Editor(s.control.value, n, n)
  {
  }

  /**
   * Focus that does not move leaves `currentPos` as the keyboard had it. From a caret at `p`,
   * Shift+Left then selects the character before it exactly when `currentPos` already was `p`.
   */
  lemma ShiftLeftNeedsTheCursor(s: State)
    requires Valid(s.control) && s.control.start == s.control.end > 0 && SHIFT in s.pressed
    ensures var p, c := s.control.end, OnLeftOrRight(Focus(s, false), LEFT).control;
      (c.start == p - 1 && c.end == p) <==> s.currentPos == p
  {
    var p := s.control.end;
    InRange(p);
    InRange(p - 1);
  }
}
