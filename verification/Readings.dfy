/**
 * Key sequences read as what a user of an editor means by them, and the `type` action and its wire
 * form against that reading; and what the page is told of each key.
 */
module Readings {
  import opened KeyTable
  import opened TextControls
  import opened Keyboards
  import opened Editors
  import opened Typings
  import opened WireKeys

  // ---------------------------------------------------------------------------------------------
  // The reading
  // ---------------------------------------------------------------------------------------------

  /** A string overwrites the selection, one character after the other. */
  function ReadText(d: Desk, text: string): (r: Desk)
    requires d.editor.Ok() && Known(text)
    ensures r.editor.Ok() && |r.editor.text| <= |d.editor.text| + |text|
  {
    if text == [] then d
    else
      var m, ch := ReadText(d, text[..|text| - 1]), text[|text| - 1];
      Desk(Overwrite(m.editor, [Echo(ch, SHIFT in m.pressed)]), m.pressed - {CharacterTable()[ch].key})
  }

  /** Units by which a key can lengthen the text. */
  function Length(k: WireKey): nat
  {
    match k
    case Typing(Text(text)) => |text|
    case _ => 1
  }

  /**
   * NULL lets go of the modifiers; a string is typed; a modifier is toggled; any other key does to the
   * editor what it does there, with Shift or without, and is not held afterwards.
   */
  function ReadKey(kind: Kind, d: Desk, k: WireKey): (r: Desk)
    requires d.editor.Ok() && (k.Typing? ==> TokenOk(k.token))
    ensures r.editor.Ok() && |r.editor.text| <= |d.editor.text| + Length(k)
  {
    match k
    case Null => d.(pressed := d.pressed - {ALT, CONTROL, META, SHIFT})
    case Typing(Text(text)) => ReadText(d, text)
    case Typing(Special(key)) =>
      if IsModifier(key) then d.(pressed := if key in d.pressed then d.pressed - {key} else d.pressed + {key})
      else Desk(Edit(kind, d.editor, key, SHIFT in d.pressed), d.pressed - {key})
  }

  function Total(ks: seq<WireKey>): nat
  {
    if ks == [] then 0 else Total(ks[..|ks| - 1]) + Length(ks[|ks| - 1])
  }

  function ReadKeys(kind: Kind, d: Desk, ks: seq<WireKey>): (r: Desk)
    requires d.editor.Ok() && WireOk(ks)
    ensures r.editor.Ok() && |r.editor.text| <= |d.editor.text| + Total(ks)
  {
    if ks == [] then d else ReadKey(kind, ReadKeys(kind, d, ks[..|ks| - 1]), ks[|ks| - 1])
  }

  /** The control can hold every text on the way. */
  predicate CleanText(kind: Kind, d: Desk, text: string)
    requires d.editor.Ok() && Known(text)
  {
    text != [] ==>
      CleanText(kind, d, text[..|text| - 1]) && Clean(kind, ReadText(d, text).editor.text)
  }

  predicate CleanKey(kind: Kind, d: Desk, k: WireKey)
    requires d.editor.Ok() && (k.Typing? ==> TokenOk(k.token))
  {
    match k
    case Typing(Text(text)) => CleanText(kind, d, text)
    case _ => Clean(kind, ReadKey(kind, d, k).editor.text)
  }

  predicate CleanKeys(kind: Kind, d: Desk, ks: seq<WireKey>)
    requires d.editor.Ok() && WireOk(ks)
  {
    ks != [] ==>
      CleanKeys(kind, d, ks[..|ks| - 1]) && CleanKey(kind, ReadKeys(kind, d, ks[..|ks| - 1]), ks[|ks| - 1])
  }

  predicate WireKeyOk(k: WireKey)
  {
    k.Typing? ==> TokenOk(k.token) && (k.token.Special? ==> KeyOk(k.token.key))
  }

  predicate WireKeysOk(ks: seq<WireKey>) { forall i :: 0 <= i < |ks| ==> WireKeyOk(ks[i]) }

  // ---------------------------------------------------------------------------------------------
  // The keyboard does what is read
  // ---------------------------------------------------------------------------------------------

  /** `r` is the keyboard at desk `d`, in a control of the same kind. */
  predicate At(s: State, r: State, d: Desk)
  {
    Tracks(r) && DeskOf(r) == d && r.control.kind == s.control.kind
  }

  lemma CharReads(s: State, ch: char)
    requires Tracks(s) && Roomy(s.control) && HasKey(ch)
    requires Clean(s.control.kind, Overwrite(Abstract(s), [Echo(ch, SHIFT in s.pressed)]).text)
    ensures At(s, TypeChar(s, ch), Desk(Overwrite(Abstract(s), [Echo(ch, SHIFT in s.pressed)]),
                                        s.pressed - {CharacterTable()[ch].key}))
  {
    var text := [Echo(ch, SHIFT in s.pressed)];
    CharLands(s, ch);
    InsertRefines(s, text);
    InsertReplacesKind(s, text);
    var t, i := TypeChar(s, ch), Insert(s, text);
    assert t.control == i.control && t.currentPos == i.currentPos;
  }

  lemma InsertReplacesKind(s: State, text: string)
    requires InOrder(s.control)
    ensures Insert(s, text).control.kind == s.control.kind && Insert(s, text).currentPos == s.control.start + 1
  {
  }

  lemma {:induction false} TextReads(s: State, text: string)
    requires Tracks(s) && |s.control.value| + |text| < UINT32 - 2 && Known(text)
    requires CleanText(s.control.kind, DeskOf(s), text)
    ensures At(s, TypeText(s, text), ReadText(DeskOf(s), text))
  {
    if text != [] {
      TextReads(s, text[..|text| - 1]);
      CharReads(TypeText(s, text[..|text| - 1]), text[|text| - 1]);
    }
  }

  lemma PressKeepsKind(s: State, key: Key)
    requires Valid(s.control) && Roomy(s.control)
    ensures Press(s, key).control.kind == s.control.kind
  {
    if key.code.Some? { EditKeepsControl(s.(events := s.events + KeyEvents(key)), key); }
  }

  lemma ReleaseReads(s: State, key: Key)
    requires Tracks(s)
    ensures At(s, Release(s, key), Desk(Abstract(s), s.pressed - {key}))
  {
  }

  /** A press, as far as the control can hold the text. */
  lemma PressReads(s: State, key: Key)
    requires Tracks(s) && Roomy(s.control) && KeyOk(key)
    requires Clean(s.control.kind, Edit(s.control.kind, Abstract(s), key, SHIFT in s.pressed).text)
    ensures At(s, Press(s, key),
               Desk(Edit(s.control.kind, Abstract(s), key, SHIFT in s.pressed), s.pressed + {key}))
  {
    PressRefinesEditor(s, key);
    PressKeepsKind(s, key);
    PressHolds(s, key);
  }

  lemma ModifiersEditNothing(kind: Kind, e: Editor, key: Key, shift: bool)
    requires e.Ok() && IsModifier(key)
    ensures Edit(kind, e, key, shift) == e && KeyOk(key)
  {
  }

  lemma SpecialReads(s: State, key: Key)
    requires Tracks(s) && Roomy(s.control) && KeyOk(key)
    requires CleanKey(s.control.kind, DeskOf(s), Typing(Special(key)))
    ensures At(s, TypeToken(s, Special(key)), ReadKey(s.control.kind, DeskOf(s), Typing(Special(key))))
  {
    ReleaseReads(s, key);
    if IsModifier(key) {
      ModifiersEditNothing(s.control.kind, Abstract(s), key, SHIFT in s.pressed);
      PressReads(s, key);
    } else {
      PressReads(s, key);
      ReleaseReads(Press(s, key), key);
      assert s.pressed + {key} - {key} == s.pressed - {key};
    }
  }

  lemma NullReads(s: State)
    requires Tracks(s)
    ensures At(s, ReleaseAll(s, MODIFIERS), Desk(Abstract(s), s.pressed - {ALT, CONTROL, META, SHIFT}))
  {
    ReleaseAllReleases(s, MODIFIERS);
    assert (set key | key in MODIFIERS) == {ALT, CONTROL, META, SHIFT};
  }

  lemma KeyReads(s: State, k: WireKey)
    requires Tracks(s) && |s.control.value| + Length(k) < UINT32 - 2 && WireKeyOk(k)
    requires CleanKey(s.control.kind, DeskOf(s), k)
    ensures At(s, PlayKey(s, true, k), ReadKey(s.control.kind, DeskOf(s), k))
  {
    match k
    case Null => NullReads(s);
    case Typing(Text(text)) => TextReads(s, text);
    case Typing(Special(key)) => SpecialReads(s, key);
  }

  /** A key other than a modifier is read as pressed and released. */
  lemma ReadAsDownAndUp(kind: Kind, d: Desk, key: Key)
    requires d.editor.Ok() && !IsModifier(key)
    ensures ReadKey(kind, d, Typing(Special(key))) == RunDesk(kind, d, [Down(key), Up(key)])
  {
    assert [Down(key), Up(key)][..1] == [Down(key)] && [Down(key)][..0] == [];
    assert RunDesk(kind, d, []) == d;
    assert d.pressed + {key} - {key} == d.pressed - {key};
  }

  /**
   * Whatever keys, in whatever kind of control: the keyboard leaves the text, the selection, the
   * cursor and the keys held that the reading has, while the control can hold the texts on the way.
   */
  lemma {:induction false} PlayReads(s: State, ks: seq<WireKey>)
    requires Tracks(s) && WireKeysOk(ks) && |s.control.value| + Total(ks) < UINT32 - 2
    requires CleanKeys(s.control.kind, DeskOf(s), ks)
    ensures At(s, Play(s, ks), ReadKeys(s.control.kind, DeskOf(s), ks))
  {
    if ks != [] {
      PlayReads(s, ks[..|ks| - 1]);
      KeyReads(Play(s, ks[..|ks| - 1]), ks[|ks| - 1]);
    }
  }

  // ---------------------------------------------------------------------------------------------
  // Text inputs and textareas
  // ---------------------------------------------------------------------------------------------

  predicate PlainKey(k: WireKey)
  {
    k.Typing? ==> TokenOk(k.token) && (k.token.Special? ==> PrintableKey(k.token.key))
  }

  predicate PlainKeys(ks: seq<WireKey>) { forall i :: 0 <= i < |ks| ==> PlainKey(ks[i]) }

  lemma {:induction false} TextStaysClean(kind: Kind, d: Desk, text: string)
    requires d.editor.Ok() && !kind.Url? && Clean(kind, d.editor.text) && Known(text)
    ensures CleanText(kind, d, text) && Clean(kind, ReadText(d, text).editor.text)
  {
    if text != [] {
      var m, ch := ReadText(d, text[..|text| - 1]), text[|text| - 1];
      TextStaysClean(kind, d, text[..|text| - 1]);
      EchoIsPrintable(ch, SHIFT in m.pressed);
      OverwriteStaysClean(kind, m.editor, [Echo(ch, SHIFT in m.pressed)]);
    }
  }

  lemma KeyStaysClean(kind: Kind, d: Desk, k: WireKey)
    requires d.editor.Ok() && !kind.Url? && Clean(kind, d.editor.text) && PlainKey(k)
    ensures CleanKey(kind, d, k) && Clean(kind, ReadKey(kind, d, k).editor.text)
  {
    match k
    case Null =>
    case Typing(Text(text)) => TextStaysClean(kind, d, text);
    case Typing(Special(key)) => EditStaysClean(kind, d.editor, key, SHIFT in d.pressed);
  }

  lemma {:induction false} KeysStayClean(kind: Kind, d: Desk, ks: seq<WireKey>)
    requires d.editor.Ok() && !kind.Url? && Clean(kind, d.editor.text) && PlainKeys(ks)
    ensures CleanKeys(kind, d, ks) && Clean(kind, ReadKeys(kind, d, ks).editor.text)
  {
    if ks != [] {
      KeysStayClean(kind, d, ks[..|ks| - 1]);
      KeyStaysClean(kind, ReadKeys(kind, d, ks[..|ks| - 1]), ks[|ks| - 1]);
    }
  }

  /** Where typing starts: at the keyboard's own cursor, or at the end of the text if the focus moves. */
  function Starting(s: State, focused: bool): Desk
  {
    var n := |s.control.value|;
    if focused then DeskOf(s) else Desk(Editor(s.control.value, n, n), s.pressed)
  }

  /** The modifiers are let go of at the end, unless they persist. */
  function Ended(d: Desk, persist: bool): Desk
  {
    if persist then d else d.(pressed := d.pressed - {ALT, CONTROL, META, SHIFT})
  }

  lemma FocusReads(s: State, focused: bool)
    requires Valid(s.control) && (focused ==> Tracks(s))
    ensures At(s, Focus(s, !focused), Starting(s, focused))
  {
    if !focused { FocusTracks(s); }
  }

  lemma EndReads(s: State, d: Desk, persist: bool)
    requires Tracks(s) && DeskOf(s) == d
    ensures var r := if persist then s else ReleaseAll(s, MODIFIERS);
      Tracks(r) && DeskOf(r) == Ended(d, persist)
  {
    NullReads(s);
  }

  /** The wire form of `type` with a supplied keyboard, in every kind of control. */
  lemma SequenceReads(s: State, focused: bool, ks: seq<WireKey>, persist: bool)
    requires Valid(s.control) && (focused ==> Tracks(s))
    requires WireKeysOk(ks) && |s.control.value| + Total(ks) < UINT32 - 2
    requires CleanKeys(s.control.kind, Starting(s, focused), ks)
    ensures var r := TypeSequence(s, focused, true, ks, persist);
      Tracks(r) && DeskOf(r) == Ended(ReadKeys(s.control.kind, Starting(s, focused), ks), persist)
  {
    FocusReads(s, focused);
    PlayReads(Focus(s, !focused), ks);
    SplittingKeepsMeaning(s, focused, ks, persist);
    EndReads(Play(Focus(s, !focused), ks), ReadKeys(s.control.kind, Starting(s, focused), ks), persist);
  }

  /** In text inputs and textareas it is so for every sequence of keys. */
  lemma TextFieldsReadKeys(s: State, focused: bool, ks: seq<WireKey>, persist: bool)
    requires Valid(s.control) && (focused ==> Tracks(s)) && !s.control.kind.Url?
    requires PlainKeys(ks) && |s.control.value| + Total(ks) < UINT32 - 2
    ensures var r := TypeSequence(s, focused, true, ks, persist);
      Tracks(r) && DeskOf(r) == Ended(ReadKeys(s.control.kind, Starting(s, focused), ks), persist)
  {
    FocusReads(s, focused);
    KeysStayClean(s.control.kind, Starting(s, focused), ks);
    SequenceReads(s, focused, ks, persist);
  }

  lemma {:induction false} WithoutNull(s: State, ks: seq<WireKey>)
    requires InOrder(s.control) && WireOk(ks) && Null !in ks
    ensures PlayOn(s, false, ks) == Play(s, ks)
  {
    if ks != [] {
      WithoutNull(s, ks[..|ks| - 1]);
      assert ks[|ks| - 1] in ks;
    }
  }

  /** The `type` atom on an element that is not in focus, for keys among which NULL does not occur. */
  lemma AtomReads(s: State, ks: seq<WireKey>)
    requires Valid(s.control) && !s.control.kind.Url? && Null !in ks
    requires PlainKeys(ks) && |s.control.value| + Total(ks) < UINT32 - 2
    ensures var r, n := TypeSequence(s, false, false, ks, false), |s.control.value|;
      && Tracks(r)
      && DeskOf(r) == Ended(ReadKeys(s.control.kind, Desk(Editor(s.control.value, n, n), {}), ks), false)
  {
    var f := Fresh(s);
    TextFieldsReadKeys(f, false, ks, false);
    WithoutNull(Focus(f, true), ks);
    SplittingPlaysKeys(s, false, false, ks, false);
    SplittingPlaysKeys(f, false, true, ks, false);
  }

  // ---------------------------------------------------------------------------------------------
  // What the page is told
  // ---------------------------------------------------------------------------------------------

  /** The events of a press: a keydown; keypress and input for what types; input for an erasure that changes the value. */
  function Told(kind: Kind, key: Key, changed: bool): seq<Event>
  {
    if key.code.None? then []
    else if key.character.Some? then [KeyDown(key), KeyPress(key), TextInput, Input]
    else if key == ENTER then [KeyDown(key), KeyPress(key), TextInput] + if kind.MultiLine? then [Input] else []
    else if (key == BACKSPACE || key == DELETE) && changed then [KeyDown(key), Input]
    else [KeyDown(key)]
  }

  lemma EditTells(s: State, key: Key)
    requires Valid(s.control) && key.code.Some?
    ensures var r := MaybeEditText(s, key);
      r.events == s.events + Told(s.control.kind, key, r.control.value != s.control.value)[|KeyEvents(key)|..]
  {
    if key.character.None? && (key == BACKSPACE || key == DELETE) {
      EraseRemovesExactly(s, key);
    }
  }

  lemma ToldFirst(kind: Kind, key: Key, changed: bool)
    requires key.code.Some?
    ensures var n := |KeyEvents(key)|; var told := Told(kind, key, changed);
      n <= |told| && KeyEvents(key) + told[n..] == told
  {
  }

  /** Exactly these events, in this order, whatever is held and wherever the cursor is. */
  lemma PressTells(s: State, key: Key)
    requires Valid(s.control)
    ensures var r := Press(s, key);
      r.events == s.events + Told(s.control.kind, key, r.control.value != s.control.value)
    ensures Release(s, key).events == s.events + if key.code.Some? then [KeyUp(key)] else []
  {
    if key.code.Some? {
      var s1 := s.(events := s.events + KeyEvents(key));
      var told := Told(s.control.kind, key, Press(s, key).control.value != s.control.value);
      EditTells(s1, key);
      ToldFirst(s.control.kind, key, Press(s, key).control.value != s.control.value);
      assert s.events + KeyEvents(key) + told[|KeyEvents(key)|..] == s.events + told;
    }
  }

  // Downs and ups in any run of presses and releases.

  /** The last that the page was told of the key is that it went down. */
  predicate DownLast(es: seq<Event>, key: Key)
  {
    es != [] &&
    (es[|es| - 1] == KeyDown(key) || (es[|es| - 1] != KeyUp(key) && DownLast(es[..|es| - 1], key)))
  }

  /** The key goes up only when it is down and, if it is a modifier, down only when it is up. */
  predicate Orderly(es: seq<Event>, key: Key)
  {
    es != [] ==>
      && Orderly(es[..|es| - 1], key)
      && (es[|es| - 1] == KeyUp(key) ==> DownLast(es[..|es| - 1], key))
      && (es[|es| - 1] == KeyDown(key) && IsModifier(key) ==> !DownLast(es[..|es| - 1], key))
  }

  lemma {:induction false} OtherEvents(es: seq<Event>, more: seq<Event>, key: Key)
    requires KeyDown(key) !in more && KeyUp(key) !in more
    ensures DownLast(es + more, key) == DownLast(es, key) && Orderly(es + more, key) == Orderly(es, key)
  {
    if more == [] {
      assert es + more == es;
    } else {
      var init, last := more[..|more| - 1], more[|more| - 1];
      OtherEvents(es, init, key);
      assert (es + more)[..|es + more| - 1] == es + init && (es + more)[|es + more| - 1] == last && last in more;
    }
  }

  lemma OneEvent(es: seq<Event>, e: Event, key: Key)
    ensures DownLast(es + [e], key) == (e == KeyDown(key) || (e != KeyUp(key) && DownLast(es, key)))
    ensures Orderly(es + [e], key) ==
      (Orderly(es, key) && (e == KeyUp(key) ==> DownLast(es, key))
       && (e == KeyDown(key) && IsModifier(key) ==> !DownLast(es, key)))
  {
    assert (es + [e])[..|es|] == es;
  }

  /** The record of a key is in order and says whether it is held. */
  predicate Recorded(s: State, key: Key)
  {
    Orderly(s.events, key) && (DownLast(s.events, key) <==> key in s.pressed)
  }

  lemma ToldRecorded(es: seq<Event>, told: seq<Event>, pressed: Key, key: Key)
    requires told == [] || (told[0] == KeyDown(pressed) && forall e :: e in told[1..] ==> !e.KeyDown? && !e.KeyUp?)
    requires Orderly(es, key) && (IsModifier(pressed) && pressed == key && told != [] ==> !DownLast(es, key))
    ensures Orderly(es + told, key)
    ensures DownLast(es + told, key) <==> DownLast(es, key) || (told != [] && pressed == key)
  {
    if told == [] {
      assert es + told == es;
    } else {
      OneEvent(es, KeyDown(pressed), key);
      OtherEvents(es + [KeyDown(pressed)], told[1..], key);
      assert es + told == es + [KeyDown(pressed)] + told[1..];
    }
  }

  lemma ToldBeginsDown(kind: Kind, key: Key, changed: bool)
    ensures var told := Told(kind, key, changed);
      (told == [] <==> key.code.None?)
      && (told != [] ==> told[0] == KeyDown(key) && forall e :: e in told[1..] ==> !e.KeyDown? && !e.KeyUp?)
  {
  }

  lemma PressRecorded(s: State, pressed: Key, key: Key)
    requires Valid(s.control) && key.code.Some? && Recorded(s, key) && CanPress(s, pressed)
    ensures Recorded(Press(s, pressed), key)
  {
    var changed := Press(s, pressed).control.value != s.control.value;
    PressTells(s, pressed);
    PressHolds(s, pressed);
    ToldBeginsDown(s.control.kind, pressed, changed);
    ToldRecorded(s.events, Told(s.control.kind, pressed, changed), pressed, key);
  }

  lemma ReleaseRecorded(s: State, released: Key, key: Key)
    requires key.code.Some? && Recorded(s, key) && CanRelease(s, released)
    ensures Recorded(Release(s, released), key)
  {
    OneEvent(s.events, KeyUp(released), key);
  }

  /**
   * Over every run of presses and releases, those that throw included, in every kind of control: no key
   * is told to go up unless it is down, no modifier to go down while it is down, and what the page was
   * last told of a key is whether the keyboard holds it.
   */
  lemma {:induction false} RunIsRecorded(s: State, ks: seq<Stroke>, key: Key)
    requires Valid(s.control) && |s.control.value| + |ks| < UINT32 - 2 && s.modifiers == MaskOf(s.pressed)
    requires key.code.Some? && Recorded(s, key)
    ensures Recorded(Run(s, ks), key)
  {
    if ks != [] {
      var init, k := ks[..|ks| - 1], ks[|ks| - 1];
      var m := Run(s, init);
      RunIsRecorded(s, init, key);
      RunKeepsSelection(s, init);
      match k
      case Down(pressed) => if CanPress(m, pressed) { PressRecorded(m, pressed, key); }
      case Up(released) => if CanRelease(m, released) { ReleaseRecorded(m, released, key); }
    }
  }

  /** The events of a character: five, inside those of Shift if it needs that. */
  function CharTold(ch: char, held: bool): seq<Event>
    requires HasKey(ch)
  {
    var b := CharacterTable()[ch];
    var typed := [KeyDown(b.key), KeyPress(b.key), TextInput, Input, KeyUp(b.key)];
    if b.shift && !held then [KeyDown(SHIFT)] + typed + [KeyUp(SHIFT)] else typed
  }

  function TextTold(text: string, held: bool): seq<Event>
    requires Known(text)
  {
    if text == [] then [] else TextTold(text[..|text| - 1], held) + CharTold(text[|text| - 1], held)
  }

  lemma Grouped(a: seq<Event>, b: seq<Event>, c: seq<Event>)
    ensures a + b + c == a + (b + c)
  {
  }

  lemma KeyTells(s: State, key: Key)
    requires InOrder(s.control) && key.code.Some? && key.character.Some?
    ensures PressAndRelease(s, key).events
      == s.events + [KeyDown(key), KeyPress(key), TextInput, Input, KeyUp(key)]
  {
  }

  lemma ShiftTells(s: State)
    requires InOrder(s.control)
    ensures Press(s, SHIFT).events == s.events + [KeyDown(SHIFT)]
    ensures Release(s, SHIFT).events == s.events + [KeyUp(SHIFT)]
  {
  }

  lemma CharacterTells(s: State, ch: char)
    requires InOrder(s.control) && HasKey(ch)
    ensures TypeChar(s, ch).events == s.events + CharTold(ch, SHIFT in s.pressed)
  {
    var b := CharacterTable()[ch];
    TableKeysArePrintable(ch);
    if b.shift && SHIFT !in s.pressed {
      ShiftTells(s);
      KeyTells(Press(s, SHIFT), b.key);
      ShiftTells(PressAndRelease(Press(s, SHIFT), b.key));
    } else {
      KeyTells(s, b.key);
    }
  }

  /** A whole string, in every kind of control. */
  lemma {:induction false} TextTells(s: State, text: string)
    requires InOrder(s.control) && Known(text)
    ensures TypeText(s, text).events == s.events + TextTold(text, SHIFT in s.pressed)
  {
    if text != [] {
      TextTells(s, text[..|text| - 1]);
      TypingKeepsModifiers(s, text[..|text| - 1]);
      CharacterTells(TypeText(s, text[..|text| - 1]), text[|text| - 1]);
      Grouped(s.events, TextTold(text[..|text| - 1], SHIFT in s.pressed), CharTold(text[|text| - 1], SHIFT in s.pressed));
    }
  }

  function UpIf(key: Key, pressed: set<Key>): seq<Event>
  {
    if key in pressed then [KeyUp(key)] else []
  }

  /** The modifiers held are let go of in this order. */
  function LettingGoTold(pressed: set<Key>): seq<Event>
  {
    UpIf(ALT, pressed) + UpIf(CONTROL, pressed) + UpIf(META, pressed) + UpIf(SHIFT, pressed)
  }

  /** The events of a key at desk `d`. */
  function KeyTold(kind: Kind, d: Desk, k: WireKey): seq<Event>
    requires d.editor.Ok() && (k.Typing? ==> TokenOk(k.token))
  {
    match k
    case Null => LettingGoTold(d.pressed)
    case Typing(Text(text)) => TextTold(text, SHIFT in d.pressed)
    case Typing(Special(key)) =>
      if IsModifier(key) then (if key in d.pressed then [KeyUp(key)] else [KeyDown(key)])
      else
        Told(kind, key, ReadKey(kind, d, k).editor.text != d.editor.text)
        + if key.code.Some? then [KeyUp(key)] else []
  }

  function AllTold(kind: Kind, d: Desk, ks: seq<WireKey>): seq<Event>
    requires d.editor.Ok() && WireOk(ks)
  {
    if ks == [] then []
    else
      var init := ks[..|ks| - 1];
      AllTold(kind, d, init) + KeyTold(kind, ReadKeys(kind, d, init), ks[|ks| - 1])
  }

  lemma {:induction false} ReleaseTells(s: State, keys: seq<Key>, key: Key)
    requires InOrder(s.control) && key.code.Some? && key !in keys
    ensures ReleaseAll(s, keys + [key]).events == ReleaseAll(s, keys).events + UpIf(key, s.pressed)
  {
    assert (keys + [key])[..|keys|] == keys;
    ReleaseAllReleases(s, keys);
  }

  lemma {:induction false} NothingReleased(s: State)
    requires InOrder(s.control)
    ensures ReleaseAll(s, []) == s
  {
  }

  lemma {:induction false} LettingGoTells(s: State)
    requires InOrder(s.control)
    ensures ReleaseAll(s, MODIFIERS).events == s.events + LettingGoTold(s.pressed)
  {
    var p := s.pressed;
    NothingReleased(s);
    ReleaseTells(s, [], ALT);
    ReleaseTells(s, [ALT], CONTROL);
    ReleaseTells(s, [ALT, CONTROL], META);
    ReleaseTells(s, [ALT, CONTROL, META], SHIFT);
    SameModifiers();
    Grouped(s.events, UpIf(ALT, p), UpIf(CONTROL, p));
    Grouped(s.events, UpIf(ALT, p) + UpIf(CONTROL, p), UpIf(META, p));
    Grouped(s.events, UpIf(ALT, p) + UpIf(CONTROL, p) + UpIf(META, p), UpIf(SHIFT, p));
  }

  lemma SameModifiers()
    ensures [] + [ALT] == [ALT] && [ALT] + [CONTROL] == [ALT, CONTROL]
    ensures [ALT, CONTROL] + [META] == [ALT, CONTROL, META] && [ALT, CONTROL, META] + [SHIFT] == MODIFIERS
  {
  }

  lemma ModifierTells(s: State, key: Key)
    requires Valid(s.control) && IsModifier(key)
    ensures TypeToken(s, Special(key)).events == s.events + if key in s.pressed then [KeyUp(key)] else [KeyDown(key)]
  {
    PressTells(s, key);
  }

  lemma PressAndReleaseTells(s: State, key: Key)
    requires Valid(s.control)
    ensures PressAndRelease(s, key).events
      == s.events + Told(s.control.kind, key, Press(s, key).control.value != s.control.value)
         + if key.code.Some? then [KeyUp(key)] else []
  {
    var p := Press(s, key);
    PressTells(s, key);
    assert Release(p, key).events == p.events + if key.code.Some? then [KeyUp(key)] else [];
  }

  lemma SpecialTells(s: State, key: Key)
    requires Tracks(s) && Roomy(s.control) && KeyOk(key)
    requires CleanKey(s.control.kind, DeskOf(s), Typing(Special(key)))
    ensures TypeToken(s, Special(key)).events
      == s.events + KeyTold(s.control.kind, DeskOf(s), Typing(Special(key)))
  {
    if IsModifier(key) {
      ModifierTells(s, key);
    } else {
      PressAndReleaseTells(s, key);
      PressReads(s, key);
      var changed := Press(s, key).control.value != s.control.value;
      Grouped(s.events, Told(s.control.kind, key, changed), if key.code.Some? then [KeyUp(key)] else []);
    }
  }

  lemma OneKeyTells(s: State, k: WireKey)
    requires Tracks(s) && |s.control.value| + Length(k) < UINT32 - 2 && WireKeyOk(k)
    requires CleanKey(s.control.kind, DeskOf(s), k)
    ensures PlayKey(s, true, k).events == s.events + KeyTold(s.control.kind, DeskOf(s), k)
  {
    match k
    case Null => LettingGoTells(s);
    case Typing(Text(text)) => TextTells(s, text);
    case Typing(Special(key)) => SpecialTells(s, key);
  }

  lemma NextTells(r: State, kind: Kind, d: Desk, k: WireKey, before: seq<Event>, told: seq<Event>)
    requires d.editor.Ok() && Tracks(r) && DeskOf(r) == d && r.control.kind == kind
    requires |d.editor.text| + Length(k) < UINT32 - 2 && WireKeyOk(k) && CleanKey(kind, d, k)
    requires r.events == before + told
    ensures PlayKey(r, true, k).events == before + (told + KeyTold(kind, d, k))
  {
    OneKeyTells(r, k);
    Grouped(before, told, KeyTold(kind, d, k));
  }

  /** The whole record of what the page is told of a sequence of keys. */
  lemma {:induction false} PlayTells(s: State, ks: seq<WireKey>)
    requires Tracks(s) && WireKeysOk(ks) && |s.control.value| + Total(ks) < UINT32 - 2
    requires CleanKeys(s.control.kind, DeskOf(s), ks)
    ensures Play(s, ks).events == s.events + AllTold(s.control.kind, DeskOf(s), ks)
  {
    if ks != [] {
      var kind, d, init, k := s.control.kind, DeskOf(s), ks[..|ks| - 1], ks[|ks| - 1];
      PlayTells(s, init);
      PlayReads(s, init);
      NextTells(Play(s, init), kind, ReadKeys(kind, d, init), k, s.events, AllTold(kind, d, init));
    }
  }

  /** The same of the wire form of `type` in text inputs and textareas, for every sequence of keys. */
  lemma TextFieldsAreTold(s: State, focused: bool, ks: seq<WireKey>, persist: bool)
    requires Valid(s.control) && (focused ==> Tracks(s)) && !s.control.kind.Url?
    requires PlainKeys(ks) && |s.control.value| + Total(ks) < UINT32 - 2
    ensures var d := Starting(s, focused);
      TypeSequence(s, focused, true, ks, persist).events
      == s.events + AllTold(s.control.kind, d, ks)
         + if persist then [] else LettingGoTold(ReadKeys(s.control.kind, d, ks).pressed)
  {
    var f, d := Focus(s, !focused), Starting(s, focused);
    FocusReads(s, focused);
    KeysStayClean(s.control.kind, d, ks);
    PlayReads(f, ks);
    PlayTells(f, ks);
    SplittingKeepsMeaning(s, focused, ks, persist);
    LettingGoTells(Play(f, ks));
    assert s.events + AllTold(s.control.kind, d, ks) + [] == s.events + AllTold(s.control.kind, d, ks);
  }
}
