/**
 * What the keyboard is for: a text editor with an anchor and a cursor. The keyboard, the DOM
 * selection and the setters of the HTML Standard together implement it.
 */
module Editors {
  import opened Integers
  import opened KeyTable
  import opened TextControls
  import opened Keyboards

  datatype Editor = Editor(text: string, anchor: int, cursor: int)
  {
    function Lo(): int { Min(anchor, cursor) }
    function Hi(): int { Max(anchor, cursor) }
    predicate Ok() { 0 <= Lo() && Hi() <= |text| }
  }

  /** The cursor is where the keyboard remembers it; the anchor is the other end of the selection. */
  function Abstract(s: State): Editor
  {
    Editor(s.control.value, s.control.start + s.control.end - s.currentPos, s.currentPos)
  }

  function Overwrite(e: Editor, text: string): Editor
    requires e.Ok()
  {
    Editor(e.text[..e.Lo()] + text + e.text[e.Hi()..], e.Lo() + |text|, e.Lo() + |text|)
  }

  /** Removes the selection, or from `lo` to `hi` when there is none. */
  function Erase(e: Editor, lo: int, hi: int): Editor
    requires e.Ok() && 0 <= lo <= hi <= |e.text|
  {
    if e.anchor != e.cursor then Overwrite(e, "")
    else Editor(e.text[..lo] + e.text[hi..], lo, lo)
  }

  function MoveTo(e: Editor, pos: int, extend: bool): Editor
  {
    e.(anchor := if extend then e.anchor else pos, cursor := pos)
  }

  function Edit(kind: Kind, e: Editor, key: Key, shift: bool): (r: Editor)
    requires e.Ok()
    ensures r.Ok() && |r.text| <= |e.text| + 1
  {
    if key.code.None? then e
    else if key.character.Some? then Overwrite(e, CharOf(key, shift))
    else if key == ENTER then (if kind.MultiLine? then Overwrite(e, "\n") else e)
    else if key == BACKSPACE then Erase(e, Max(e.cursor - 1, 0), e.cursor)
    else if key == DELETE then Erase(e, e.cursor, Min(e.cursor + 1, |e.text|))
    else if key == LEFT then
      MoveTo(e, if shift || e.anchor == e.cursor then Max(e.cursor - 1, 0) else e.Lo(), shift)
    else if key == RIGHT then
      MoveTo(e, if shift || e.anchor == e.cursor then Min(e.cursor + 1, |e.text|) else e.Hi(), shift)
    else if key == HOME then MoveTo(e, 0, shift)
    else if key == END then MoveTo(e, |e.text|, shift)
    else e
  }

  // ---------------------------------------------------------------------------------------------
  // One key
  // ---------------------------------------------------------------------------------------------

  /** `currentPos` is one of the ends of the selection. */
  predicate Tracks(s: State)
  {
    Valid(s.control) && (s.currentPos == s.control.start || s.currentPos == s.control.end)
  }

  /** The text has room for another character. */
  predicate Roomy(c: Control) { |c.value| < UINT32 - 2 }

  predicate CharacterKey(key: Key) { key.character.Some? && key.shiftChar.Some? }

  predicate KeyOk(key: Key) { key.character.Some? ==> CharacterKey(key) }

  /** Inserting one character replaces the selection and puts the caret behind it. */
  lemma InsertReplaces(s: State, text: string)
    requires Valid(s.control) && Roomy(s.control) && |text| == 1
    requires Clean(s.control.kind, Replaced(s.control, text))
    ensures var c, p := s.control, s.control.start + 1;
      && Insert(s, text).control == Control(c.kind, Replaced(c, text), p, p)
      && Insert(s, text).currentPos == p <= |Replaced(c, text)| < UINT32 - 1
  {
    var c := s.control;
    SetTextReplaces(c, text);
    var c' := SetText(c, text);
    assert c' == Control(c.kind, Replaced(c, text), c.start, c.start + 1);
    CaretAtEnd(c');
  }

  lemma InsertRefines(s: State, text: string)
    requires Tracks(s) && Roomy(s.control) && |text| == 1
    requires Clean(s.control.kind, Overwrite(Abstract(s), text).text)
    ensures Tracks(Insert(s, text)) && Abstract(Insert(s, text)) == Overwrite(Abstract(s), text)
  {
    assert Replaced(s.control, text) == Overwrite(Abstract(s), text).text;
    InsertReplaces(s, text);
  }

  /** The neighbour that Backspace and Delete select, including at the ends of the text. */
  lemma NeighbourSelected(c: Control, key: Key)
    requires Valid(c) && (key == BACKSPACE || key == DELETE)
    ensures SelectNeighbour(c, key)
         == if c.start != c.end then c
            else if key == BACKSPACE then c.(start := Max(c.end - 1, 0))
            else c.(end := Min(c.end + 1, |c.value|))
  {
    if c.start == c.end {
      if key == DELETE {
        InRange(c.end + 1);
      } else if c.end > 0 {
        InRange(c.end - 1);
        InRange(c.end);
      } else {
        assert (-1) % UINT32 == UINT32 - 1;
      }
    }
  }

  /** The value without its selection, or without the neighbour of the cursor on the side of `key`. */
  function Remainder(c: Control, key: Key): string
    requires InOrder(c)
  {
    if c.start < c.end then c.value[..c.start] + c.value[c.end..]
    else if key == BACKSPACE && c.start > 0 then c.value[..c.start - 1] + c.value[c.start..]
    else if key == DELETE && c.end < |c.value| then c.value[..c.end] + c.value[c.end + 1..]
    else c.value
  }

  lemma RemainderIsWhatIsErased(c: Control, key: Key)
    requires Valid(c) && (key == BACKSPACE || key == DELETE)
    ensures var c1 := SelectNeighbour(c, key);
      && Valid(c1) && c1.value == c.value && c1.kind == c.kind
      && Replaced(c1, "") == Remainder(c, key)
      && (Remainder(c, key) == c.value <==> c1.start == |c1.value| || c1.end == 0)
  {
    NeighbourSelected(c, key);
    var c1 := SelectNeighbour(c, key);
    assert Replaced(c1, "") == c1.value[..c1.start] + c1.value[c1.end..];
    if c1.start == c1.end {
      assert Replaced(c1, "") == c.value;
    }
  }

  /** What is erased from the control is what the editor erases. */
  lemma NeighbourErased(s: State, key: Key)
    requires Tracks(s) && (key == BACKSPACE || key == DELETE)
    ensures var c1, e' := SelectNeighbour(s.control, key), Edit(s.control.kind, Abstract(s), key, false);
      && Valid(c1) && c1.kind == s.control.kind
      && Replaced(c1, "") == e'.text && e'.anchor == e'.cursor == c1.start
  {
    NeighbourSelected(s.control, key);
    RemainderIsWhatIsErased(s.control, key);
  }

  lemma EraseRefines(s: State, key: Key)
    requires Tracks(s) && (key == BACKSPACE || key == DELETE)
    requires Clean(s.control.kind, Edit(s.control.kind, Abstract(s), key, false).text)
    ensures var s', e' := OnBackspaceOrDelete(s, key), Edit(s.control.kind, Abstract(s), key, false);
      Tracks(s') && Abstract(s') == e'
  {
    NeighbourErased(s, key);
    var c1, e' := SelectNeighbour(s.control, key), Edit(s.control.kind, Abstract(s), key, false);
    SetTextReplaces(c1, "");
    assert SetText(c1, "") == Control(c1.kind, e'.text, e'.cursor, e'.cursor);
  }

  lemma ShiftArrowRefines(s: State, key: Key)
    requires Tracks(s) && (key == LEFT || key == RIGHT) && SHIFT in s.pressed
    ensures var s' := OnLeftOrRight(s, key);
      Tracks(s') && Abstract(s') == Edit(s.control.kind, Abstract(s), key, true)
  {
    var c := s.control;
    var (startPos, endPos, newPos) := ShiftTarget(c, s.currentPos, key);
    SettersSelect(c, startPos, endPos);
  }

  lemma PlainArrowRefines(s: State, key: Key)
    requires Tracks(s) && (key == LEFT || key == RIGHT) && SHIFT !in s.pressed
    ensures var s' := OnLeftOrRight(s, key);
      Tracks(s') && Abstract(s') == Edit(s.control.kind, Abstract(s), key, false)
  {
    var to := PlainTarget(s.control, key);
    SettersSelect(s.control, to, to);
  }

  lemma HomeOrEndRefines(s: State, key: Key)
    requires Tracks(s) && (key == HOME || key == END)
    ensures var s' := OnHomeOrEnd(s, key);
      Tracks(s') && Abstract(s') == Edit(s.control.kind, Abstract(s), key, SHIFT in s.pressed)
  {
    var c := s.control;
    if SHIFT !in s.pressed {
      var to := if key == HOME then 0 else |c.value|;
      SettersSelect(c, to, to);
    } else if key == HOME {
      InRange(0);
      SettersSelect(c, 0, if s.currentPos == c.start then c.end else c.start);
    } else {
      InRange(|c.value|);
      InRange(c.end);
    }
  }

  lemma EditRefines(s: State, key: Key)
    requires Tracks(s) && Roomy(s.control) && KeyOk(key) && key.code.Some?
    requires Clean(s.control.kind, Edit(s.control.kind, Abstract(s), key, SHIFT in s.pressed).text)
    ensures var s' := MaybeEditText(s, key);
      Tracks(s') && Abstract(s') == Edit(s.control.kind, Abstract(s), key, SHIFT in s.pressed)
  {
    if key.character.Some? {
      InsertRefines(s, CharOf(key, SHIFT in s.pressed));
    } else if key == ENTER {
      if s.control.kind.MultiLine? {
        InsertRefines(s, "\n");
      }
    } else if key == BACKSPACE || key == DELETE {
      EraseRefines(s, key);
    } else if key == LEFT || key == RIGHT {
      if SHIFT in s.pressed {
        ShiftArrowRefines(s, key);
      } else {
        PlainArrowRefines(s, key);
      }
    } else if key == HOME || key == END {
      HomeOrEndRefines(s, key);
    }
  }

  // ---------------------------------------------------------------------------------------------
  // What survives every key
  // ---------------------------------------------------------------------------------------------

  lemma InsertKeepsControl(s: State, text: string)
    requires Valid(s.control) && Roomy(s.control) && |text| <= 1
    ensures var c := Insert(s, text).control;
      Valid(c) && c.kind == s.control.kind && c.value == Sanitize(c.kind, Replaced(s.control, text))
  {
    SetTextIsValid(s.control, text);
    SettersKeepValid(SetText(s.control, text), s.control.start + 1, 0);
  }

  lemma EraseKeepsControl(s: State, key: Key)
    requires Valid(s.control) && (key == BACKSPACE || key == DELETE)
    ensures var c := OnBackspaceOrDelete(s, key).control;
      && Valid(c) && c.kind == s.control.kind
      && c.value == Sanitize(c.kind, Replaced(SelectNeighbour(s.control, key), ""))
  {
    NeighbourSelected(s.control, key);
    SetTextIsValid(SelectNeighbour(s.control, key), "");
  }

  lemma MovingKeepsControl(s: State, key: Key)
    requires Valid(s.control) && key.character.None?
    requires key != ENTER && key != BACKSPACE && key != DELETE
    ensures var c := MaybeEditText(s, key).control;
      Valid(c) && c.kind == s.control.kind && c.value == s.control.value
  {
  }

  /** In every kind of control, and wherever `currentPos` is, a key leaves a valid selection. */
  lemma EditKeepsControl(s: State, key: Key)
    requires Valid(s.control) && Roomy(s.control)
    ensures var c := MaybeEditText(s, key).control;
      Valid(c) && c.kind == s.control.kind && |c.value| <= |s.control.value| + 1
  {
    if key.character.Some? {
      InsertKeepsControl(s, CharOf(key, SHIFT in s.pressed));
      SanitizeIsClosure(s.control.kind, Replaced(s.control, CharOf(key, SHIFT in s.pressed)));
    } else if key == ENTER {
      InsertKeepsControl(s, "\n");
      SanitizeIsClosure(s.control.kind, Replaced(s.control, "\n"));
    } else if key == BACKSPACE || key == DELETE {
      EraseKeepsControl(s, key);
      NeighbourSelected(s.control, key);
      SanitizeIsClosure(s.control.kind, Replaced(SelectNeighbour(s.control, key), ""));
    } else {
      MovingKeepsControl(s, key);
    }
  }

  /**
   * The refinement, one key press at a time: the keyboard does what the editor does exactly when
   * the control can hold the editor's text, and then it still tracks the cursor.
   */
  lemma PressRefinesEditor(s: State, key: Key)
    requires Tracks(s) && Roomy(s.control) && KeyOk(key)
    ensures var s', e' := Press(s, key), Edit(s.control.kind, Abstract(s), key, SHIFT in s.pressed);
      && (Abstract(s') == e' <==> Clean(s.control.kind, e'.text))
      && (Abstract(s') == e' ==> Tracks(s'))
  {
    var e' := Edit(s.control.kind, Abstract(s), key, SHIFT in s.pressed);
    if key.code.Some? {
      var s1 := s.(events := s.events + KeyEvents(key));
      assert Abstract(s1) == Abstract(s);
      EditKeepsControl(s1, key);
      if Clean(s.control.kind, e'.text) {
        EditRefines(s1, key);
      }
    }
  }

  /**
   * Backspace and Delete in any kind of control: the value loses exactly the selection, or the one
   * neighbouring character, or nothing at the edge of the text, and is then sanitized. An `input`
   * event follows exactly when the value changed.
   */
  lemma EraseRemovesExactly(s: State, key: Key)
    requires Valid(s.control) && (key == BACKSPACE || key == DELETE)
    ensures var c, s' := s.control, OnBackspaceOrDelete(s, key);
      && s'.control.value == Sanitize(c.kind, Remainder(c, key))
      && s'.events == (if s'.control.value != c.value then s.events + [Input] else s.events)
      && s'.currentPos == s'.control.end
  {
    var c := s.control;
    RemainderIsWhatIsErased(c, key);
    SetTextIsValid(SelectNeighbour(c, key), "");
    SanitizeIsClosure(c.kind, Remainder(c, key));
  }
}
