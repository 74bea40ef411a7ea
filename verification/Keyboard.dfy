/**
 * The virtual keyboard: the keys held down, the modifier mask, the cursor position it remembers,
 * and what pressing a key does to the text field in focus when no page handler interferes.
 */
module Keyboards {
  import opened Integers
  import opened Sequences
  import opened KeyTable
  import opened TextControls

  const BACKSPACE := Key(Some(8), None, None, 0)
  const ENTER := Key(Some(13), None, None, 0)
  const SHIFT := Key(Some(16), None, None, 0)
  const CONTROL := Key(Some(17), None, None, 0)
  const ALT := Key(Some(18), None, None, 0)
  const END := Key(Some(35), None, None, 0)
  const HOME := Key(Some(36), None, None, 0)
  const LEFT := Key(Some(37), None, None, 0)
  const RIGHT := Key(Some(39), None, None, 0)
  const DELETE := Key(Some(46), None, None, 0)
  const META := Key(Some(91), None, None, 0)

  const MODIFIERS := [ALT, CONTROL, META, SHIFT]

  predicate IsModifier(key: Key) { key == ALT || key == CONTROL || key == META || key == SHIFT }

  function ModifierBit(key: Key): bv8
    requires IsModifier(key)
  {
    if key == SHIFT then 1 else if key == CONTROL then 2 else if key == ALT then 4 else 8
  }

  datatype State = State(
    control: Control,
    currentPos: int,
    pressed: set<Key>,
    modifiers: bv8,
    events: seq<Event>)

  /** What `getState` reports. */
  datatype Report = Report(pressed: seq<Key>, currentPos: int)

  predicate Reports(r: Report, s: State)
  {
    (set key | key in r.pressed) == s.pressed && r.currentPos == s.currentPos
  }

  /** What the DOM guarantees of any control. */
  predicate InOrder(c: Control) { c.start <= c.end <= |c.value| }

  // ---------------------------------------------------------------------------------------------
  // What a key does
  // ---------------------------------------------------------------------------------------------

  /** `getChar`, as the text to insert. A character key types something with Shift and without. */
  function CharOf(key: Key, shift: bool): string
  {
    var c := Typed(key, shift);
    if c.Some? then [c.value] else []
  }

  /** Sets or clears the bit of a modifier key. */
  function WithModifier(mask: bv8, key: Key, isPressed: bool): bv8
    requires IsModifier(key)
  {
    if isPressed then mask | ModifierBit(key) else mask & !ModifierBit(key)
  }

  function SetKeyPressed(s: State, key: Key, isPressed: bool): State
  {
    s.(
      modifiers := if IsModifier(key) then WithModifier(s.modifiers, key, isPressed) else s.modifiers,
      pressed := if isPressed then s.pressed + {key} else s.pressed - {key})
  }

  function Insert(s: State, text: string): (r: State)
    requires InOrder(s.control)
    ensures InOrder(r.control)
    ensures r.pressed == s.pressed && r.modifiers == s.modifiers
  {
    var pos := s.control.start + 1;
    s.(control := SetSelectionStart(SetText(s.control, text), pos), currentPos := pos)
  }

  function OnCharacter(s: State, key: Key): (r: State)
    requires InOrder(s.control)
    ensures InOrder(r.control)
    ensures r.pressed == s.pressed && r.modifiers == s.modifiers
  {
    var s' := Insert(s, CharOf(key, SHIFT in s.pressed));
    s'.(events := s.events + [TextInput, Input])
  }

  function OnEnter(s: State): (r: State)
    requires InOrder(s.control)
    ensures InOrder(r.control)
    ensures r.pressed == s.pressed && r.modifiers == s.modifiers
  {
    if s.control.kind.MultiLine? then
      Insert(s, "\n").(events := s.events + [TextInput, Input])
    else
      s.(events := s.events + [TextInput])
  }

  /** What Backspace or Delete selects before it deletes: a neighbour when nothing is selected. */
  function SelectNeighbour(c: Control, key: Key): Control
  {
    if c.start != c.end then c
    else if key == BACKSPACE then SetSelectionEnd(SetSelectionStart(c, c.end - 1), c.end)
    else SetSelectionEnd(c, c.end + 1)
  }

  function OnBackspaceOrDelete(s: State, key: Key): (r: State)
    requires InOrder(s.control)
    ensures InOrder(r.control)
    ensures r.pressed == s.pressed && r.modifiers == s.modifiers
  {
    var c := SelectNeighbour(s.control, key);
    var textChanged := !(c.start == |c.value| || c.end == 0);
    var c' := SetText(c, "");
    s.(control := c', currentPos := c'.end,
       events := if textChanged then s.events + [Input] else s.events)
  }

  function SetCursor(c: Control, pos: int): (r: Control)
    ensures InOrder(r)
  {
    SetSelectionEnd(SetSelectionStart(c, pos), pos)
  }

  /** Left or Right without Shift: where the cursor goes. */
  function PlainTarget(c: Control, key: Key): int
  {
    if key == LEFT then
      if c.start == c.end then Max(c.start - 1, 0) else c.start
    else
      if c.start == c.end then Min(c.end + 1, |c.value|) else c.end
  }

  /** Left or Right with Shift: the new selection and the end of it that moved. */
  function ShiftTarget(c: Control, pos: int, key: Key): (int, int, int)
  {
    if key == LEFT then
      if pos == c.start then (Max(c.start - 1, 0), c.end, Max(c.start - 1, 0))
      else (c.start, c.end - 1, c.end - 1)
    else
      if pos == c.end then (c.start, Min(c.end + 1, |c.value|), Min(c.end + 1, |c.value|))
      else (c.start + 1, c.end, c.start + 1)
  }

  function OnLeftOrRight(s: State, key: Key): (r: State)
    ensures InOrder(r.control)
    ensures r.pressed == s.pressed && r.modifiers == s.modifiers
    ensures r.control.value == s.control.value && r.control.kind == s.control.kind
  {
    var c := s.control;
    if SHIFT in s.pressed then
      var (startPos, endPos, newPos) := ShiftTarget(c, s.currentPos, key);
      s.(control := SetSelectionEnd(SetSelectionStart(c, startPos), endPos), currentPos := newPos)
    else
      var newPos := PlainTarget(c, key);
      s.(control := SetCursor(c, newPos), currentPos := newPos)
  }

  function OnHomeOrEnd(s: State, key: Key): (r: State)
    ensures InOrder(r.control)
    ensures r.pressed == s.pressed && r.modifiers == s.modifiers
    ensures r.control.value == s.control.value && r.control.kind == s.control.kind
  {
    var c, start, end, length := s.control, s.control.start, s.control.end, |s.control.value|;
    if key == HOME then
      var c' :=
        if SHIFT in s.pressed then
          SetSelectionEnd(SetSelectionStart(c, 0), if s.currentPos == start then end else start)
        else
          SetCursor(c, 0);
      s.(control := c', currentPos := 0)
    else
      var c' :=
        if SHIFT in s.pressed then
          SetSelectionEnd(if s.currentPos == start then SetSelectionStart(c, end) else c, length)
        else
          SetCursor(c, length);
      s.(control := c', currentPos := length)
  }

  function MaybeEditText(s: State, key: Key): (r: State)
    requires InOrder(s.control)
    ensures InOrder(r.control)
    ensures r.pressed == s.pressed && r.modifiers == s.modifiers
  {
    if key.character.Some? then OnCharacter(s, key)
    else if key == ENTER then OnEnter(s)
    else if key == BACKSPACE || key == DELETE then OnBackspaceOrDelete(s, key)
    else if key == LEFT || key == RIGHT then OnLeftOrRight(s, key)
    else if key == HOME || key == END then OnHomeOrEnd(s, key)
    else s
  }

  /** Pressing a modifier that is down throws, and so does releasing a key that is up. */
  predicate CanPress(s: State, key: Key) { IsModifier(key) ==> key !in s.pressed }
  predicate CanRelease(s: State, key: Key) { key in s.pressed }

  function KeyEvents(key: Key): seq<Event>
  {
    [KeyDown(key)] + (if key.character.Some? || key == ENTER then [KeyPress(key)] else [])
  }

  function Press(s: State, key: Key): (r: State)
    requires InOrder(s.control)
    ensures InOrder(r.control)
  {
    var s' :=
      if key.code.Some? then MaybeEditText(s.(events := s.events + KeyEvents(key)), key) else s;
    SetKeyPressed(s', key, true)
  }

  function Release(s: State, key: Key): State
  {
    var s' := if key.code.Some? then s.(events := s.events + [KeyUp(key)]) else s;
    SetKeyPressed(s', key, false)
  }

  // ---------------------------------------------------------------------------------------------
  // The keyboard object
  // ---------------------------------------------------------------------------------------------

  class Keyboard {
    const element: TextField
    var currentPos: int
    var pressed: set<Key>
    var modifiers: bv8

    function View(): State
      reads this, element
    {
      State(element.View(), currentPos, pressed, modifiers, element.events)
    }

    /** Restores a keyboard from the state another one reported, then focuses on the element. */
    constructor (element: TextField, held: seq<Key>, pos: int)
      ensures this.element == element
      ensures pressed == set key | key in held
      ensures modifiers == MaskOf(pressed) && currentPos == pos
    {
      this.element := element;
      currentPos, pressed, modifiers := pos, {}, 0;
      new;
      for i := 0 to |held|
        invariant pressed == set key | key in held[..i]
        invariant modifiers == MaskOf(pressed)
        invariant currentPos == pos && this.element == element
      {
        MaskFollows(View(), held[i], true);
        SetPressed(held[i], true);
        assert held[..i + 1] == held[..i] + [held[i]];
      }
      assert held[..|held|] == held;
    }

    method GetState() returns (r: Report)
      ensures Reports(r, View())
    {
      var held: seq<Key>, todo := [], pressed;
      while todo != {}
        invariant (set key | key in held) + todo == pressed
        decreases |todo|
      {
        var key :| key in todo;
        held, todo := held + [key], todo - {key};
      }
      r := Report(held, currentPos);
    }

    method SetPressed(key: Key, isPressed: bool)
      modifies this
      ensures View() == SetKeyPressed(old(View()), key, isPressed)
    {
      if IsModifier(key) {
        modifiers := WithModifier(modifiers, key, isPressed);
      }
      if isPressed {
        pressed := pressed + {key};
      } else {
        pressed := pressed - {key};
      }
    }

    method PressKey(key: Key) returns (ok: bool)
      requires InOrder(element.View())
      modifies this, element
      ensures ok == CanPress(old(View()), key)
      ensures View() == if ok then Press(old(View()), key) else old(View())
    {
      if IsModifier(key) && key in pressed {
        return false;
      }
      if key.code.Some? {
        element.Fire(KeyEvents(key));
        EditText(key);
      }
      SetPressed(key, true);
      ok := true;
    }

    method ReleaseKey(key: Key) returns (ok: bool)
      modifies this, element`events
      ensures ok == CanRelease(old(View()), key)
      ensures View() == if ok then Release(old(View()), key) else old(View())
    {
      if key !in pressed {
        return false;
      }
      if key.code.Some? {
        element.Fire([KeyUp(key)]);
      }
      SetPressed(key, false);
      ok := true;
    }

    method EditText(key: Key)
      requires InOrder(element.View())
      modifies this, element
      ensures View() == MaybeEditText(old(View()), key)
    {
      if key.character.Some? {
        UpdateOnCharacter(key);
      } else if key == ENTER {
        UpdateOnEnter();
      } else if key == BACKSPACE || key == DELETE {
        UpdateOnBackspaceOrDelete(key);
      } else if key == LEFT || key == RIGHT {
        UpdateOnLeftOrRight(key);
      } else if key == HOME || key == END {
        UpdateOnHomeOrEnd(key);
      }
    }

    method UpdateOnCharacter(key: Key)
      requires InOrder(element.View())
      modifies this, element
      ensures View() == OnCharacter(old(View()), key)
    {
      var text := CharOf(key, SHIFT in pressed);
      var newPos := element.selectionStart + 1;
      element.ReplaceSelection(text);
      element.SetStart(newPos);
      element.Fire([TextInput]);
      element.Fire([Input]);
      assert element.events == old(element.events) + [TextInput, Input];
      currentPos := newPos;
    }

    method UpdateOnEnter()
      requires InOrder(element.View())
      modifies this, element
      ensures View() == OnEnter(old(View()))
    {
      element.Fire([TextInput]);
      if element.kind.MultiLine? {
        var newPos := element.selectionStart + 1;
        element.ReplaceSelection("\n");
        element.SetStart(newPos);
        element.Fire([Input]);
        assert element.events == old(element.events) + [TextInput, Input];
        currentPos := newPos;
      }
    }

    method UpdateOnBackspaceOrDelete(key: Key)
      requires InOrder(element.View())
      modifies this, element
      ensures View() == OnBackspaceOrDelete(old(View()), key)
    {
      var start: int, end: int := element.selectionStart, element.selectionEnd;
      if start == end {
        if key == BACKSPACE {
          element.SetStart(end - 1);
          element.SetEnd(end);
        } else {
          element.SetEnd(end + 1);
        }
      }
      assert element.View() == SelectNeighbour(old(element.View()), key);
      var textChanged := !(element.selectionStart == |element.value| || element.selectionEnd == 0);
      element.ReplaceSelection("");
      if textChanged {
        element.Fire([Input]);
      }
      currentPos := element.selectionEnd;
    }

    method UpdateOnLeftOrRight(key: Key)
      modifies this, element
      ensures View() == OnLeftOrRight(old(View()), key)
    {
      var start: int, end: int, length := element.selectionStart, element.selectionEnd, |element.value|;
      var newPos: int, startPos: int, endPos: int := 0, 0, 0;
      if key == LEFT {
        if SHIFT in pressed {
          if currentPos == start {
            startPos, endPos := Max(start - 1, 0), end;
            newPos := startPos;
          } else {
            startPos, endPos := start, end - 1;
            newPos := endPos;
          }
        } else {
          newPos := if start == end then Max(start - 1, 0) else start;
        }
      } else {
        if SHIFT in pressed {
          if currentPos == end {
            startPos, endPos := start, Min(end + 1, length);
            newPos := endPos;
          } else {
            startPos, endPos := start + 1, end;
            newPos := startPos;
          }
        } else {
          newPos := if start == end then Min(end + 1, length) else end;
        }
      }
      assert SHIFT in pressed ==>
        (startPos, endPos, newPos) == ShiftTarget(element.View(), currentPos, key);
      assert SHIFT !in pressed ==> newPos == PlainTarget(element.View(), key);
      if SHIFT in pressed {
        element.SetStart(startPos);
        element.SetEnd(endPos);
      } else {
        element.SetCursorPosition(newPos);
      }
      currentPos := newPos;
    }

    method UpdateOnHomeOrEnd(key: Key)
      modifies this, element
      ensures View() == OnHomeOrEnd(old(View()), key)
    {
      var start: int, end: int, length := element.selectionStart, element.selectionEnd, |element.value|;
      if key == HOME {
        if SHIFT in pressed {
          element.SetStart(0);
          element.SetEnd(if currentPos == start then end else start);
        } else {
          element.SetCursorPosition(0);
        }
        currentPos := 0;
      } else {
        if SHIFT in pressed {
          if currentPos == start {
            element.SetStart(end);
          }
          element.SetEnd(length);
        } else {
          element.SetCursorPosition(length);
        }
        currentPos := length;
      }
    }

    /** Focus moving to the element puts the cursor at the end; focus already there moves nothing. */
    method MoveCursor(focusChanged: bool)
      modifies this, element
      ensures View() == Focus(old(View()), focusChanged)
    {
      if focusChanged {
        var length := |element.value|;
        element.SetCursorPosition(length);
        currentPos := length;
      }
    }
  }

  function Focus(s: State, focusChanged: bool): State
  {
    if focusChanged then
      s.(control := SetCursor(s.control, |s.control.value|), currentPos := |s.control.value|)
    else s
  }

  /** A new keyboard on the same page: it holds nothing and knows of no cursor. */
  function Fresh(s: State): State
  {
    s.(currentPos := 0, pressed := {}, modifiers := 0)
  }

  // ---------------------------------------------------------------------------------------------
  // The modifier mask
  // ---------------------------------------------------------------------------------------------

  /** The mask that the pressed set calls for. */
  function MaskOf(pressed: set<Key>): bv8
  {
    (if SHIFT in pressed then 1 else 0) | (if CONTROL in pressed then 2 else 0)
    | (if ALT in pressed then 4 else 0) | (if META in pressed then 8 else 0)
  }

  /** The two records of the modifiers never drift apart. */
  lemma MaskFollows(s: State, key: Key, isPressed: bool)
    requires s.modifiers == MaskOf(s.pressed)
    ensures var s' := SetKeyPressed(s, key, isPressed);
      s'.modifiers == MaskOf(s'.pressed)
  {
  }

  /** Each bit of the mask says whether its modifier is down. */
  lemma MaskBits(pressed: set<Key>, key: Key)
    requires IsModifier(key)
    ensures MaskOf(pressed) & ModifierBit(key) != 0 <==> key in pressed
  {
  }
}
