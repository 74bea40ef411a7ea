/**
 * A text field and its selection: the setters of section 4.10.20 of the HTML Standard ("APIs for
 * the text control selections") with the value sanitization of each kind of control, and on top of
 * them the replacement of the selected text.
 */
module TextControls {
  import opened Integers
  import opened Sequences
  import opened KeyTable

  /** `<input type=text|search|tel|password>`, `<textarea>`, `<input type=url>`. */
  datatype Kind = SingleLine | MultiLine | Url

  datatype Control = Control(kind: Kind, value: string, start: nat, end: nat)

  /** The range of an `unsigned long`, which the selection setters convert their argument to. */
  const UINT32: int := 0x1_0000_0000

  /** What the element is told of. */
  datatype Event = KeyDown(key: Key) | KeyPress(key: Key) | KeyUp(key: Key) | TextInput | Input

  // ---------------------------------------------------------------------------------------------
  // Value sanitization
  // ---------------------------------------------------------------------------------------------

  predicate Newline(ch: char) { ch == '\n' || ch == '\r' }

  /** ASCII whitespace. */
  predicate Space(ch: char) { ch == ' ' || ch == '\t' || ch == '\U{000C}' || Newline(ch) }

  function StripNewlines(s: string): string
  {
    if s == [] then []
    else if Newline(s[0]) then StripNewlines(s[1..])
    else [s[0]] + StripNewlines(s[1..])
  }

  /** A textarea's value reports every line break as one U+000A. */
  function NormalizeNewlines(s: string): string
  {
    if s == [] then []
    else if s[0] != '\r' then [s[0]] + NormalizeNewlines(s[1..])
    else if |s| > 1 && s[1] == '\n' then ['\n'] + NormalizeNewlines(s[2..])
    else ['\n'] + NormalizeNewlines(s[1..])
  }

  function TrimLeft(s: string): string
  {
    if s != [] && Space(s[0]) then TrimLeft(s[1..]) else s
  }

  function TrimRight(s: string): string
  {
    if s != [] && Space(s[|s| - 1]) then TrimRight(s[..|s| - 1]) else s
  }

  function Sanitize(kind: Kind, s: string): string
  {
    match kind
    case SingleLine => StripNewlines(s)
    case MultiLine => NormalizeNewlines(s)
    case Url => TrimRight(TrimLeft(StripNewlines(s)))
  }

  /** The values a control of this kind can hold. */
  predicate Clean(kind: Kind, s: string)
  {
    match kind
    case SingleLine => '\n' !in s && '\r' !in s
    case MultiLine => '\r' !in s
    case Url => '\n' !in s && '\r' !in s && (s != [] ==> !Space(s[0]) && !Space(s[|s| - 1]))
  }

  lemma {:induction false} StripIsClean(s: string)
    ensures Clean(SingleLine, StripNewlines(s)) && |StripNewlines(s)| <= |s|
    ensures Clean(SingleLine, s) ==> StripNewlines(s) == s
  {
    if s != [] {
      StripIsClean(s[1..]);
      assert s == [s[0]] + s[1..];
    }
  }

  lemma {:induction false} NormalizeIsClean(s: string)
    ensures Clean(MultiLine, NormalizeNewlines(s)) && |NormalizeNewlines(s)| <= |s|
    ensures Clean(MultiLine, s) ==> NormalizeNewlines(s) == s
  {
    if s != [] {
      NormalizeIsClean(if s[0] == '\r' && |s| > 1 && s[1] == '\n' then s[2..] else s[1..]);
      assert s == [s[0]] + s[1..];
    }
  }

  lemma {:induction false} TrimLeftIsSuffix(s: string)
    ensures |TrimLeft(s)| <= |s| && TrimLeft(s) == s[|s| - |TrimLeft(s)|..]
    ensures TrimLeft(s) != [] ==> !Space(TrimLeft(s)[0])
  {
    if s != [] && Space(s[0]) {
      TrimLeftIsSuffix(s[1..]);
    }
  }

  lemma {:induction false} TrimRightIsPrefix(s: string)
    ensures |TrimRight(s)| <= |s| && TrimRight(s) == s[..|TrimRight(s)|]
    ensures TrimRight(s) != [] ==> !Space(TrimRight(s)[|TrimRight(s)| - 1])
  {
    if s != [] && Space(s[|s| - 1]) {
      TrimRightIsPrefix(s[..|s| - 1]);
    }
  }

  lemma SliceIsClean(t: string, lo: nat, hi: nat)
    requires lo <= hi <= |t| && Clean(SingleLine, t)
    ensures Clean(SingleLine, t[lo..hi])
  {
  }

  /** Trimming cuts a slice out of the middle. */
  lemma {:induction false} TrimIsSlice(t: string)
    ensures var l, r := TrimLeft(t), TrimRight(TrimLeft(t));
      |r| <= |l| <= |t| && r == t[|t| - |l|..|t| - |l| + |r|]
  {
    TrimLeftIsSuffix(t);
    TrimRightIsPrefix(TrimLeft(t));
  }

  lemma {:induction false} TrimIsClosure(t: string)
    requires Clean(SingleLine, t)
    ensures var r := TrimRight(TrimLeft(t));
      Clean(Url, r) && |r| <= |t| && (|r| == |t| <==> Clean(Url, t)) && (|r| == |t| ==> r == t)
  {
    var l := TrimLeft(t);
    var r := TrimRight(l);
    TrimIsSlice(t);
    SliceIsClean(t, |t| - |l|, |t| - |l| + |r|);
    TrimLeftIsSuffix(t);
    TrimRightIsPrefix(l);
    if r != [] {
      assert r[0] == l[0];
    }
  }

  /** Sanitization yields the clean values, fixes exactly those, and never lengthens a value. */
  lemma {:induction false} SanitizeIsClosure(kind: Kind, s: string)
    ensures Clean(kind, Sanitize(kind, s)) && |Sanitize(kind, s)| <= |s|
    ensures Sanitize(kind, s) == s <==> Clean(kind, s)
  {
    match kind
    case SingleLine => StripIsClean(s);
    case MultiLine => NormalizeIsClean(s);
    case Url =>
      StripIsClean(s);
      TrimIsClosure(StripNewlines(s));
  }

  predicate Inline(ch: char) { !Newline(ch) }

  lemma {:induction false} StripFilters(s: string)
    ensures StripNewlines(s) == Filter(s, Inline)
  {
    if s != [] {
      StripFilters(s[1..]);
      FilterAppend([], s[0], Inline);
      assert [] + [s[0]] == [s[0]] && s == [s[0]] + s[1..];
      FilterConcat([s[0]], s[1..], Inline);
    }
  }

  lemma {:induction false} TrimmedIsSpace(s: string)
    ensures var l := TrimLeft(s); |l| <= |s| && forall i :: 0 <= i < |s| - |l| ==> Space(s[i])
    ensures var r := TrimRight(s); |r| <= |s| && forall i :: |r| <= i < |s| ==> Space(s[i])
    decreases |s|
  {
    TrimLeftIsSuffix(s);
    TrimRightIsPrefix(s);
    if s != [] {
      TrimmedIsSpace(s[1..]);
      TrimmedIsSpace(s[..|s| - 1]);
      assert forall i :: 0 < i < |s| ==> s[1..][i - 1] == s[i];
    }
  }

  lemma {:induction false} TrimTakesTheMiddle(t: string) returns (i: nat, j: nat)
    ensures i <= j <= |t| && TrimRight(TrimLeft(t)) == t[i..j]
    ensures forall k :: 0 <= k < i || j <= k < |t| ==> Space(t[k])
  {
    var l := TrimLeft(t);
    var r := TrimRight(l);
    TrimIsSlice(t);
    TrimmedIsSpace(t);
    TrimmedIsSpace(l);
    TrimLeftIsSuffix(t);
    i, j := |t| - |l|, |t| - |l| + |r|;
    forall k | j <= k < |t|
      ensures Space(t[k])
    {
      assert t[k] == l[k - i];
    }
  }

  /** What the inputs lose: line breaks, and in a url input also the spaces around; nothing else. */
  lemma {:induction false} SanitizeRemovesOnly(s: string)
    ensures Sanitize(SingleLine, s) == Filter(s, Inline)
    ensures var t, u := Sanitize(SingleLine, s), Sanitize(Url, s);
      exists i, j :: 0 <= i <= j <= |t| && u == t[i..j]
        && forall k :: 0 <= k < i || j <= k < |t| ==> Space(t[k])
  {
    StripFilters(s);
    var i, j := TrimTakesTheMiddle(StripNewlines(s));
  }

  lemma {:induction false} StripShortens(s: string)
    requires !Clean(SingleLine, s)
    ensures |StripNewlines(s)| < |s|
  {
    if Newline(s[0]) {
      StripIsClean(s[1..]);
    } else {
      assert s == [s[0]] + s[1..];
      StripShortens(s[1..]);
    }
  }

  /** In an input, a value that is not clean loses characters. */
  lemma {:induction false} SanitizeShortens(kind: Kind, s: string)
    requires !kind.MultiLine? && !Clean(kind, s)
    ensures |Sanitize(kind, s)| < |s|
  {
    if Clean(SingleLine, s) {
      StripIsClean(s);
      TrimIsClosure(s);
    } else {
      StripShortens(s);
      StripIsClean(s);
      TrimIsClosure(StripNewlines(s));
    }
  }

  // ---------------------------------------------------------------------------------------------
  // The setters of the HTML Standard
  // ---------------------------------------------------------------------------------------------

  predicate Valid(c: Control)
  {
    c.start <= c.end <= |c.value| < UINT32 - 1 && Clean(c.kind, c.value)
  }

  /** "Set the selection range": past-the-end arguments mean the end; an empty range sits at its end. */
  function SetRange(c: Control, start: nat, end: nat): (r: Control)
    ensures r.start <= r.end <= |r.value| && r.value == c.value && r.kind == c.kind
  {
    var s, e := Min(start, |c.value|), Min(end, |c.value|);
    if e <= s then c.(start := e, end := e) else c.(start := s, end := e)
  }

  function SetSelectionStart(c: Control, pos: int): (r: Control)
    ensures r.start <= r.end <= |r.value| && r.value == c.value && r.kind == c.kind
  {
    var p := pos % UINT32;
    SetRange(c, p, Max(c.end, p))
  }

  function SetSelectionEnd(c: Control, pos: int): (r: Control)
    ensures r.start <= r.end <= |r.value| && r.value == c.value && r.kind == c.kind
  {
    SetRange(c, c.start, pos % UINT32)
  }

  /** The value setter: a value that changes takes the cursor to its end. */
  function SetValue(c: Control, value: string): Control
  {
    var v := Sanitize(c.kind, value);
    if v != c.value then Control(c.kind, v, |v|, |v|) else c
  }

  // ---------------------------------------------------------------------------------------------
  // Replacing the selection
  // ---------------------------------------------------------------------------------------------

  /** The value with `text` in place of what is selected. */
  function Replaced(c: Control, text: string): string
    requires c.start <= c.end <= |c.value|
  {
    c.value[..c.start] + text + c.value[c.end..]
  }

  function SetText(c: Control, text: string): (r: Control)
    requires c.start <= c.end <= |c.value|
    ensures r.start <= r.end <= |r.value|
  {
    var c1 := SetValue(c, Replaced(c, text));
    SetSelectionEnd(SetSelectionStart(c1, c.start), c.start + |text|)
  }

  lemma InRange(pos: int)
    requires 0 <= pos < UINT32
    ensures pos % UINT32 == pos
  {
  }

  /** Inside the value, setting the start and then the end selects exactly that range. */
  lemma SettersSelect(c: Control, a: nat, b: nat)
    requires a <= b <= |c.value| < UINT32 && c.end <= |c.value|
    ensures SetSelectionEnd(SetSelectionStart(c, a), b) == c.(start := a, end := b)
  {
    InRange(a);
    InRange(b);
  }

  /** A caret set at the end of what is selected. */
  lemma CaretAtEnd(c: Control)
    requires c.start <= c.end <= |c.value| < UINT32
    ensures SetSelectionStart(c, c.end) == c.(start := c.end)
  {
  }

  /** The three assignments amount to a replacement that leaves the new text selected. */
  lemma SetTextReplaces(c: Control, text: string)
    requires Valid(c) && |Replaced(c, text)| < UINT32 - 1
    requires Clean(c.kind, Replaced(c, text))
    ensures SetText(c, text) == Control(c.kind, Replaced(c, text), c.start, c.start + |text|)
  {
    var v := Replaced(c, text);
    SanitizeIsClosure(c.kind, v);
    var c1 := SetValue(c, v);
    assert c1.value == v && c1.kind == c.kind && c1.end <= |v|;
    SettersSelect(c1, c.start, c.start + |text|);
  }

  lemma SettersKeepValid(c: Control, a: int, b: int)
    requires Valid(c)
    ensures Valid(SetSelectionStart(c, a)) && SetSelectionStart(c, a).value == c.value
    ensures Valid(SetSelectionEnd(c, b)) && SetSelectionEnd(c, b).value == c.value
    ensures SetSelectionStart(c, a).kind == SetSelectionEnd(c, b).kind == c.kind
  {
  }

  lemma SetValueIsValid(c: Control, v: string)
    requires Valid(c) && |v| < UINT32 - 1
    ensures var c1 := SetValue(c, v);
      Valid(c1) && c1.value == Sanitize(c.kind, v) && c1.kind == c.kind
  {
    SanitizeIsClosure(c.kind, v);
  }

  /** Whatever the sanitization does, the control stays valid and holds the sanitized replacement. */
  lemma SetTextIsValid(c: Control, text: string)
    requires Valid(c) && |Replaced(c, text)| < UINT32 - 1
    ensures Valid(SetText(c, text)) && SetText(c, text).kind == c.kind
    ensures SetText(c, text).value == Sanitize(c.kind, Replaced(c, text))
  {
    SetValueIsValid(c, Replaced(c, text));
    var c1 := SetValue(c, Replaced(c, text));
    var c2 := SetSelectionStart(c1, c.start);
    SettersKeepValid(c1, c.start, 0);
    SettersKeepValid(c2, 0, c.start + |text|);
  }

  /** The element a keyboard types into, and the operations of `selection.ts` on it. */
  class TextField {
    const kind: Kind
    var value: string
    var selectionStart: nat
    var selectionEnd: nat
    var events: seq<Event>

    function View(): Control
      reads this
    {
      Control(kind, value, selectionStart, selectionEnd)
    }

    constructor (c: Control)
      ensures View() == c && events == []
    {
      kind, value, selectionStart, selectionEnd, events := c.kind, c.value, c.start, c.end, [];
    }

    method Fire(es: seq<Event>)
      modifies this`events
      ensures events == old(events) + es
    {
      events := events + es;
    }

    method SetStart(pos: int)
      modifies this`value, this`selectionStart, this`selectionEnd
      ensures View() == SetSelectionStart(old(View()), pos)
    {
      var given: nat := pos % UINT32;
      var end := if selectionEnd < given then given else selectionEnd;
      Select(given, end);
    }

    method SetEnd(pos: int)
      modifies this`value, this`selectionStart, this`selectionEnd
      ensures View() == SetSelectionEnd(old(View()), pos)
    {
      Select(selectionStart, pos % UINT32);
    }

    method Select(start: nat, end: nat)
      modifies this`value, this`selectionStart, this`selectionEnd
      ensures View() == SetRange(old(View()), start, end)
    {
      selectionEnd := if end > |value| then |value| else end;
      selectionStart := if start > |value| then |value| else start;
      if selectionEnd <= selectionStart {
        selectionStart := selectionEnd;
      }
    }

    method Assign(text: string)
      modifies this`value, this`selectionStart, this`selectionEnd
      ensures View() == SetValue(old(View()), text)
    {
      var v := Sanitize(kind, text);
      if v != value {
        value, selectionStart, selectionEnd := v, |v|, |v|;
      }
    }

    method SetCursorPosition(pos: int)
      modifies this`value, this`selectionStart, this`selectionEnd
      ensures View() == SetSelectionEnd(SetSelectionStart(old(View()), pos), pos)
    {
      SetStart(pos);
      SetEnd(pos);
    }

    method ReplaceSelection(text: string)
      requires selectionStart <= selectionEnd <= |value|
      modifies this`value, this`selectionStart, this`selectionEnd
      ensures View() == SetText(old(View()), text)
    {
      var oldStart := selectionStart;
      var before, after := value[..oldStart], value[selectionEnd..];
      Assign(before + text + after);
      SetStart(oldStart);
      SetEnd(oldStart + |text|);
    }
  }
}
