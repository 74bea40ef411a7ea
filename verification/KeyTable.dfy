/**
 * The keys of the virtual keyboard and the table from characters to keys that their construction
 * fills in: which key, and with or without Shift, types a given character.
 */
module KeyTable {
  import opened Sequences

  /**
   * A key object: its code and what it types without and with Shift. Keys are compared by identity:
   * the module's own keys have `copy` 0 and differ in their codes, while objects rebuilt from a
   * reported keyboard state are copies 1, 2, ... and equal to none of them.
   */
  datatype Key = Key(code: Option<int>, character: Option<char>, shiftChar: Option<char>, copy: nat)

  /** One call of `newKey`: the arguments as given, before the constructor's defaults. */
  datatype Registration = Registration(code: Option<int>, plain: Option<char>, shiftChar: Option<char>)

  datatype Binding = Binding(key: Key, shift: bool)

  function MakeKey(r: Registration): Key
  {
    Key(r.code, r.plain, if r.shiftChar.Some? then r.shiftChar else r.plain, 0)
  }

  /** What pressing `key` types. */
  function Typed(key: Key, shift: bool): Option<char>
  {
    if shift then key.shiftChar else key.character
  }

  function Register(m: map<char, Binding>, r: Registration): map<char, Binding>
  {
    if r.plain.Some? && (r.plain.value !in m || r.shiftChar.Some?) then
      var m' := m[r.plain.value := Binding(MakeKey(r), false)];
      if r.shiftChar.Some? then m'[r.shiftChar.value := Binding(MakeKey(r), true)] else m'
    else
      m
  }

  function Table(rs: seq<Registration>): map<char, Binding>
  {
    if rs == [] then map[] else Register(Table(rs[..|rs| - 1]), rs[|rs| - 1])
  }

  /** `CHAR_TO_KEY`, filled in place by `newKey`. */
  class CharToKey {
    var bindings: map<char, Binding>
    ghost var registered: seq<Registration>

    ghost predicate Valid()
      reads this
    {
      bindings == Table(registered)
    }

    constructor ()
      ensures Valid() && registered == []
    {
      bindings, registered := map[], [];
    }

    method NewKey(r: Registration) returns (key: Key)
      requires Valid()
      modifies this
      ensures Valid() && registered == old(registered) + [r]
      ensures key == MakeKey(r)
    {
      key := Key(r.code, r.plain, if r.shiftChar.Some? then r.shiftChar else r.plain, 0);
      if r.plain.Some? && (r.plain.value !in bindings || r.shiftChar.Some?) {
        bindings := bindings[r.plain.value := Binding(key, false)];
        if r.shiftChar.Some? {
          bindings := bindings[r.shiftChar.value := Binding(key, true)];
        }
      }
      registered := registered + [r];
      assert registered[..|registered| - 1] == old(registered);
    }
  }

  // ---------------------------------------------------------------------------------------------
  // Any keyboard
  // ---------------------------------------------------------------------------------------------

  /** Every entry, for any sequence of registrations: its key types its own character. */
  lemma {:induction false} EveryEntryTypesItsCharacter(rs: seq<Registration>, ch: char)
    requires ch in Table(rs)
    ensures Typed(Table(rs)[ch].key, Table(rs)[ch].shift) == Some(ch)
  {
    var m, r := Table(rs[..|rs| - 1]), rs[|rs| - 1];
    if ch in m && Table(rs)[ch] == m[ch] {
      EveryEntryTypesItsCharacter(rs[..|rs| - 1], ch);
    }
  }

  /** `r` types `ch` and has a shift character of its own. */
  predicate Mentions(r: Registration, ch: char)
  {
    r.plain.Some? && r.shiftChar.Some? && (r.plain.value == ch || r.shiftChar.value == ch)
  }

  predicate Bare(r: Registration, ch: char)
  {
    r.plain == Some(ch) && r.shiftChar.None?
  }

  /** What the table says of `ch` without running it: the last two-character key, else the first bare one. */
  function Winner(rs: seq<Registration>, ch: char): Option<Binding>
  {
    if exists i :: 0 <= i < |rs| && Mentions(rs[i], ch) then
      LastMention(rs, ch)
    else
      FirstBare(rs, ch)
  }

  function LastMention(rs: seq<Registration>, ch: char): Option<Binding>
  {
    if rs == [] then None
    else
      var r := rs[|rs| - 1];
      if Mentions(r, ch) then Some(Binding(MakeKey(r), r.shiftChar == Some(ch)))
      else LastMention(rs[..|rs| - 1], ch)
  }

  function FirstBare(rs: seq<Registration>, ch: char): Option<Binding>
  {
    if rs == [] then None
    else if Bare(rs[0], ch) then Some(Binding(MakeKey(rs[0]), false))
    else FirstBare(rs[1..], ch)
  }

  lemma {:induction false} FirstBareAppend(rs: seq<Registration>, r: Registration, ch: char)
    ensures FirstBare(rs + [r], ch)
         == if FirstBare(rs, ch).Some? then FirstBare(rs, ch) else FirstBare([r], ch)
  {
    if rs == [] {
      assert rs + [r] == [r];
    } else {
      FirstBareAppend(rs[1..], r, ch);
      assert (rs + [r])[1..] == rs[1..] + [r];
    }
  }

  lemma {:induction false} LastMentionExists(rs: seq<Registration>, ch: char)
    ensures LastMention(rs, ch).Some? <==> exists i :: 0 <= i < |rs| && Mentions(rs[i], ch)
  {
    if rs != [] && !Mentions(rs[|rs| - 1], ch) {
      LastMentionExists(rs[..|rs| - 1], ch);
      assert forall i :: 0 <= i < |rs| - 1 ==> rs[..|rs| - 1][i] == rs[i];
    }
  }

  /** The table against its independent reading, for every character and sequence of registrations. */
  lemma {:induction false} TableIsTheWinner(rs: seq<Registration>, ch: char)
    ensures Winner(rs, ch) == if ch in Table(rs) then Some(Table(rs)[ch]) else None
  {
    LastMentionExists(rs, ch);
    if rs != [] {
      var t, r := rs[..|rs| - 1], rs[|rs| - 1];
      TableIsTheWinner(t, ch);
      LastMentionExists(t, ch);
      FirstBareAppend(t, r, ch);
      assert rs == t + [r];
    }
  }

  // ---------------------------------------------------------------------------------------------
  // The keyboard of this module
  // ---------------------------------------------------------------------------------------------

  const SPACE := [Registration(Some(32), Some(' '), None)]

  const DIGITS := [
    Registration(Some(48), Some('0'), Some(')')), Registration(Some(49), Some('1'), Some('!')),
    Registration(Some(50), Some('2'), Some('@')), Registration(Some(51), Some('3'), Some('#')),
    Registration(Some(52), Some('4'), Some('$')), Registration(Some(53), Some('5'), Some('%')),
    Registration(Some(54), Some('6'), Some('^')), Registration(Some(55), Some('7'), Some('&')),
    Registration(Some(56), Some('8'), Some('*')), Registration(Some(57), Some('9'), Some('('))]

  function Letter(i: nat): Registration
    requires i < 26
  {
    Registration(Some(65 + i), Some(('a' as int + i) as char), Some(('A' as int + i) as char))
  }

  function Letters(): (r: seq<Registration>)
    ensures |r| == 26 && forall i :: 0 <= i < 26 ==> r[i] == Letter(i)
  {
    seq(26, i requires 0 <= i < 26 => Letter(i))
  }

  const NUMPAD := [
    Registration(Some(96), Some('0'), None), Registration(Some(97), Some('1'), None),
    Registration(Some(98), Some('2'), None), Registration(Some(99), Some('3'), None),
    Registration(Some(100), Some('4'), None), Registration(Some(101), Some('5'), None),
    Registration(Some(102), Some('6'), None), Registration(Some(103), Some('7'), None),
    Registration(Some(104), Some('8'), None), Registration(Some(105), Some('9'), None),
    Registration(Some(106), Some('*'), None), Registration(Some(107), Some('+'), None),
    Registration(Some(109), Some('-'), None), Registration(Some(110), Some('.'), None),
    Registration(Some(111), Some('/'), None)]

  const PUNCTUATION := [
    Registration(Some(187), Some('='), Some('+')), Registration(Some(108), Some(','), None),
    Registration(Some(189), Some('-'), Some('_')), Registration(Some(188), Some(','), Some('<')),
    Registration(Some(190), Some('.'), Some('>')), Registration(Some(191), Some('/'), Some('?')),
    Registration(Some(192), Some('`'), Some('~')), Registration(Some(219), Some('['), Some('{')),
    Registration(Some(220), Some('\\'), Some('|')), Registration(Some(221), Some(']'), Some('}')),
    Registration(Some(186), Some(';'), Some(':')), Registration(Some(222), Some('\''), Some('"'))]

  /** The character keys in the order of the source; keys without a character never enter the table. */
  const KEYS: seq<Registration> := SPACE + DIGITS + Letters() + NUMPAD + PUNCTUATION

  /** The table the module is left with once all its keys are made. */
  function CharacterTable(): map<char, Binding> { Table(KEYS) }

  predicate HasKey(ch: char) { ch in CharacterTable() }

  predicate Printable(ch: char) { ' ' <= ch <= '~' }

  predicate OnNumpad(key: Key)
  {
    key.code.Some? && 96 <= key.code.value <= 111
  }

  lemma PartOfKeyboard(r: Registration)
    ensures r in KEYS <==> r in SPACE || r in DIGITS || r in Letters() || r in NUMPAD || r in PUNCTUATION
  {
  }

  /** A two-character key at index `i` of `rs`, a part of the keyboard, settles the fate of `ch`. */
  lemma MentionedInKeys(rs: seq<Registration>, i: nat, ch: char)
    requires i < |rs| && Mentions(rs[i], ch)
    requires rs == DIGITS || rs == Letters() || rs == PUNCTUATION
    ensures ch in Table(KEYS) && LastMention(KEYS, ch).Some?
  {
    assert rs[i] in rs;
    PartOfKeyboard(rs[i]);
    var k :| 0 <= k < |KEYS| && KEYS[k] == rs[i];
    LastMentionExists(KEYS, ch);
    TableIsTheWinner(KEYS, ch);
  }

  lemma DigitsAreKnown(ch: char)
    requires ch in "0123456789)!@#$%^&*("
    ensures ch in Table(KEYS) && LastMention(KEYS, ch).Some?
  {
    var s := "0123456789)!@#$%^&*(";
    var i :| 0 <= i < |s| && s[i] == ch;
    var j := if i < 10 then i else i - 10;
    assert Mentions(DIGITS[j], ch);
    MentionedInKeys(DIGITS, j, ch);
  }

  const PLAIN_MARKS := "=#-,./`[\\];'"
  const SHIFTED_MARKS := "+#_<>?~{|}:\""

  lemma PunctuationIsKnown(ch: char)
    requires ch in "=-,./`[\\];'" || ch in "+_<>?~{|}:\""
    ensures ch in Table(KEYS) && LastMention(KEYS, ch).Some?
  {
    if ch in "=-,./`[\\];'" {
      assert ch in PLAIN_MARKS && ch != '#';
      var j :| 0 <= j < 12 && PLAIN_MARKS[j] == ch;
      assert Mentions(PUNCTUATION[j], ch);
      MentionedInKeys(PUNCTUATION, j, ch);
    } else {
      assert ch in SHIFTED_MARKS && ch != '#';
      var j :| 0 <= j < 12 && SHIFTED_MARKS[j] == ch;
      assert Mentions(PUNCTUATION[j], ch);
      MentionedInKeys(PUNCTUATION, j, ch);
    }
  }

  lemma LettersAreKnown(ch: char)
    requires 'a' <= ch <= 'z' || 'A' <= ch <= 'Z'
    ensures ch in Table(KEYS) && LastMention(KEYS, ch).Some?
  {
    var i := if 'a' <= ch then (ch - 'a') as int else (ch - 'A') as int;
    assert Mentions(Letters()[i], ch);
    MentionedInKeys(Letters(), i, ch);
  }

  /** Every printable ASCII character has a key. */
  lemma PrintableIsKnown(ch: char)
    requires Printable(ch)
    ensures ch in Table(KEYS)
  {
    if ch == ' ' {
      assert KEYS[0] == Registration(Some(32), Some(' '), None);
      FirstBareOf(KEYS, 0, ch);
      TableIsTheWinner(KEYS, ch);
      LastMentionExists(KEYS, ch);
    } else if 'a' <= ch <= 'z' || 'A' <= ch <= 'Z' {
      LettersAreKnown(ch);
    } else if ch in "0123456789)!@#$%^&*(" {
      DigitsAreKnown(ch);
    } else {
      PunctuationIsKnown(ch);
    }
  }

  lemma {:induction false} FirstBareOf(rs: seq<Registration>, i: nat, ch: char)
    requires i < |rs| && Bare(rs[i], ch)
    ensures FirstBare(rs, ch).Some?
  {
    if i > 0 && !Bare(rs[0], ch) {
      FirstBareOf(rs[1..], i - 1, ch);
    }
  }

  lemma {:induction false} LastMentionIsRegistered(rs: seq<Registration>, ch: char)
    requires LastMention(rs, ch).Some?
    ensures exists r :: r in rs && Mentions(r, ch) && LastMention(rs, ch).value.key == MakeKey(r)
  {
    if Mentions(rs[|rs| - 1], ch) {
      assert rs[|rs| - 1] in rs;
    } else {
      LastMentionIsRegistered(rs[..|rs| - 1], ch);
      var r :| r in rs[..|rs| - 1] && Mentions(r, ch) && LastMention(rs, ch).value.key == MakeKey(r);
      assert r in rs;
    }
  }

  lemma {:induction false} FirstBareIsRegistered(rs: seq<Registration>, ch: char)
    requires FirstBare(rs, ch).Some?
    ensures exists r :: r in rs && Bare(r, ch) && FirstBare(rs, ch).value.key == MakeKey(r)
  {
    if Bare(rs[0], ch) {
      assert rs[0] in rs;
    } else {
      FirstBareIsRegistered(rs[1..], ch);
      var r :| r in rs[1..] && Bare(r, ch) && FirstBare(rs, ch).value.key == MakeKey(r);
      assert r in rs;
    }
  }

  lemma ShiftedIsOffNumpad(r: Registration)
    requires r in KEYS && r.shiftChar.Some?
    ensures !OnNumpad(MakeKey(r))
  {
  }

  lemma BareIsSpaceOrHasASymbol(r: Registration, ch: char)
    requires r in KEYS && Bare(r, ch)
    ensures ch == ' ' || LastMention(KEYS, ch).Some?
  {
    PartOfKeyboard(r);
    if r in NUMPAD {
      assert ch in "0123456789*" || ch in "+-./";
      if ch in "0123456789*" {
        DigitsAreKnown(ch);
      } else {
        PunctuationIsKnown(ch);
      }
    } else if r in PUNCTUATION {
      assert ch == ',';
      PunctuationIsKnown(ch);
    }
  }

  lemma BareSpaceIsTheSpaceBar(r: Registration)
    requires r in KEYS && Bare(r, ' ')
    ensures !OnNumpad(MakeKey(r))
  {
  }

  /** A symbol key is always preferred: no character leads to the numeric pad. */
  lemma NeverANumpadKey(ch: char)
    requires ch in Table(KEYS)
    ensures !OnNumpad(Table(KEYS)[ch].key)
  {
    TableIsTheWinner(KEYS, ch);
    LastMentionExists(KEYS, ch);
    if LastMention(KEYS, ch).Some? {
      LastMentionIsRegistered(KEYS, ch);
      var r :| r in KEYS && Mentions(r, ch) && LastMention(KEYS, ch).value.key == MakeKey(r);
      ShiftedIsOffNumpad(r);
    } else {
      FirstBareIsRegistered(KEYS, ch);
      var r :| r in KEYS && Bare(r, ch) && FirstBare(KEYS, ch).value.key == MakeKey(r);
      BareIsSpaceOrHasASymbol(r, ch);
      BareSpaceIsTheSpaceBar(r);
    }
  }

  lemma RegisteredIsPrintable(r: Registration)
    requires r in KEYS
    ensures r.code.Some? && r.plain.Some? && Printable(r.plain.value)
    ensures r.shiftChar.Some? ==> Printable(r.shiftChar.value)
  {
    PartOfKeyboard(r);
  }

  /** Every key of the table has a code, and types something printable with Shift and without. */
  lemma TableKeysArePrintable(ch: char)
    requires ch in Table(KEYS)
    ensures var key := Table(KEYS)[ch].key;
      && key.code.Some? && key.character.Some? && key.shiftChar.Some?
      && Printable(key.character.value) && Printable(key.shiftChar.value)
  {
    TableIsTheWinner(KEYS, ch);
    LastMentionExists(KEYS, ch);
    if LastMention(KEYS, ch).Some? {
      LastMentionIsRegistered(KEYS, ch);
      var r :| r in KEYS && Mentions(r, ch) && LastMention(KEYS, ch).value.key == MakeKey(r);
      RegisteredIsPrintable(r);
    } else {
      FirstBareIsRegistered(KEYS, ch);
      var r :| r in KEYS && Bare(r, ch) && FirstBare(KEYS, ch).value.key == MakeKey(r);
      RegisteredIsPrintable(r);
    }
  }
}
