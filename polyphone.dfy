/** fix-polyphone-sfz.py: the conversion of an SFZ note name such as `c#4`
    into a MIDI key number, and the replacement of one matched
    `opcode=note` pair by `opcode=key`. */
module PolyphoneKeys {
  import opened Results
  import opened Text
  import NoteNames

  /** `SFZ_NOTE_LETTER_OFFSET` (fix-polyphone-sfz.py:10): semitones above C. */
  const LETTER_OFFSET: map<char, int> := map['a' := 9, 'b' := 11, 'c' := 0, 'd' := 2, 'e' := 4, 'f' := 5, 'g' := 7]

  const SHARP_SIGN: char := '\U{266F}'
  const FLAT_SIGN: char := '\U{266D}'

  /** The exceptions the conversion can raise: an empty name, a last
      character that is not a digit, a letter outside the table. */
  datatype KeyError = IndexError | ValueError | LetterError

  /** The accidental found in `s`: a sharp sign anywhere wins, otherwise a
      flat sign or the letter `b` anywhere lowers by one. */
  function Accidental(s: string): (a: int)
    ensures a == 1 <==> '#' in s || SHARP_SIGN in s
    ensures a == -1 <==> !('#' in s || SHARP_SIGN in s) && ('b' in s || FLAT_SIGN in s)
    ensures a == 0 <==> !('#' in s || SHARP_SIGN in s || 'b' in s || FLAT_SIGN in s)
  {
    if '#' in s || SHARP_SIGN in s then 1
    else if 'b' in s || FLAT_SIGN in s then -1
    else 0
  }

  /** `max(0, min(127, x))`: the MIDI key range. */
  function Clamp(x: int): (k: int)
    ensures 0 <= k <= 127
    ensures 0 <= x <= 127 ==> k == x
    ensures x < 0 ==> k == 0
    ensures x > 127 ==> k == 127
  {
    if x < 0 then 0 else if x > 127 then 127 else x
  }

  /** `sfz_note_to_midi_key` as written (fix-polyphone-sfz.py:13-23). The
      accidental is looked for in the whole name, its letter included, so
      a lower-case `b` counts as a flat. */
  function SfzNoteToMidiKeyAsWritten(note: string): (r: Result<int, KeyError>)
    ensures r.Ok? ==> 0 <= r.value <= 127
  {
    if note == [] then Err(IndexError)
    else if !IsDigit(note[|note| - 1]) then Err(ValueError)
    else if LowerChar(note[0]) !in LETTER_OFFSET then Err(LetterError)
    else Ok(Clamp(LETTER_OFFSET[LowerChar(note[0])] + (DigitValue(note[|note| - 1]) + 1) * 12 + Accidental(note)))
  }

  /** The conversion as intended: the accidental is looked for after the
      letter only. */
  function SfzNoteToMidiKey(note: string): (r: Result<int, KeyError>)
    ensures r.Ok? ==> 0 <= r.value <= 127
  {
    if note == [] then Err(IndexError)
    else if !IsDigit(note[|note| - 1]) then Err(ValueError)
    else if LowerChar(note[0]) !in LETTER_OFFSET then Err(LetterError)
    else Ok(Clamp(LETTER_OFFSET[LowerChar(note[0])] + (DigitValue(note[|note| - 1]) + 1) * 12 + Accidental(note[1..])))
  }

  /** The failures, in the order Python meets them: an empty name has no
      first character, a last character that is not a digit is no octave,
      and a letter outside `a`..`g` (the regex also admits `h`) has no
      offset. Both versions fail alike. */
  lemma KeyErrors(note: string)
    ensures SfzNoteToMidiKey(note).Err? <==> SfzNoteToMidiKeyAsWritten(note).Err?
    ensures SfzNoteToMidiKey(note) == Err(IndexError) <==> note == []
    ensures SfzNoteToMidiKey(note) == Err(ValueError) <==> note != [] && !IsDigit(note[|note| - 1])
    ensures SfzNoteToMidiKey(note) == Err(LetterError)
        <==> note != [] && IsDigit(note[|note| - 1]) && LowerChar(note[0]) !in "abcdefg"
  {
  }

  /** The note names `h` and `H` are refused. */
  lemma GermanHRefused(d: nat)
    requires d < 10
    ensures SfzNoteToMidiKeyAsWritten(['h', DigitChar(d)]) == Err(LetterError)
    ensures SfzNoteToMidiKeyAsWritten(['H', DigitChar(d)]) == Err(LetterError)
  {
  }

  /** Only the last character is the octave: digits before it are
      ignored, so `c10` converts like `c0`. */
  lemma InnerDigitIgnored(s: string, e: nat, d: nat)
    requires s != [] && e < 10 && d < 10
    ensures SfzNoteToMidiKeyAsWritten(s + [DigitChar(e), DigitChar(d)]) == SfzNoteToMidiKeyAsWritten(s + [DigitChar(d)])
    ensures SfzNoteToMidiKey(s + [DigitChar(e), DigitChar(d)]) == SfzNoteToMidiKey(s + [DigitChar(d)])
  {
    var long := s + [DigitChar(e), DigitChar(d)];
    var short := s + [DigitChar(d)];
    assert long[0] == short[0] == s[0];
    assert long == short[..|s|] + [DigitChar(e)] + [DigitChar(d)];
    AccidentalOfDigit(short, DigitChar(e), |s|);
    assert long[1..] == short[1..|s|] + [DigitChar(e)] + [DigitChar(d)];
    AccidentalOfDigit(short[1..], DigitChar(e), |s| - 1);
  }

  /** Putting a digit into a name does not change its accidental. */
  lemma AccidentalOfDigit(s: string, c: char, k: nat)
    requires IsDigit(c) && k <= |s|
    ensures Accidental(s[..k] + [c] + s[k..]) == Accidental(s)
  {
    var t := s[..k] + [c] + s[k..];
    forall x | x in t && x != c ensures x in s {
      var i :| 0 <= i < |t| && t[i] == x;
      if i < k { assert s[i] == x; } else { assert s[i - 1] == x; }
    }
    forall x | x in s ensures x in t {
      var i :| 0 <= i < |s| && s[i] == x;
      if i < k { assert t[i] == x; } else { assert t[i + 1] == x; }
    }
  }

  /** A natural note: its letter's offset plus twelve per octave counted
      from octave -1, in either case of the letter, limited to 127. */
  lemma NaturalNote(c: char, d: nat)
    requires LowerChar(c) in "abcdefg" && d < 10
    ensures SfzNoteToMidiKey([c, DigitChar(d)]) == Ok(Clamp(LETTER_OFFSET[LowerChar(c)] + 12 * (d + 1)))
  {
    assert [c, DigitChar(d)][1..] == [DigitChar(d)];
  }

  /** As written, the same holds for every letter but a lower-case `b`. */
  lemma NaturalNoteAsWritten(c: char, d: nat)
    requires LowerChar(c) in "abcdefg" && c != 'b' && d < 10
    ensures SfzNoteToMidiKeyAsWritten([c, DigitChar(d)]) == Ok(Clamp(LETTER_OFFSET[LowerChar(c)] + 12 * (d + 1)))
  {
  }

  /** A sharp, written `#` or `♯`, raises the key by one and a flat sign
      lowers it by one, before the limit is applied. */
  lemma SignedAccidentals(c: char, d: nat)
    requires LowerChar(c) in "acdefg" && d < 10
    ensures SfzNoteToMidiKey([c, '#', DigitChar(d)]) == Ok(Clamp(LETTER_OFFSET[LowerChar(c)] + 12 * (d + 1) + 1))
    ensures SfzNoteToMidiKey([c, SHARP_SIGN, DigitChar(d)]) == SfzNoteToMidiKey([c, '#', DigitChar(d)])
    ensures SfzNoteToMidiKey([c, FLAT_SIGN, DigitChar(d)]) == Ok(Clamp(LETTER_OFFSET[LowerChar(c)] + 12 * (d + 1) - 1))
    ensures SfzNoteToMidiKey([c, 'b', DigitChar(d)]) == SfzNoteToMidiKey([c, FLAT_SIGN, DigitChar(d)])
  {
    assert [c, '#', DigitChar(d)][1..] == ['#', DigitChar(d)];
    assert [c, SHARP_SIGN, DigitChar(d)][1..] == [SHARP_SIGN, DigitChar(d)];
    assert [c, FLAT_SIGN, DigitChar(d)][1..] == [FLAT_SIGN, DigitChar(d)];
    assert [c, 'b', DigitChar(d)][1..] == ['b', DigitChar(d)];
  }

  /** A sharp anywhere wins over a flat, in both versions. */
  lemma SharpWins(note: string)
    requires SfzNoteToMidiKeyAsWritten(note).Ok? && '#' in note
    ensures SfzNoteToMidiKeyAsWritten(note)
         == Ok(Clamp(LETTER_OFFSET[LowerChar(note[0])] + (DigitValue(note[|note| - 1]) + 1) * 12 + 1))
  {
  }

  /** As written, the natural note `b` is read as B flat: `b4` gives 70
      while `B4` gives 71. Read after the letter, both give 71. */
  lemma LowerCaseBIsFlat(d: nat)
    requires d < 10
    ensures SfzNoteToMidiKeyAsWritten(['b', DigitChar(d)]) == Ok(Clamp(11 + 12 * (d + 1) - 1))
    ensures SfzNoteToMidiKeyAsWritten(['B', DigitChar(d)]) == Ok(Clamp(11 + 12 * (d + 1)))
    ensures SfzNoteToMidiKey(['b', DigitChar(d)]) == SfzNoteToMidiKey(['B', DigitChar(d)])
         == Ok(Clamp(11 + 12 * (d + 1)))
  {
    assert 'b' in ['b', DigitChar(d)];
    assert ['b', DigitChar(d)][1..] == [DigitChar(d)];
    assert ['B', DigitChar(d)][1..] == [DigitChar(d)];
  }

  /** The two versions differ only where the letter itself is a
      lower-case `b` and no sharp sign follows. */
  lemma VersionsAgree(note: string)
    requires note == [] || note[0] != 'b'
    ensures SfzNoteToMidiKeyAsWritten(note) == SfzNoteToMidiKey(note)
  {
    if note != [] && LowerChar(note[0]) in LETTER_OFFSET {
      AccidentalOfHead(note);
    }
  }

  /** A first character that is no accidental sign and no `b` does not
      change the accidental. */
  lemma AccidentalOfHead(s: string)
    requires s != [] && s[0] !in ['#', SHARP_SIGN, 'b', FLAT_SIGN]
    ensures Accidental(s) == Accidental(s[1..])
  {
    forall x | x in s && x != s[0] ensures x in s[1..] {
      var i :| 0 <= i < |s| && s[i] == x;
      assert s[1..][i - 1] == x;
    }
  }

  /** The offset table agrees with the pitch classes of makesfz.py's note
      names: a letter has an offset exactly when it has an index there, and
      the two are equal. */
  lemma OffsetsAgree(c: char)
    ensures c in LETTER_OFFSET <==> NoteNames.LetterIndex(c).Some?
    ensures c in LETTER_OFFSET ==> LETTER_OFFSET[c] == NoteNames.LetterIndex(c).value
  {
  }

  /** For a natural note the two scripts agree, once makesfz.py counts
      octaves from -1 as MIDI does: the key is `note_name_to_number` with
      base octave -1, limited to 127. */
  lemma AgreesWithNoteNumber(c: char, d: nat)
    requires c in "abcdefg" && d < 10
    ensures NoteNames.NoteNameToNumber([c, DigitChar(d)], -1).Ok?
    ensures SfzNoteToMidiKey([c, DigitChar(d)]) == Ok(Clamp(NoteNames.NoteNameToNumber([c, DigitChar(d)], -1).value))
  {
    NaturalPitch(c);
    NoteNames.NumberOfName([c], d, -1);
    assert [c] + [DigitChar(d)] == [c, DigitChar(d)];
    NaturalNote(c, d);
  }

  /** A single letter of makesfz.py's note names, as `note_name_to_number`
      sees it. */
  lemma NaturalPitch(c: char)
    requires c in "abcdefg"
    ensures [c] != [] && !IsSpace([c][0]) && Lower([c]) == [c]
    ensures NoteNames.PitchIndex([c]) == Ok(LETTER_OFFSET[c])
  {
    NoteNames.LetterIndexDomain(c);
    assert Lower([c])[0] == LowerChar(c) == c;
  }

  /** A regex match of `(opcode)=(note)`; the note group may be absent. */
  datatype Match = Match(whole: string, opcode: string, noteName: Option<string>)

  /** `replace_key` (fix-polyphone-sfz.py:26-33): the opcode, `=` and the
      decimal key number when a note was matched, otherwise the match
      unchanged. The key comes from the conversion as written, so a
      lower-case `b` note is written one key low. */
  function ReplaceKey(m: Match): Result<string, KeyError> {
    if m.noteName.Some? then
      var key :- SfzNoteToMidiKeyAsWritten(m.noteName.value);
      Ok(m.opcode + "=" + DecimalString(key))
    else Ok(m.whole)
  }

  /** The replacement reads back: it is the opcode, `=`, and digits whose
      value is the key of the note. Without a note the match is kept, and a
      note that does not convert fails the same way. */
  lemma ReplaceKeyReadsBack(m: Match)
    ensures m.noteName.None? ==> ReplaceKey(m) == Ok(m.whole)
    ensures m.noteName.Some? && SfzNoteToMidiKeyAsWritten(m.noteName.value).Err? ==>
      ReplaceKey(m) == Err(SfzNoteToMidiKeyAsWritten(m.noteName.value).error)
    ensures m.noteName.Some? && SfzNoteToMidiKeyAsWritten(m.noteName.value).Ok? ==>
      var r := ReplaceKey(m).value;
      var n := |m.opcode| + 1;
      && |r| > n && r[..n] == m.opcode + "="
      && (forall i | n <= i < |r| :: IsDigit(r[i]))
      && DecimalValue(r[n..]) == SfzNoteToMidiKeyAsWritten(m.noteName.value).value
  {
    if m.noteName.Some? && SfzNoteToMidiKeyAsWritten(m.noteName.value).Ok? {
      var key := SfzNoteToMidiKeyAsWritten(m.noteName.value).value;
      var r := ReplaceKey(m).value;
      var n := |m.opcode| + 1;
      assert r == (m.opcode + "=") + DecimalString(key);
      assert r[n..] == DecimalString(key);
      DecimalRoundTrip(key);
    }
  }

  /** Only a note starting with lower-case `b` is rewritten differently from
      what the corrected conversion gives; `b4` becomes key 70 rather than
      71. */
  lemma ReplaceKeyAgreesExceptLowerB(m: Match, d: nat)
    requires d < 10
    ensures m.noteName.Some? && (m.noteName.value == [] || m.noteName.value[0] != 'b') ==>
      ReplaceKey(m) == (var key :- SfzNoteToMidiKey(m.noteName.value);
                        Ok(m.opcode + "=" + DecimalString(key)))
    ensures m.noteName == Some(['b', DigitChar(d)]) ==>
      ReplaceKey(m) == Ok(m.opcode + "=" + DecimalString(Clamp(11 + 12 * (d + 1) - 1)))
  {
    if m.noteName.Some? && (m.noteName.value == [] || m.noteName.value[0] != 'b') {
      VersionsAgree(m.noteName.value);
    }
    LowerCaseBIsFlat(d);
  }
}
