/** Note-name arithmetic of makesfz.py: the twelve pitch names, accidental
    normalisation, note name to MIDI number, and the German spelling fallback
    used when a sample carries no root note. */
module NoteNames {
  import opened Results
  import opened Text

  /** The twelve pitch names, sharps only (makesfz.py:62). */
  const NOTES: seq<string> := ["c", "c#", "d", "d#", "e", "f", "f#", "g", "g#", "a", "a#", "b"]

  /** The exceptions the conversion can raise. */
  datatype NoteError =
    | IndexError     // indexing an empty name
    | ValueError     // `NOTES.index` of something that is not a pitch name
    | UnboundOctave  // reading `octave` when no digit ever assigned it

  /** The position in NOTES of the one-letter pitch name `[c]`. */
  function LetterIndex(c: char): (r: Option<nat>)
    ensures r.Some? ==> r.value < 12
  {
    if c == 'c' then Some(0)
    else if c == 'd' then Some(2)
    else if c == 'e' then Some(4)
    else if c == 'f' then Some(5)
    else if c == 'g' then Some(7)
    else if c == 'a' then Some(9)
    else if c == 'b' then Some(11)
    else None
  }

  /** The seven letters are exactly the characters with an index. */
  lemma LetterIndexDomain(c: char)
    ensures LetterIndex(c).Some? <==> c in "cdefgab"
    ensures LetterIndex(c).Some? ==> NOTES[LetterIndex(c).value] == [c]
  {
    if c in "cdefgab" {
      var k :| 0 <= k < 7 && "cdefgab"[k] == c;
      assert k in {0, 1, 2, 3, 4, 5, 6};
    }
  }

  /** `NOTES.index(x)`, or None where Python raises ValueError. */
  function IndexOf(x: string): (r: Option<nat>)
    ensures r.Some? ==> r.value < 12
  {
    if |x| == 1 then LetterIndex(x[0])
    else if |x| == 2 && x[1] == '#' && LetterIndex(x[0]).Some? && x[0] != 'e' && x[0] != 'b' then
      Some(LetterIndex(x[0]).value + 1)
    else None
  }

  /** `NOTES.index` finds each pitch name where it is. */
  lemma IndexOfNote(k: nat)
    requires k < 12
    ensures IndexOf(NOTES[k]) == Some(k)
  {
    assert k in {0, 1, 2, 3, 4, 5, 6, 7, 8, 9, 10, 11};
  }

  /** `IndexOf` is the inverse of indexing NOTES: it finds `k` exactly when
      the k-th pitch name is `x`, and nothing for a name outside NOTES. */
  lemma IndexOfSpec(x: string, k: nat)
    requires k < 12
    ensures IndexOf(x) == Some(k) <==> NOTES[k] == x
    ensures IndexOf(x).None? <==> x !in NOTES
  {
    IndexOfNote(k);
    if IndexOf(x).Some? {
      var j := IndexOf(x).value;
      LetterIndexDomain(x[0]);
      assert NOTES[j] == x by {
        if |x| == 2 {
          assert x[0] in "cdfga" by { assert x[0] in "cdefgab"; }
          assert x == [x[0]] + "#";
        }
      }
    }
    if x in NOTES {
      var j :| 0 <= j < 12 && NOTES[j] == x;
      IndexOfNote(j);
    }
  }

  /** The step one accidental character makes: `#` up, `b` down, anything
      else nothing. */
  function Step(c: char): int {
    if c == '#' then 1 else if c == 'b' then -1 else 0
  }

  /** The total step of the characters after the letter. */
  function Shift(rest: string): int {
    if rest == [] then 0 else Shift(rest[..|rest| - 1]) + Step(rest[|rest| - 1])
  }

  /** Appending one character to the accidentals adds its step. */
  lemma ShiftLast(s: string, c: char)
    ensures Shift(s + [c]) == Shift(s) + Step(c)
  {
    assert (s + [c])[..|s|] == s;
  }

  /** The position in NOTES that `normalize_note` ends at. */
  function NormalIndex(letter: nat, rest: string): nat {
    (letter + Shift(rest)) % 12
  }

  /** `normalize_note` (makesfz.py:79-93): the pitch name reached from the
      first letter by the accidentals that follow it, modulo 12. */
  function Normalize(note: string): (r: Result<string, NoteError>)
    ensures note == [] ==> r == Err(IndexError)
    ensures r.Err? && note != [] ==> r.error == ValueError
  {
    if note == [] then Err(IndexError)
    else
      match IndexOf([LowerChar(note[0])])
      case None => Err(ValueError)
      case Some(i) => Ok(NOTES[NormalIndex(i, note[1..])])
  }

  /** Normalisation succeeds exactly when the first character, lower-cased,
      is one of the seven letters, and the result is then a pitch name. */
  lemma NormalizeSucceeds(note: string)
    requires note != []
    ensures Normalize(note).Ok? <==> LowerChar(note[0]) in "cdefgab"
    ensures Normalize(note).Ok? ==> Normalize(note).value in NOTES
  {
    LetterIndexDomain(LowerChar(note[0]));
  }

  /** The loop of `normalize_note`, updating `index` per character. */
  method NormalizeNote(note: string) returns (r: Result<string, NoteError>)
    ensures r == Normalize(note)
  {
    if note == [] {
      return Err(IndexError);
    }
    var start := IndexOf([LowerChar(note[0])]);
    if start.None? {
      return Err(ValueError);
    }
    var rest := note[1..];
    var index: int := start.value;
    var k := 0;
    while k < |rest|
      invariant 0 <= k <= |rest|
      invariant index == start.value + Shift(rest[..k])
    {
      assert rest[..k + 1][..k] == rest[..k];
      if rest[k] == '#' {
        index := index + 1;
      } else if rest[k] == 'b' {
        index := index - 1;
      }
      k := k + 1;
    }
    assert rest[..k] == rest;
    return Ok(NOTES[index % 12]);
  }

  /** One step up or down commutes with reduction modulo 12. */
  lemma ModTwelveStep(x: int)
    ensures (x + 1) % 12 == (x % 12 + 1) % 12
    ensures (x - 1) % 12 == (x % 12 + 11) % 12
  {
    var q := x / 12;
    var r := x % 12;
    assert x == 12 * q + r;
    if r == 11 {
      assert x + 1 == 12 * (q + 1);
    } else {
      assert x + 1 == 12 * q + (r + 1);
    }
    if r == 0 {
      assert x - 1 == 12 * (q - 1) + 11;
    } else {
      assert x - 1 == 12 * q + (r - 1);
    }
  }

  /** Where normalisation succeeds, the pitch name it returns sits at the
      index the accidentals lead to. */
  lemma NormalizedIndex(note: string)
    requires Normalize(note).Ok?
    ensures IndexOf(Normalize(note).value) == Some(NormalIndex(IndexOf([LowerChar(note[0])]).value, note[1..]))
  {
    IndexOfNote(NormalIndex(IndexOf([LowerChar(note[0])]).value, note[1..]));
  }

  /** Appending an accidental keeps the letter and adds its step. */
  lemma AppendAccidental(note: string, c: char)
    requires note != []
    ensures (note + [c])[0] == note[0]
    ensures Shift((note + [c])[1..]) == Shift(note[1..]) + Step(c)
  {
    assert (note + [c])[1..] == note[1..] + [c];
    ShiftLast(note[1..], c);
  }

  /** A sharp appended to a name moves the result one semitone up,
      wrapping from B to C. */
  lemma SharpMovesUp(note: string)
    requires Normalize(note).Ok?
    ensures Normalize(note + ['#']).Ok?
    ensures IndexOf(Normalize(note + ['#']).value).value == (IndexOf(Normalize(note).value).value + 1) % 12
  {
    AppendAccidental(note, '#');
    NormalizedIndex(note);
    NormalizedIndex(note + ['#']);
    ModTwelveStep(IndexOf([LowerChar(note[0])]).value + Shift(note[1..]));
  }

  /** A flat appended to a name moves the result one semitone down,
      wrapping from C to B. */
  lemma FlatMovesDown(note: string)
    requires Normalize(note).Ok?
    ensures Normalize(note + ['b']).Ok?
    ensures IndexOf(Normalize(note + ['b']).value).value == (IndexOf(Normalize(note).value).value + 11) % 12
  {
    AppendAccidental(note, 'b');
    NormalizedIndex(note);
    NormalizedIndex(note + ['b']);
    ModTwelveStep(IndexOf([LowerChar(note[0])]).value + Shift(note[1..]));
  }

  /** Normalising a pitch name gives it back. */
  lemma NormalizeIdempotent(k: nat)
    requires k < 12
    ensures Normalize(NOTES[k]) == Ok(NOTES[k])
  {
    var n := NOTES[k];
    IndexOfNote(k);
    assert LetterIndex(n[0]).Some?;
    assert LowerChar(n[0]) == n[0];
    assert [n[0]] == n[..1];
    if |n| == 1 {
      assert n[1..] == [];
    } else {
      assert n[1..] == [] + ['#'];
      ShiftLast([], '#');
    }
  }

  /** A name starting with a letter, seen through its index: the
      accidentals move the letter's index modulo 12. */
  lemma NormalizeIndex(note: string)
    requires note != [] && LetterIndex(LowerChar(note[0])).Some?
    ensures Normalize(note) == Ok(NOTES[NormalIndex(LetterIndex(LowerChar(note[0])).value, note[1..])])
  {
  }

  /** The documented examples of `normalize_note` (makesfz.py:82): E# is F,
      F## is G and Db is C#; and C flat wraps down to B. */
  lemma NormalizeSharpExamples()
    ensures Normalize("E#") == Ok("f")
    ensures Normalize("F##") == Ok("g")
  {
    NormalizeTwo('E', '#');
    NormalizeThree('F', '#', '#');
  }

  /** Flats step down, across the octave boundary too. */
  lemma NormalizeFlatExamples()
    ensures Normalize("Db") == Ok("c#")
    ensures Normalize("cb") == Ok("b")
  {
    NormalizeTwo('D', 'b');
    NormalizeTwo('c', 'b');
  }

  /** The total step of one or two accidentals. */
  lemma ShiftShort(c1: char, c2: char)
    ensures Shift([c1]) == Step(c1)
    ensures Shift([c1, c2]) == Step(c1) + Step(c2)
  {
    ShiftLast([], c1);
    ShiftLast([c1], c2);
    assert [] + [c1] == [c1] && [c1] + [c2] == [c1, c2];
  }

  /** A letter followed by one accidental. */
  lemma NormalizeTwo(l: char, c: char)
    requires LetterIndex(LowerChar(l)).Some?
    ensures Normalize([l, c]) == Ok(NOTES[(LetterIndex(LowerChar(l)).value + Step(c)) % 12])
  {
    ShiftShort(c, c);
    assert [l, c][1..] == [c];
    NormalizeIndex([l, c]);
  }

  /** A letter followed by two accidentals. */
  lemma NormalizeThree(l: char, c1: char, c2: char)
    requires LetterIndex(LowerChar(l)).Some?
    ensures Normalize([l, c1, c2]) == Ok(NOTES[(LetterIndex(LowerChar(l)).value + Step(c1) + Step(c2)) % 12])
  {
    ShiftShort(c1, c2);
    assert [l, c1, c2][1..] == [c1, c2];
    NormalizeIndex([l, c1, c2]);
  }

  /** The pitch index of a lower-cased name without its octave digit
      (makesfz.py:103-107): names longer than one character are normalised. */
  function PitchIndex(name: string): (r: Result<nat, NoteError>)
    ensures r.Ok? ==> r.value < 12
    ensures name == [] ==> r == Err(ValueError)
  {
    var norm :- if |name| > 1 then Normalize(name) else Ok(name);
    match IndexOf(norm)
    case None => Err(ValueError)
    case Some(i) => Ok(i)
  }

  /** A name of two or more characters is numbered by its first letter and
      the accidentals after it; any other first character is refused. */
  lemma PitchIndexLong(name: string)
    requires |name| > 1
    ensures LetterIndex(LowerChar(name[0])).None? ==> PitchIndex(name) == Err(ValueError)
    ensures LetterIndex(LowerChar(name[0])).Some? ==>
      PitchIndex(name) == Ok(NormalIndex(LetterIndex(LowerChar(name[0])).value, name[1..]))
  {
    if LetterIndex(LowerChar(name[0])).Some? {
      IndexOfNote(NormalIndex(LetterIndex(LowerChar(name[0])).value, name[1..]));
    }
  }

  /** `note_name_to_number` as written (makesfz.py:96-107): the default
      octave is assigned to a misspelt variable, so a name without a trailing
      digit never gets a number. */
  function NoteNameToNumberAsWritten(note: string, baseOctave: int): Result<int, NoteError> {
    var n := Lower(Strip(note));
    if n == [] then Err(IndexError)
    else if IsDigit(n[|n| - 1]) then WithOctaveDigit(n, baseOctave)
    else
      var _ :- PitchIndex(n);
      Err(UnboundOctave)
  }

  /** The number of a stripped, lower-cased name ending in an octave digit. */
  function WithOctaveDigit(n: string, baseOctave: int): (r: Result<int, NoteError>)
    requires n != [] && IsDigit(n[|n| - 1])
  {
    var i :- PitchIndex(n[..|n| - 1]);
    Ok(i + 12 * (DigitValue(n[|n| - 1]) - baseOctave))
  }

  /** The default octave the function evidently means to use. */
  const DEFAULT_OCTAVE: int := 4

  /** `note_name_to_number` with the default octave 4 in effect: the stripped,
      lower-cased name is split into a pitch and an optional final octave
      digit, and the number is the pitch index plus 12 per octave above
      `baseOctave`. */
  function NoteNameToNumber(note: string, baseOctave: int): Result<int, NoteError> {
    var n := Lower(Strip(note));
    if n == [] then Err(IndexError)
    else if IsDigit(n[|n| - 1]) then WithOctaveDigit(n, baseOctave)
    else
      var i :- PitchIndex(n);
      Ok(i + 12 * (DEFAULT_OCTAVE - baseOctave))
  }

  /** A name that is empty once stripped fails with IndexError in both
      versions, and a name without an octave digit never gets a number as
      written. */
  lemma NumberErrors(note: string, baseOctave: int)
    ensures Lower(Strip(note)) == [] ==>
      NoteNameToNumberAsWritten(note, baseOctave) == NoteNameToNumber(note, baseOctave) == Err(IndexError)
    ensures var n := Lower(Strip(note));
      n != [] && !IsDigit(n[|n| - 1]) ==> NoteNameToNumberAsWritten(note, baseOctave).Err?
  {
  }

  /** A number lies in the octave its name asks for: the final digit, or
      octave 4 without one, counted from `baseOctave`. */
  lemma NumberInOctave(note: string, baseOctave: int)
    requires NoteNameToNumber(note, baseOctave).Ok?
    ensures var n := Lower(Strip(note));
      var octave := if IsDigit(n[|n| - 1]) then DigitValue(n[|n| - 1]) else DEFAULT_OCTAVE;
      0 <= NoteNameToNumber(note, baseOctave).value - 12 * (octave - baseOctave) < 12
  {
  }

  /** The two agree whenever the name ends in an octave digit. */
  lemma AsWrittenAgreesWithDigit(note: string, baseOctave: int)
    requires var n := Lower(Strip(note)); n != [] && IsDigit(n[|n| - 1])
    ensures NoteNameToNumberAsWritten(note, baseOctave) == NoteNameToNumber(note, baseOctave)
    ensures NoteNameToNumber(note, baseOctave) == WithOctaveDigit(Lower(Strip(note)), baseOctave)
  {
  }

  /** Without a trailing digit the source fails on every valid pitch name,
      where octave 4 was meant. */
  lemma MissingOctave(note: string, baseOctave: int)
    requires var n := Lower(Strip(note)); n != [] && !IsDigit(n[|n| - 1]) && PitchIndex(n).Ok?
    ensures NoteNameToNumberAsWritten(note, baseOctave) == Err(UnboundOctave)
    ensures NoteNameToNumber(note, baseOctave)
         == Ok(PitchIndex(Lower(Strip(note))).value + 12 * (DEFAULT_OCTAVE - baseOctave))
  {
  }

  /** The name `c` shows the difference: no number as written, 48 intended. */
  lemma MissingOctaveExample(note: string)
    requires note == "c"
    ensures NoteNameToNumberAsWritten(note, 0) == Err(UnboundOctave)
    ensures NoteNameToNumber(note, 0) == Ok(48)
  {
    assert TrimStart(note) == note;
    assert TrimEnd(note) == note;
    var n := Lower(Strip(note));
    assert n == [LowerChar('c')] == "c";
    assert PitchIndex(n) == Ok(0);
    MissingOctave(note, 0);
  }

  /** A name with no leading whitespace that ends in an octave digit is
      numbered by the pitch index of the lower-cased rest plus 12 per octave
      above `baseOctave`. */
  lemma NumberWithDigit(s: string, d: nat, baseOctave: int)
    requires d < 10 && |s| >= 2 && !IsSpace(s[0]) && s[|s| - 1] == DigitChar(d)
    ensures PitchIndex(Lower(s[..|s| - 1])).Ok? ==>
      NoteNameToNumber(s, baseOctave) == Ok(PitchIndex(Lower(s[..|s| - 1])).value + 12 * (d - baseOctave))
    ensures PitchIndex(Lower(s[..|s| - 1])).Err? ==>
      NoteNameToNumber(s, baseOctave) == Err(PitchIndex(Lower(s[..|s| - 1])).error)
  {
    assert TrimStart(s) == s;
    assert TrimEnd(s) == s;
    var n := Lower(s);
    assert n[..|s| - 1] == Lower(s[..|s| - 1]);
    assert n[|n| - 1] == DigitChar(d);
  }

  /** Raising the octave digit by one adds 12, and so does lowering the base
      octave by one. */
  lemma OctaveArithmetic(name: string, d: nat, baseOctave: int)
    requires d < 9 && name != [] && !IsSpace(name[0])
    requires NoteNameToNumber(name + [DigitChar(d)], baseOctave).Ok?
    ensures NoteNameToNumber(name + [DigitChar(d + 1)], baseOctave).Ok?
    ensures NoteNameToNumber(name + [DigitChar(d + 1)], baseOctave).value
         == NoteNameToNumber(name + [DigitChar(d)], baseOctave).value + 12
    ensures NoteNameToNumber(name + [DigitChar(d)], baseOctave - 1).value
         == NoteNameToNumber(name + [DigitChar(d)], baseOctave).value + 12
  {
    var s, t := name + [DigitChar(d)], name + [DigitChar(d + 1)];
    assert s[..|s| - 1] == name && t[..|t| - 1] == name;
    NumberWithDigit(s, d, baseOctave);
    NumberWithDigit(t, d + 1, baseOctave);
    NumberWithDigit(s, d, baseOctave - 1);
  }

  /** A lower-case pitch name followed by an octave digit. */
  lemma NumberOfName(name: string, d: nat, baseOctave: int)
    requires d < 10 && name != [] && !IsSpace(name[0]) && Lower(name) == name && PitchIndex(name).Ok?
    ensures NoteNameToNumber(name + [DigitChar(d)], baseOctave) == Ok(PitchIndex(name).value + 12 * (d - baseOctave))
  {
    var s := name + [DigitChar(d)];
    assert s[..|s| - 1] == name;
    NumberWithDigit(s, d, baseOctave);
  }

  /** Normalisation wraps within the octave without carrying
      (makesfz.py:106): B# has the pitch index of C and Cb that of B, so by
      `NumberOfName` B#4 is numbered like C4, not C5, and Cb4 like B4, not
      B3. */
  lemma WrapDoesNotCarryOctave()
    ensures PitchIndex("b#") == PitchIndex("c") == Ok(0)
    ensures PitchIndex("cb") == PitchIndex("b") == Ok(11)
  {
    ShiftLast([], '#');
    ShiftLast([], 'b');
    assert "b#"[1..] == [] + ['#'];
    assert "cb"[1..] == [] + ['b'];
    PitchIndexLong("b#");
    PitchIndexLong("cb");
  }

  /** Lower-casing the literal names used in the examples. */
  lemma LowerExamples()
    ensures Lower("b#") == "b#" && Lower("cb") == "cb" && Lower("c") == "c" && Lower("b") == "b"
    ensures Lower("eb") == "eb" && Lower("f#") == "f#" && Lower("eES") == "ees"
    ensures Lower("H") == "h" && Lower("e") == "e" && Lower("f") == "f"
  {
  }

  /** The spelling translation of `get_root_note` (makesfz.py:126-135): a
      missing accidental or octave counts as empty, `es` becomes `b`, `is`
      becomes `#`, and the base note `h` becomes `b`. */
  function Spelling(basenote: string, accidental: Option<string>, octave: Option<string>): (r: string)
    ensures var note := if Lower(basenote) == "h" then "b" else Lower(basenote);
      var oct := if octave.Some? then octave.value else "";
      && (accidental == Some("es") ==> r == note + "b" + oct)
      && (accidental == Some("is") ==> r == note + "#" + oct)
      && (accidental.None? ==> r == note + oct)
      && (accidental.Some? && accidental.value != "es" && accidental.value != "is" ==>
            r == note + accidental.value + oct)
    ensures Lower(basenote) == "h" ==> |r| >= 1 && r[0] == 'b'
  {
    var acc0 := if accidental.Some? then accidental.value else "";
    var acc := if acc0 == "es" then "b" else if acc0 == "is" then "#" else acc0;
    var note := if Lower(basenote) == "h" then "b" else Lower(basenote);
    assert note + [] == note;
    note + acc + (if octave.Some? then octave.value else "")
  }

  /** What the sample-name pattern (makesfz.py:58-61, matched ignoring case at
      makesfz.py:257) lets through: one base letter from a to h, an optional
      accidental `#`, `b`, `es` or `is`, and an optional octave of decimal
      digits. */
  predicate FromNotePattern(basenote: string, accidental: Option<string>, octave: Option<string>) {
    && |basenote| == 1 && LowerChar(basenote[0]) in "abcdefgh"
    && (accidental.Some? ==> Lower(accidental.value) in ["#", "b", "es", "is"])
    && (octave.Some? ==> octave.value != [] && forall i | 0 <= i < |octave.value| :: IsDigit(octave.value[i]))
  }

  /** An accidental the pattern admits ends in neither a digit nor a space. */
  lemma AccidentalEnd(a: string)
    requires Lower(a) in ["#", "b", "es", "is"]
    ensures a != [] && !IsDigit(a[|a| - 1]) && !IsSpace(a[|a| - 1])
  {
    var l := Lower(a);
    assert l[|l| - 1] in "#bs";
    assert LowerChar(a[|a| - 1]) == l[|l| - 1];
  }

  /** The ends of a letter, an accidental and an octave put together. */
  lemma JoinedEnds(note: string, acc: string, oct: string)
    requires |note| == 1 && note[0] in "abcdefg"
    requires acc != [] ==> !IsDigit(acc[|acc| - 1]) && !IsSpace(acc[|acc| - 1])
    requires oct != [] ==> IsDigit(oct[|oct| - 1])
    ensures var s := note + acc + oct;
      && s[0] == note[0]
      && !IsSpace(s[|s| - 1])
      && (oct != [] <==> IsDigit(s[|s| - 1]))
  {
    var s := note + acc + oct;
    if oct != [] {
      assert s[|s| - 1] == oct[|oct| - 1];
    } else if acc != [] {
      assert s[|s| - 1] == acc[|acc| - 1];
    } else {
      assert s[|s| - 1] == note[0];
    }
  }

  /** A spelled name from the pattern starts with a pitch letter, ends in no
      space, and ends in a digit exactly when it has an octave. */
  lemma SpellingEnds(basenote: string, accidental: Option<string>, octave: Option<string>)
    requires FromNotePattern(basenote, accidental, octave)
    ensures var s := Spelling(basenote, accidental, octave);
      && |s| >= 1 && s[0] in "abcdefg"
      && !IsSpace(s[|s| - 1])
      && (octave.Some? <==> IsDigit(s[|s| - 1]))
  {
    var note := if Lower(basenote) == "h" then "b" else Lower(basenote);
    var oct := if octave.Some? then octave.value else "";
    assert Lower(basenote) == [LowerChar(basenote[0])];
    var acc := if accidental.None? then ""
      else if accidental.value == "es" then "b"
      else if accidental.value == "is" then "#"
      else accidental.value;
    assert Spelling(basenote, accidental, octave) == note + acc + oct;
    if accidental.Some? {
      AccidentalEnd(accidental.value);
    }
    JoinedEnds(note, acc, oct);
  }

  /** A name whose ends are not whitespace is its own `strip()`. */
  lemma StripPlain(s: string)
    requires s != [] && !IsSpace(s[0]) && !IsSpace(s[|s| - 1])
    ensures Strip(s) == s
  {
  }

  /** On a name with plain ends and a final digit the conversion as written
      agrees with the corrected one. */
  lemma AsWrittenOnPlain(s: string, baseOctave: int)
    requires s != [] && !IsSpace(s[0]) && IsDigit(s[|s| - 1])
    ensures NoteNameToNumberAsWritten(s, baseOctave) == NoteNameToNumber(s, baseOctave)
  {
    StripPlain(s);
    assert Lower(s)[|s| - 1] == LowerChar(s[|s| - 1]);
    AsWrittenAgreesWithDigit(s, baseOctave);
  }

  /** A spelled name from the pattern without an octave fails, as written,
      on the unbound `octave` once its pitch has been found. */
  lemma {:induction false} FallbackWithoutOctave(s: string, baseOctave: int)
    requires |s| >= 1 && s[0] in "abcdefg" && !IsSpace(s[|s| - 1]) && !IsDigit(s[|s| - 1])
    ensures NoteNameToNumberAsWritten(s, baseOctave) == Err(UnboundOctave)
  {
    StripPlain(s);
    var n := Lower(s);
    assert n[0] == s[0];
    LetterIndexDomain(n[0]);
    if |n| > 1 {
      PitchIndexLong(n);
    } else {
      assert n == NOTES[LetterIndex(n[0]).value];
      IndexOfNote(LetterIndex(n[0]).value);
    }
    MissingOctave(s, baseOctave);
  }

  /** `get_root_note`'s fallback for a name from the pattern: as written,
      every name without an octave fails on the unbound `octave`, and every
      name with one gets the number the corrected conversion gives. */
  lemma {:induction false} FallbackCases(basenote: string, accidental: Option<string>, octave: Option<string>,
                                         baseOctave: int)
    ensures FromNotePattern(basenote, accidental, octave) && octave.None? ==>
      NoteNameToNumberAsWritten(Spelling(basenote, accidental, octave), baseOctave) == Err(UnboundOctave)
    ensures FromNotePattern(basenote, accidental, octave) && octave.Some? ==>
      NoteNameToNumberAsWritten(Spelling(basenote, accidental, octave), baseOctave)
        == NoteNameToNumber(Spelling(basenote, accidental, octave), baseOctave)
  {
    if FromNotePattern(basenote, accidental, octave) {
      var s := Spelling(basenote, accidental, octave);
      SpellingEnds(basenote, accidental, octave);
      if octave.None? {
        FallbackWithoutOctave(s, baseOctave);
      } else {
        AsWrittenOnPlain(s, baseOctave);
      }
    }
  }

  /** The root note derived from the file name when the file itself has none
      (makesfz.py:125-135), through the conversion as written. */
  function FallbackRootNote(basenote: string, accidental: Option<string>, octave: Option<string>, baseOctave: int)
    : (r: Result<int, NoteError>)
    ensures FromNotePattern(basenote, accidental, octave) && octave.None? ==> r == Err(UnboundOctave)
    ensures FromNotePattern(basenote, accidental, octave) && octave.Some? ==>
      r == NoteNameToNumber(Spelling(basenote, accidental, octave), baseOctave)
  {
    FallbackCases(basenote, accidental, octave, baseOctave);
    NoteNameToNumberAsWritten(Spelling(basenote, accidental, octave), baseOctave)
  }

  /** German spellings: H is B, `es` flattens and `is` sharpens; only the
      lower-case forms are translated, so an upper-case ES is kept. */
  lemma GermanSpellings(octave: string)
    ensures Spelling("H", None, Some(octave)) == "b" + octave
    ensures Spelling("e", Some("es"), Some(octave)) == "eb" + octave
    ensures Spelling("f", Some("is"), Some(octave)) == "f#" + octave
    ensures Spelling("e", Some("ES"), Some(octave)) == "eES" + octave
  {
    LowerExamples();
    assert "is" != "es" && "ES" != "es" && "ES" != "is" by {
      assert "is"[0] != "es"[0] && "ES"[0] != "es"[0] && "ES"[0] != "is"[0];
    }
  }

  /** The pitch indices of the translated German spellings. */
  lemma PitchOfEb()
    ensures PitchIndex("eb") == Ok(3)
  {
    PitchTwo('e', 'b');
  }

  lemma PitchOfFSharp()
    ensures PitchIndex("f#") == Ok(6)
  {
    PitchTwo('f', '#');
  }

  lemma PitchOfEes()
    ensures PitchIndex("ees") == Ok(4)
  {
    PitchThree('e', 'e', 's');
  }

  /** The pitch index of a letter and one accidental. */
  lemma PitchTwo(l: char, c: char)
    requires LetterIndex(LowerChar(l)).Some?
    ensures PitchIndex([l, c]) == Ok((LetterIndex(LowerChar(l)).value + Step(c)) % 12)
  {
    ShiftShort(c, c);
    assert [l, c][1..] == [c];
    PitchIndexLong([l, c]);
  }

  /** The pitch index of a letter and two more characters. */
  lemma PitchThree(l: char, c1: char, c2: char)
    requires LetterIndex(LowerChar(l)).Some?
    ensures PitchIndex([l, c1, c2]) == Ok((LetterIndex(LowerChar(l)).value + Step(c1) + Step(c2)) % 12)
  {
    ShiftShort(c1, c2);
    assert [l, c1, c2][1..] == [c1, c2];
    PitchIndexLong([l, c1, c2]);
  }

  /** H is B: 11 above the octave's C. */
  lemma GermanH(d: nat, baseOctave: int)
    requires d < 10
    ensures FallbackRootNote("H", None, Some([DigitChar(d)]), baseOctave) == Ok(11 + 12 * (d - baseOctave))
  {
    LowerExamples();
    GermanSpellings([DigitChar(d)]);
    var s := Spelling("H", None, Some([DigitChar(d)]));
    assert s == ['b', DigitChar(d)] && s[..1] == "b";
    AsWrittenOnPlain(s, baseOctave);
    NumberWithDigit(s, d, baseOctave);
  }

  /** E-es is D#: 3 above the octave's C. */
  lemma GermanEs(d: nat, baseOctave: int)
    requires d < 10
    ensures FallbackRootNote("e", Some("es"), Some([DigitChar(d)]), baseOctave) == Ok(3 + 12 * (d - baseOctave))
  {
    PitchOfEb();
    LowerExamples();
    GermanSpellings([DigitChar(d)]);
    var s := Spelling("e", Some("es"), Some([DigitChar(d)]));
    assert s == ['e', 'b', DigitChar(d)] && s[..2] == "eb";
    AsWrittenOnPlain(s, baseOctave);
    NumberWithDigit(s, d, baseOctave);
  }

  /** F-is is F#: 6 above the octave's C. */
  lemma GermanIs(d: nat, baseOctave: int)
    requires d < 10
    ensures FallbackRootNote("f", Some("is"), Some([DigitChar(d)]), baseOctave) == Ok(6 + 12 * (d - baseOctave))
  {
    PitchOfFSharp();
    LowerExamples();
    GermanSpellings([DigitChar(d)]);
    var s := Spelling("f", Some("is"), Some([DigitChar(d)]));
    assert s == ['f', '#', DigitChar(d)] && s[..2] == "f#";
    AsWrittenOnPlain(s, baseOctave);
    NumberWithDigit(s, d, baseOctave);
  }

  /** E-ES stays E, 4 above the octave's C: the upper-case suffix is only
      lower-cased, and its `e` and `s` do not move the pitch. */
  lemma UpperCaseSuffixIgnored(d: nat, baseOctave: int)
    requires d < 10
    ensures FallbackRootNote("e", Some("ES"), Some([DigitChar(d)]), baseOctave) == Ok(4 + 12 * (d - baseOctave))
  {
    PitchOfEes();
    LowerExamples();
    GermanSpellings([DigitChar(d)]);
    var s := Spelling("e", Some("ES"), Some([DigitChar(d)]));
    assert s == ['e', 'E', 'S', DigitChar(d)] && s[..3] == "eES";
    AsWrittenOnPlain(s, baseOctave);
    NumberWithDigit(s, d, baseOctave);
  }
}
