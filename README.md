# WAVE chunk reader/writer and sample-naming helpers, modelled in Dafny

This project models the core of a small sampler toolkit. The toolkit reads
WAVE files and writes SFZ instrument definitions.

**The RIFF/WAVE container (`wavfile.py`).** A WAVE file is a `RIFF` chunk of
form type `WAVE`. Its body is a run of chunks. Each chunk is a four-byte tag,
a little-endian unsigned 32-bit size and a payload. A payload of odd length
is followed by one pad byte, which is counted neither in the size nor in the
payload.

- `WavFile` opens a file and scans the chunks one at a time. It keeps the
  first chunk of each known tag in a dict and every other tag's chunks in a
  list. A separate list keeps all chunks in arrival order.
- Three chunk kinds (four tags) are decoded on demand: `fmt ` (PCM format
  parameters), `smpl` (sampler header and loops), and `LIST`/`list` (a type
  id and sub-chunks). The code also decodes `cue ` chunks; that kind is
  left out (see "Left out").
- Iteration yields the chunks in canonical order: the `fmt ` chunk first,
  then the `LIST` chunks of type `INFO`, then everything else in arrival
  order. Serialising writes that order back as a RIFF/WAVE byte string.
- `raw_frames` cuts the `data` payload into frames.

In the model:

- A file is an in-memory byte sequence (`Bytes.byte`). Chunks are values
  (`Riff.Chunk`).
- The opened file is the class `WavContainer.WavFile`. Its fields `chunks`
  (the dict) and `chunkList` (the arrival list) are updated in place by
  `Append`, which the scanning loop of `Open` calls.
- The per-chunk decoders are pure functions. The byte loops of `smpl` and
  `LIST` parsing and of `raw_frames` are methods proved against those
  functions.

**Sample naming (`makesfz.py`, `fix-polyphone-sfz.py`).**

- Note names are normalised to the sharp spelling of the twelve pitch
  classes and turned into MIDI note numbers (`NoteNames`).
- Sample-name spellings of the German kind (`h`, `es`, `is`) are mapped to
  that form.
- A comma-separated list of file types is expanded into extensions, and a
  path is cut down to its last components (`SampleFiles`).
- Samples are grouped into regions by root note, and into velocity layers
  with round-robin sequence slots (`Grouping`).
- Polyphone's SFZ note names (`c#4`, `e♭3`) are turned into MIDI key numbers
  and put back into `key=` opcodes (`PolyphoneKeys`).

Where the repository's own description of the container and its code
differ, the model follows the code:

- A chunk header cut short by the end of the RIFF body ends the scan
  silently. This is how `chunk_factory` and the `EOFError` handler behave;
  it is not an error.
- A payload cut short by the end of the file is returned short.
- Skipping past the declared RIFF size raises the `RuntimeError` of
  `chunk.Chunk.seek`, modelled as `SeekPastRiff`.
- The `LIST` walk reads sub-chunk sizes as signed 32-bit values (`'<l'`). A
  size from -7 to -1 yields an empty payload and moves the cursor forward by
  at least one byte, as the code does.
- At a size of -8 or -9 the cursor stays where it is, so the code never
  finishes. Below -9 the cursor moves backwards, so the code re-reads
  earlier bytes and may never finish. The model reports every size of -8
  or less as the error `StalledSubchunk`.
- A frame size of zero or less makes the `raw_frames` loop endless. The model
  reports this as `EndlessFrames`.

Errors are values of `Riff.WavError`, `NoteNames.NoteError`,
`PolyphoneKeys.KeyError`, `SampleFiles.PathError` and `Grouping.GroupError`.
Each one is named after the Python exception it stands for.

## Model

| member | source | states |
|---|---|---|
| Bytes.U32At | wavfile.py:130-133 | the size field read as `'<L'` is below 2^32 |
| Bytes.I32At | wavfile.py:296 | a `'<l'` field is the two's-complement reading of the unsigned field, and lies in the i32 range |
| Bytes.I16At | wavfile.py:218 | a `'<h'` field is the two's-complement reading of two bytes, in the i16 range |
| Bytes.I32AtAppend | wavfile.py:81-82 | a field unpacked at an offset depends only on the bytes at that offset |
| Bytes.PackU32 | wavfile.py:176-181 | `struct.pack('<L', x)` gives four bytes that read back as `x` |
| Bytes.PackI32 | wavfile.py:408-412 | `struct.pack('<l', x)` gives four bytes that read back as `x` |
| Bytes.PackI16 | wavfile.py:218 | `struct.pack('<h', x)` gives two bytes that read back as `x` |
| Bytes.PackReadU32 | wavfile.py:130-133 | packing the unsigned value four bytes hold gives those bytes back |
| Bytes.PackReadI32 | wavfile.py:296 | packing the signed value four bytes hold gives those bytes back |
| Bytes.PackReadI16 | wavfile.py:218 | packing the signed value two bytes hold gives those bytes back |
| Bytes.PackI32Unsigned | wavfile.py:410 | the file size written signed reads back unchanged through the unsigned header read |
| Riff.SetName | wavfile.py:148-152 | a name longer than four bytes is refused; a shorter one is kept as prefix and right-padded with spaces |
| Riff.SetNameKeepsTag | wavfile.py:148-152 | setting a four-byte tag keeps it unchanged |
| Riff.PadLength | wavfile.py:180-181 | one pad byte exactly when the length is odd, and the padded length is even |
| Riff.NextOffset | wavfile.py:381 | skipping a chunk moves at least past header and payload, by an even amount |
| Riff.ReadChunk | wavfile.py:85-144 | fewer than eight header bytes is end-of-stream; otherwise tag and `'<L'` size come from the header and the payload is the declared bytes, cut short by the end of the body |
| Riff.Size | wavfile.py:155-160 | `size` is the declared size before loading (also when the payload is complete) and the payload length after |
| Riff.Record | wavfile.py:176-181 | a written chunk holds tag, length and payload, with a zero pad byte after odd payloads, and has even length |
| Riff.ReadSerialized | wavfile.py:176-181 | reading a written chunk back gives the chunk, with size equal to its payload length, and the skip lands right after it |
| Riff.ChunkClassOf | wavfile.py:490-497 | the registry maps `cue `, `fmt `, `smpl`, `LIST`/`list` to their classes and every other tag to the generic one |
| ChunkTable.FirstNamed | wavfile.py:371-376 | the first chunk with a tag exists exactly when some chunk has that tag |
| ChunkTable.TableShape | wavfile.py:371-378 | after the scan a tag is in the dict iff some chunk has it; a known tag holds its first chunk, any other tag holds all its chunks in order |
| ChunkTable.AddOther | wavfile.py:371-378 | adding a chunk leaves the entries of other tags unchanged |
| ChunkTable.AddSame | wavfile.py:371-378 | adding a chunk keeps an existing known entry, creates one for a new known tag, and appends to the list of an unknown tag |
| ChunkTable.EntryNamed | wavfile.py:371-378 | a single entry holds a chunk of that tag from the scan; list entries are exactly the unknown tags |
| ChunkTable.DuplicateKnownIgnored | wavfile.py:372-374 | a second chunk with a known tag leaves the dict unchanged |
| ChunkTable.TableHas | wavfile.py:433-436 | `has_chunk` holds iff some scanned chunk has that tag |
| ChunkTable.KnownLookup | wavfile.py:438-452 | a known tag's dict entry is its first chunk in arrival order |
| ChunkTable.OtherLookup | wavfile.py:378 | an unknown tag's dict entry is all its chunks in arrival order |
| FmtChunk.DecodeFmt | wavfile.py:203-221 | under 14 bytes is a parse error; PCM with under 16 bytes fails to read the bit depth; otherwise each field is its `'<hhllh'` field and PCM carries `'<h'` bits per sample |
| FmtChunk.DecodeEncodeFmt | wavfile.py:214-221 | decoding an encoded format record gives it back |
| FmtChunk.SampleWidth | wavfile.py:230-236 | PCM only: the smallest whole number of bytes holding the bits per sample; other formats raise the compression error |
| FmtChunk.FrameSize | wavfile.py:238-240 | channels times sample width, failing exactly when the width does |
| FmtChunk.WidthExamples | wavfile.py:230-240 | 16-bit is two bytes, 24-bit frames are three bytes per channel, a compressed format has no width |
| SmplChunk.UnpackLongs | wavfile.py:81-82 | `n` signed longs are read at the offset iff the data holds them |
| SmplChunk.UnpackPackLongs | wavfile.py:81-82 | unpacking packed longs gives them back |
| SmplChunk.DecodeHeader | wavfile.py:247-258 | the nine header fields are the nine `'<l'` fields, and under 36 bytes is a parse error |
| SmplChunk.LoopAt | wavfile.py:259-265 | the six loop fields are the six `'<l'` fields at the offset, and a short record is a struct error |
| SmplChunk.DecodeSmplAsWritten | wavfile.py:267-274 | under 36 bytes is a parse error; past the header it fails, with struct.error, exactly when `sample_loops` is positive and the one record at offset 36 is cut short; otherwise the header is decoded and there are `sample_loops` loops (none when it is not positive) |
| SmplChunk.ParseSmpl | wavfile.py:267-274 | the parsing loop computes the as-written decoder |
| SmplChunk.AsWrittenRepeatsFirstLoop | wavfile.py:271-274 | every loop the code reads is the record at offset 36 |
| SmplChunk.DecodeSmpl | wavfile.py:267-274 | loop `i` is the record at offset 36 + 24*i, and decoding fails, with struct.error, iff the data is too short for the announced loops |
| SmplChunk.DecodeEncodeSmpl | wavfile.py:267-274 | decoding an encoded header and loop list gives them back |
| SmplChunk.AsWrittenLosesSecondLoop | wavfile.py:271-274 | on a chunk with two different loops the code returns the first loop twice; the corrected decoder returns both |
| SmplChunk.AsWrittenAcceptsMissingLoop | wavfile.py:271-274 | a 60-byte chunk announcing two loops but holding one is accepted as written, with that loop twice; the corrected decoder reports struct.error |
| ListChunk.Advance | wavfile.py:298 | a size above -8 moves the cursor forward; -8 or less does not; a non-negative size moves past the padded record |
| ListChunk.SubData | wavfile.py:297 | a sub-chunk payload is the declared bytes, cut at the end of the data, and empty for a negative size |
| ListChunk.DecodeList | wavfile.py:289-298 | under four bytes is a parse error; otherwise the type id is the first four bytes and the sub-chunks are the walk of the rest |
| ListChunk.ParseList | wavfile.py:289-298 | the parse method computes the list decoder |
| ListChunk.ReadSubchunks | wavfile.py:291-298 | the cursor loop collects exactly the sub-chunks of the walk, or its error |
| ListChunk.ParseFails | wavfile.py:294-296 | a header cut short is a struct error; a size of -8 or less is the stalled-cursor error |
| ListChunk.WalkFrom | wavfile.py:294-298 | each step records one sub-chunk and continues at the advanced cursor |
| ListChunk.WalkAtRecord | wavfile.py:294-298 | a written sub-chunk is read back as itself, and the walk continues after its pad byte |
| ListChunk.WalkEncoded | wavfile.py:294-298 | walking written sub-chunks gives them back |
| ListChunk.DecodeEncodedList | wavfile.py:289-298 | decoding a written list gives its type id and sub-chunks back |
| WavContainer.ReadRiffHeader | wavfile.py:343-355 | a missing or wrong `RIFF` header is a parse error; a missing `WAVE` form type is the not-a-WAVE error; the body is the declared RIFF size, cut at the end of the file |
| WavContainer.ScanChunks | wavfile.py:362-381 | the scan ends at a short header, fails when a skip passes the RIFF size, and otherwise starts with the chunk read at the cursor |
| WavContainer.ParseWav | wavfile.py:343-384 | a header error is returned; otherwise a scan error is passed on, a scan without both a `fmt ` and a `data` chunk is a parse error, and any other scan is the result |
| WavContainer.FirstListFailure | wavfile.py:422-428 | iteration fails iff some `LIST` chunk fails to decode |
| WavContainer.SerializedEven | wavfile.py:408-412 | written chunks take an even number of bytes |
| WavContainer.SerializeFile | wavfile.py:408-412 | the output is `RIFF`, the signed length after the size field, `WAVE` and the chunks; a length above 2^31-1 is a struct error |
| WavContainer.FrameAt | wavfile.py:485-487 | frame `i` is the slice at `i` times the frame size |
| WavContainer.FrameCount | wavfile.py:485-487 | there are `len(data) // fs` frames |
| WavContainer.FramesSliced | wavfile.py:479-487 | the frames cut the data into consecutive whole frames from the start |
| WavContainer.FrameSlices | wavfile.py:479-487 | format errors pass through; a frame size of zero or less never ends; otherwise the frames are the consecutive slices |
| WavContainer.WavFile.Empty | wavfile.py:357-360 | a new file object starts with an empty dict and chunk list |
| WavContainer.WavFile.Append | wavfile.py:371-380 | the chunk is appended to the arrival list and entered in the dict by the known/other rule, keeping the two consistent |
| WavContainer.WavFile.HasChunk | wavfile.py:433-436 | true iff some chunk in the file has the tag |
| WavContainer.WavFile.Fmt | wavfile.py:438-444 | the first `fmt ` chunk, or none |
| WavContainer.WavFile.Smpl | wavfile.py:446-452 | the first `smpl` chunk, or none |
| WavContainer.WavFile.Loops | wavfile.py:454-459 | no `smpl` chunk gives no loops; otherwise the decoded loops, one per announced loop, each read from its own record |
| WavContainer.WavFile.Iterate | wavfile.py:414-431 | the chunks in canonical order, or the first `LIST` decoding error |
| WavContainer.WavFile.Serialize | wavfile.py:408-412 | passes on the iteration error; otherwise it is the file written from the iteration order, a RIFF/WAVE file whose size field is its length minus eight |
| WavContainer.WavFile.RawFrames | wavfile.py:479-487 | the stepping loop yields the frames `FrameSlices` describes |
| WavContainer.Open | wavfile.py:343-384 | opening succeeds iff the file parses; the new object's chunk list is the parsed chunks, and its dict is consistent with it |
| WavRoundTrip.CanonicalOrderExample | wavfile.py:414-431 | `data, smpl, fmt, LIST INFO` iterates as `fmt, LIST INFO, data, smpl` |
| WavRoundTrip.Partition | wavfile.py:414-431 | INFO lists, chunks kept in place and `fmt ` chunks together make up all chunks |
| WavRoundTrip.IterationPermutation | wavfile.py:414-431 | iteration yields every chunk except the extra `fmt ` chunks; with one `fmt ` it is a permutation |
| WavRoundTrip.OrderTail | wavfile.py:422-431 | after the first position, iteration yields only INFO lists and chunks kept in place |
| WavRoundTrip.FmtFirstAndOnce | wavfile.py:421-427 | iteration yields the first `fmt ` chunk first and no other `fmt ` chunk |
| WavRoundTrip.ScanSerialized | wavfile.py:362-381 | scanning written chunks inside the RIFF size gives them back |
| WavRoundTrip.ReadWrittenHeader | wavfile.py:343-355 | a written file's header reads back with the written size and body |
| WavRoundTrip.ParseSerialized | wavfile.py:408-412 | opening a written file with `fmt ` and `data` gives back the chunks written |
| WavRoundTrip.OrderListsDecode | wavfile.py:422-428 | lists that decoded before reordering still decode after it |
| WavRoundTrip.CanonicalFixedPoint | wavfile.py:414-431 | iterating the canonical order again gives the same order |
| WavRoundTrip.ScanComplete | wavfile.py:362-381 | in an untruncated file every scanned chunk has its whole payload |
| WavRoundTrip.WriteReadRoundTrip | wavfile.py:408-431 | write then re-open gives the canonical order back, and that order is a fixed point |
| NoteNames.LetterIndexDomain | makesfz.py:85 | a first letter is found iff it is one of `cdefgab`, at its own place in `NOTES` |
| NoteNames.IndexOfSpec | makesfz.py:62 | `NOTES.index` finds exactly the names in `NOTES`, at their positions |
| NoteNames.Normalize | makesfz.py:79-93 | an empty name is an index error and any other failure a value error |
| NoteNames.NormalizeSucceeds | makesfz.py:85-93 | normalising succeeds iff the first letter is a note letter, and yields a name in `NOTES` |
| NoteNames.NormalizeNote | makesfz.py:85-93 | the accidental loop computes the normalised name |
| NoteNames.NormalizedIndex | makesfz.py:87-93 | the result's position is the letter's position shifted by the accidentals, modulo 12 |
| NoteNames.SharpMovesUp | makesfz.py:88-89 | one more `#` raises the pitch class by one semitone, wrapping at 12 |
| NoteNames.FlatMovesDown | makesfz.py:90-91 | one more `b` lowers the pitch class by one semitone, wrapping at 12 |
| NoteNames.NormalizeIdempotent | makesfz.py:79-93 | a normalised name normalises to itself |
| NoteNames.NormalizeTwo | makesfz.py:85-93 | a letter with one accidental moves by that accidental's step |
| NoteNames.NormalizeThree | makesfz.py:85-93 | a letter with two accidentals moves by the sum of their steps |
| NoteNames.NormalizeSharpExamples | makesfz.py:82 | `E#` is `f` and `F##` is `g` |
| NoteNames.NormalizeFlatExamples | makesfz.py:82 | `Db` is `c#` and `cb` is `b` |
| NoteNames.PitchIndex | makesfz.py:104-107 | the pitch class is below 12, and an empty name is a value error |
| NoteNames.PitchIndexLong | makesfz.py:104-107 | a longer name fails iff its first letter is not a note letter, and otherwise is its normalised position |
| NoteNames.PitchTwo | makesfz.py:104-107 | a two-character name's pitch class is the letter moved by the accidental |
| NoteNames.PitchThree | makesfz.py:104-107 | a three-character name's pitch class is the letter moved by both accidentals |
| NoteNames.NumberErrors | makesfz.py:99-101 | an empty name is an index error; as written, a name without an octave digit fails |
| NoteNames.NumberInOctave | makesfz.py:96-107 | the note number lies in the twelve semitones of its octave, relative to the base octave |
| NoteNames.AsWrittenAgreesWithDigit | makesfz.py:101-107 | with an octave digit, the code as written and the corrected one agree |
| NoteNames.MissingOctave | makesfz.py:98 | without an octave digit the code fails on the unbound `octave`; the intended default octave 4 gives the pitch class plus 12 per octave above the base |
| NoteNames.MissingOctaveExample | makesfz.py:98 | `c` fails as written and is 48 as intended |
| NoteNames.NumberWithDigit | makesfz.py:99-107 | a name ending in digit `d` is its pitch class plus 12 times `d` minus the base octave, or the pitch error |
| NoteNames.OctaveArithmetic | makesfz.py:107 | raising the octave digit adds 12, and lowering the base octave adds 12 |
| NoteNames.NumberOfName | makesfz.py:96-107 | a lower-case note name followed by a digit is its pitch class plus 12 per octave |
| NoteNames.WrapDoesNotCarryOctave | makesfz.py:93 | `b#` is pitch class 0 and `cb` is 11: the wrap does not change the octave |
| NoteNames.Spelling | makesfz.py:126-135 | the name is the lower-cased letter (`b` for `h`), then `b` for `es`, `#` for `is` or any other accidental as given, then the octave; an `h` name starts with `b` |
| NoteNames.SpellingEnds | makesfz.py:126-135 | a name the sample pattern admits is spelled with a pitch letter first and ends in a digit exactly when it has an octave |
| NoteNames.FallbackRootNote | makesfz.py:125-135 | on a name the sample pattern admits, no octave fails on the unbound `octave`; with an octave the number is the corrected conversion's |
| NoteNames.FallbackCases | makesfz.py:125-135 | the as-written conversion of a spelled pattern name fails without an octave and agrees with the corrected one with an octave |
| NoteNames.GermanSpellings | makesfz.py:127-131 | `H` becomes `b`, `es` becomes `b`, `is` becomes `#`; `ES` is not translated |
| NoteNames.GermanH | makesfz.py:126-135 | `H` with octave `d` is note 11 of octave `d` |
| NoteNames.GermanEs | makesfz.py:126-135 | `e` + `es` with octave `d` is E flat, note 3 of octave `d` |
| NoteNames.GermanIs | makesfz.py:126-135 | `f` + `is` with octave `d` is F sharp, note 6 of octave `d` |
| NoteNames.UpperCaseSuffixIgnored | makesfz.py:126-135 | `e` + `ES` keeps its letters, which do not shift the pitch: note 4 of octave `d` |
| SampleFiles.ExpansionsFollowTable | makesfz.py:164 | a known file type expands by `FILE_TYPES`, any other to itself |
| SampleFiles.DottedMembership | makesfz.py:164 | an extension is a dot followed by one of the expansions |
| SampleFiles.FindExtensions | makesfz.py:160-164 | the loop over the comma-separated entries computes the extension set |
| SampleFiles.FindStep | makesfz.py:162-164 | each entry adds the dotted expansions of its stripped, lower-cased type |
| SampleFiles.ExtensionsMembership | makesfz.py:160-164 | an extension is in the set iff some entry contributes it |
| SampleFiles.ExtensionsAreDotted | makesfz.py:164 | every extension is a dot and an expansion of some entry |
| SampleFiles.UnknownTypeKept | makesfz.py:164 | an unknown type gives just itself, dotted |
| SampleFiles.UnknownExpansion | makesfz.py:164 | an unknown type expands to itself |
| SampleFiles.SurroundingSpaceIgnored | makesfz.py:163 | whitespace before and after an entry changes nothing |
| SampleFiles.LeadingSpaceIgnored | makesfz.py:163 | one leading whitespace character, as after the comma in `"aif, wav"`, changes nothing |
| Text.StripSurrounded | makesfz.py:163 | `strip()` removes whitespace added before and after a string, whatever the string |
| SampleFiles.AifWavExample | makesfz.py:53-57 | `"aif, wav"` gives `.aif`, `.aiff` and `.wav` |
| SampleFiles.SliceStart | makesfz.py:171 | a negative slice start counts from the end and is clipped at zero |
| SampleFiles.JoinPlain | makesfz.py:171 | joining plain components puts one separator between them |
| SampleFiles.KeepLastRooted | makesfz.py:171 | the last `keep_dirs + 1` components of a rooted path are joined |
| SampleFiles.StripDirsKeepsLast | makesfz.py:169-171 | an absolute path keeps its last `keep_dirs + 1` components |
| SampleFiles.StripDirsSplitsBack | makesfz.py:169-171 | splitting the result gives exactly those last components |
| SampleFiles.StripDirsShortPath | makesfz.py:171 | a path with no more components than `keep_dirs` loses only its root |
| SampleFiles.StripDirsNothingLeft | makesfz.py:171 | when the slice leaves no component, `pathjoin()` raises a type error |
| SampleFiles.StripDirsExample | makesfz.py:169-171 | `/home/user/samples/piano.wav` with one directory kept is `samples/piano.wav` |
| Text.JoinSplit | makesfz.py:170-171 | joining the pieces of a split gives the string back |
| Text.SplitJoin | makesfz.py:170-171 | splitting joined pieces without separators gives them back |
| Text.DecimalRoundTrip | fix-polyphone-sfz.py:31 | the decimal text of a key number reads back as that number |
| Grouping.GroupSamples | makesfz.py:305-331 | the grouping loop computes the region map |
| Grouping.GroupStopsAtError | makesfz.py:314-315 | once a sample raises the layer error, later samples change nothing |
| Grouping.PlaceFails | makesfz.py:314-316 | placing a sample fails iff its layer is not in the velocity table, with that layer as the key error |
| Grouping.PlaceSlots | makesfz.py:306-331 | placing a sample appends it, with its sequence number, to its own layer iff that slot is free, and changes no other layer |
| Grouping.PlaceFirstWins | makesfz.py:323-329 | a sample for an occupied slot is ignored |
| Grouping.PlaceWellFormed | makesfz.py:305-331 | placing keeps regions keyed by root note, layers carrying their velocities, and slots distinct |
| Grouping.AppendWellFormed | makesfz.py:320-331 | the layer a sample goes to stays well formed |
| Grouping.GroupWellFormed | makesfz.py:305-331 | the region map of the whole loop is well formed |
| Grouping.GroupLayersKnown | makesfz.py:314-316 | every layer in the result has velocities from the table |
| Grouping.AutoNeverTaken | makesfz.py:320-321 | a sample without a sequence number takes the next counted slot, which is always free |
| Grouping.GroupFails | makesfz.py:314-315 | grouping fails iff some sample's layer is not in the velocity table |
| Grouping.GroupRegions | makesfz.py:306-310 | the regions are exactly the samples' root notes |
| Grouping.GivenAndCountedCoexist | makesfz.py:320-331 | a sample counted as the first (key 1) followed by one named `"1"` (key `"1"`) are both kept, in that order: the int and the str key never collide |
| PolyphoneKeys.Accidental | fix-polyphone-sfz.py:14-19 | +1 iff a sharp sign occurs, -1 iff no sharp but a flat sign occurs, 0 otherwise |
| PolyphoneKeys.Clamp | fix-polyphone-sfz.py:23 | the result lies in 0..127 and keeps values already inside |
| PolyphoneKeys.SfzNoteToMidiKeyAsWritten | fix-polyphone-sfz.py:13-23 | a key number is always in 0..127 |
| PolyphoneKeys.SfzNoteToMidiKey | fix-polyphone-sfz.py:13-23 | a key number is always in 0..127 |
| PolyphoneKeys.KeyErrors | fix-polyphone-sfz.py:13-23 | empty is an index error, no final digit a value error, no note letter a key error, in both versions alike |
| PolyphoneKeys.GermanHRefused | fix-polyphone-sfz.py:10 | `h`, which the opcode pattern admits, has no offset and raises a key error |
| PolyphoneKeys.InnerDigitIgnored | fix-polyphone-sfz.py:22 | only the last digit is the octave: `c10` is read as octave 0 |
| PolyphoneKeys.AccidentalOfDigit | fix-polyphone-sfz.py:16-19 | digits do not affect the accidental |
| PolyphoneKeys.NaturalNote | fix-polyphone-sfz.py:13-23 | a letter and digit `d` is the letter's offset plus 12 times `d + 1`, clamped |
| PolyphoneKeys.NaturalNoteAsWritten | fix-polyphone-sfz.py:13-23 | the same holds for the code as written, except for lower-case `b` |
| PolyphoneKeys.SignedAccidentals | fix-polyphone-sfz.py:16-19 | `#` and `♯` raise by one, `b` and `♭` lower by one |
| PolyphoneKeys.SharpWins | fix-polyphone-sfz.py:16-17 | any sharp sign makes the accidental +1, whatever else occurs |
| PolyphoneKeys.LowerCaseBIsFlat | fix-polyphone-sfz.py:18 | as written, `b4` is read as B flat (70) while `B4` is 71; the corrected version gives 71 for both |
| PolyphoneKeys.VersionsAgree | fix-polyphone-sfz.py:16-19 | the two versions agree on every name not starting with lower-case `b` |
| PolyphoneKeys.OffsetsAgree | fix-polyphone-sfz.py:10 | the letter offsets are the positions of the letters in `makesfz`'s `NOTES` |
| PolyphoneKeys.AgreesWithNoteNumber | fix-polyphone-sfz.py:23 | for a natural note, the key number is `note_name_to_number` with base octave -1, clamped |
| PolyphoneKeys.NaturalPitch | fix-polyphone-sfz.py:10 | a letter's offset is its pitch class in `makesfz` |
| PolyphoneKeys.ReplaceKeyReadsBack | fix-polyphone-sfz.py:26-33 | no note name keeps the match; otherwise `opcode=` followed by the decimal number of the key the code as written gives, or its key error |
| PolyphoneKeys.ReplaceKeyAgreesExceptLowerB | fix-polyphone-sfz.py:13-33 | a note not starting with lower-case `b` is rewritten as the corrected conversion would; `b4` is written as 70 |

## Left out

- Files, streams, seeking and closing are not modelled. A WAVE file is its bytes in memory. `close`, `__enter__`/`__exit__`, `__del__` and the opening of a file by name are left out.
- Deferred decoding is not modelled; each decoder is a pure function of the payload. In the code, reading `.data` before any decoded field makes later field access raise `AttributeError`; the model has no such order dependence.
- Logging, `__repr__`, `comp_name` and the `__main__` block are left out. They produce text only.
- `CueChunk`, `cue_points` and `info` are left out. They sit outside the reader/writer round trip.
- Riff.Record: writes a zero pad byte after an odd payload, the Python 2 behaviour; under Python 3, `bytes + '\0'` in `WavChunk.__str__` (wavfile.py:180-181) raises `TypeError` there.
- WavContainer.WavFile.Serialize: follows the Python 2 behaviour. Under Python 3, `__str__` returning bytes and `bytes + '\0'` both raise `TypeError`; the model writes the pad as a zero byte.
- WavContainer.WavFile.Loops: uses the corrected `smpl` decoder, not the one that repeats the first loop.
- WavContainer.WavFile.Iterate: `__iter__` is a generator; the model returns the whole order at once, or the first `LIST` error, instead of the chunks yielded before it.
- WavContainer.WavFile.RawFrames: returns all frames at once, not as a generator; a frame size of zero or less is reported as `EndlessFrames` instead of looping forever.
- ListChunk.DecodeList: a sub-chunk size of -8 or less is reported as `StalledSubchunk`. In the code the cursor stays put at -8 and -9, so the loop never ends; below -9 it moves back, so earlier bytes are re-read, possibly forever.
- `pitchdetect.py`, `onsetdetect.py`, `fix-sfz.py` and `readloops.py` are not part of this model.
- In `makesfz.py`, the following are left out: argument parsing, template rendering, the directory walk in `find_files`, the float tune rounding, and running the sample-name regular expression. Samples and regex matches are inputs; `NoteNames.FromNotePattern` states which groups the expression admits.
- In `get_root_note`, the reading of WAVE metadata and pitch detection (makesfz.py:115-123, 137-138) are left out. Only the name-spelling fallback is modelled.
- `strip_dirs` takes the already absolute path; `abspath` depends on the working directory.
- In `fix-polyphone-sfz.py`, `main` is left out: argument parsing, file I/O and the `re.subn` driver. `ReplaceKey` is given the match groups.
- Text.Lower: lowers ASCII letters only. Python's full Unicode case mapping is not modelled.
- Text.IsDigit: ASCII digits only. The model treats every non-ASCII digit as a non-digit, where Python would convert it at makesfz.py:101 and fix-polyphone-sfz.py:22, or raise `ValueError` in `int` for characters such as `²` that `isdigit` accepts.

## Findings

| source | as written | input that shows it | evidently intended | confidence | as-written member | corrected member |
|---|---|---|---|---|---|---|
| wavfile.py:271-274 | every loop record is unpacked at offset 36 | a `smpl` chunk with two different loops yields the first loop twice; a 60-byte chunk announcing two loops but holding one is accepted, with that loop twice | loop `i` read at offset 36 + 24*i | high, not executed | SmplChunk.AsWrittenLosesSecondLoop | SmplChunk.DecodeEncodeSmpl |
| makesfz.py:98 | the default octave is bound to `ocatve`, so `octave` is unbound when the name has no octave digit | `note_name_to_number("c")` raises `UnboundLocalError` | default octave 4: `"c"` is 48 | high, not executed | NoteNames.MissingOctaveExample | NoteNames.MissingOctave |
| fix-polyphone-sfz.py:18 | `'b' in sfz_note` also matches the note letter `b` | `b4` gives 70, while `B4` gives 71 | only a `b` after the letter is a flat: `b4` is 71 | high, not executed | PolyphoneKeys.LowerCaseBIsFlat | PolyphoneKeys.NaturalNote |
