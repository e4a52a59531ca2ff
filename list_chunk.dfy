/** `ListChunk` of wavfile.py: a four-byte list type followed by sub-chunks
    that obey the same size-and-pad layout as top-level chunks. */
module ListChunk {
  import opened Results
  import opened Bytes
  import opened Riff

  datatype SubChunk = SubChunk(tag: Tag, data: seq<byte>)

  /** The `type_id` and `subchunks` attributes of a parsed list chunk. */
  datatype ListData = ListData(typeId: Tag, subchunks: seq<SubChunk>)

  /** How far the cursor moves past a sub-chunk whose size field holds
      `size`: the header, the payload and one pad byte when Python's
      `size % 2` is 1, which it also is for an odd negative size. */
  function Advance(size: int): (n: int)
    ensures size > -8 ==> n >= 1
    ensures size <= -8 ==> n <= 0
    ensures size >= 0 ==> n == NextOffset(0, size)
  {
    8 + size + (if size % 2 == 1 then 1 else 0)
  }

  /** The payload slice `s[at + 8 : at + 8 + size]`: cut short by the end of
      `s`, and empty for a negative size above -8, whose stop lies before
      its start. */
  function SubData(s: seq<byte>, at: nat, size: int): (r: seq<byte>)
    requires at + 8 <= |s|
    ensures size < 0 ==> r == []
    ensures size >= 0 ==> r == s[at + 8 .. Min(at + 8 + size, |s|)]
  {
    if size < 0 then [] else s[at + 8 .. Min(at + 8 + size, |s|)]
  }

  /** The sub-chunk walk over `rest`, the bytes from the cursor to the end
      of the payload: stop once nothing is left; a header cut short is a
      struct.error; the size is read SIGNED (`<l`); a size that does not
      move the cursor forward is refused; otherwise the sub-chunk is the tag
      and the payload slice, and the walk goes on after it. */
  function Walk(rest: seq<byte>): (r: Result<seq<SubChunk>, WavError>)
    decreases |rest|
  {
    if rest == [] then Ok([])
    else if |rest| < 8 then Err(StructError)
    else
      var size := I32At(rest, 4);
      if size <= -8 then Err(StalledSubchunk)
      else
        var tail :- Walk(rest[Min(Advance(size), |rest|)..]);
        Ok([SubChunk(rest[..4], SubData(rest, 0, size))] + tail)
  }

  /** `ListChunk._parse`: the base parse (`<4s`) needs four bytes, else
      ParseError; then the walk starts at offset 4. */
  function DecodeList(data: seq<byte>): (r: Result<ListData, WavError>)
    ensures |data| < 4 ==> r == Err(ParseError)
    ensures |data| >= 4 ==> (r.Ok? <==> Walk(data[4..]).Ok?)
    ensures r.Ok? ==> r.value.typeId == data[..4] && r.value.subchunks == Walk(data[4..]).value
  {
    if |data| < 4 then Err(ParseError)
    else
      var subs :- Walk(data[4..]);
      Ok(ListData(data[..4], subs))
  }

  /** `ListChunk._parse`: the base parse, then the sub-chunk loop. */
  method ParseList(data: seq<byte>) returns (r: Result<ListData, WavError>)
    ensures r == DecodeList(data)
  {
    if |data| < 4 {
      return Err(ParseError);
    }
    var subchunks :- ReadSubchunks(data);
    return Ok(ListData(data[..4], subchunks));
  }

  /** The loop of `ListChunk._parse`, advancing `pos` from offset 4 and
      appending to `subchunks`. */
  method ReadSubchunks(data: seq<byte>) returns (r: Result<seq<SubChunk>, WavError>)
    requires 4 <= |data|
    ensures r == Walk(data[4..])
  {
    var pos: nat := 4;
    var subchunks: seq<SubChunk> := [];
    PrependNothing(Walk(data[4..]));
    while pos < |data|
      invariant 4 <= pos
      invariant WalkPending(data, pos, subchunks)
      decreases |data| - pos
    {
      ParseFails(data, pos, subchunks);
      if |data| < pos + 8 {
        return Err(StructError);
      }
      var size := I32At(data, pos + 4);
      if size <= -8 {
        return Err(StalledSubchunk);
      }
      var sub := SubChunk(data[pos..pos + 4], SubData(data, pos, size));
      ParseStep(data, pos, subchunks, size, sub);
      subchunks := subchunks + [sub];
      pos := pos + Advance(size);
    }
    ParseDone(data, pos, subchunks);
    return Ok(subchunks);
  }

  /** The loop invariant of `ReadSubchunks`: the walk from offset 4 is the
      sub-chunks found so far followed by the walk from the cursor. */
  predicate WalkPending(data: seq<byte>, pos: nat, found: seq<SubChunk>)
    requires 4 <= |data|
  {
    Walk(data[4..]) == Prepend(found, Walk(data[Min(pos, |data|)..]))
  }

  /** The loop invariant of `ReadSubchunks` carries over one sub-chunk. */
  lemma ParseStep(data: seq<byte>, pos: nat, found: seq<SubChunk>, size: int, sub: SubChunk)
    requires 4 <= pos && pos + 8 <= |data| && size == I32At(data, pos + 4) && size > -8
    requires sub == SubChunk(data[pos..pos + 4], SubData(data, pos, size))
    requires WalkPending(data, pos, found)
    ensures WalkPending(data, pos + Advance(size), found + [sub])
  {
    assert Min(pos, |data|) == pos;
    WalkFrom(data, pos, size, sub);
    PrependTwice(found, [sub], Walk(data[Min(pos + Advance(size), |data|)..]));
  }

  /** Under the loop invariant, a header cut short or a size of -8 or less
      at the cursor fails the whole parse with that error. */
  lemma ParseFails(data: seq<byte>, pos: nat, found: seq<SubChunk>)
    requires 4 <= pos < |data|
    requires WalkPending(data, pos, found)
    ensures |data| < pos + 8 ==> Walk(data[4..]) == Err(StructError)
    ensures pos + 8 <= |data| && I32At(data, pos + 4) <= -8 ==> Walk(data[4..]) == Err(StalledSubchunk)
  {
    var rest := data[pos..];
    assert Min(pos, |data|) == pos;
    if pos + 8 <= |data| {
      assert rest[4..8] == data[pos + 4..pos + 8];
      assert I32At(rest, 4) == I32At(data, pos + 4);
    }
  }

  /** Under the loop invariant, a cursor at or past the end completes the
      parse with the sub-chunks found. */
  lemma ParseDone(data: seq<byte>, pos: nat, found: seq<SubChunk>)
    requires 4 <= |data| && |data| <= pos
    requires WalkPending(data, pos, found)
    ensures Walk(data[4..]) == Ok(found)
  {
    assert data[Min(pos, |data|)..] == [];
    assert found + [] == found;
  }

  /** One step of the walk, told in cursor terms: a whole header at `pos`
      with a size above -8 yields its sub-chunk and moves the cursor on. */
  lemma WalkFrom(data: seq<byte>, pos: nat, size: int, sub: SubChunk)
    requires pos + 8 <= |data| && size == I32At(data, pos + 4) && size > -8
    requires sub == SubChunk(data[pos..pos + 4], SubData(data, pos, size))
    ensures Walk(data[pos..]) == Prepend([sub], Walk(data[Min(pos + Advance(size), |data|)..]))
  {
    var rest := data[pos..];
    assert rest[4..8] == data[pos + 4..pos + 8];
    assert I32At(rest, 4) == size;
    assert rest[..4] == data[pos..pos + 4];
    assert SubData(rest, 0, size) == SubData(data, pos, size);
    assert rest[Min(Advance(size), |rest|)..] == data[Min(pos + Advance(size), |data|)..];
  }

  /** The bytes of sub-chunks laid out one after the other. */
  function EncodeSubchunks(subs: seq<SubChunk>): (r: seq<byte>)
    requires forall k | 0 <= k < |subs| :: |subs[k].data| <= I32_MAX
  {
    if subs == [] then [] else Record(subs[0].tag, subs[0].data) + EncodeSubchunks(subs[1..])
  }

  /** The walk over a record followed by more bytes: its sub-chunk comes
      first, then whatever the walk finds after it. */
  lemma WalkAtRecord(s: SubChunk, post: seq<byte>)
    requires |s.data| <= I32_MAX
    ensures Walk(Record(s.tag, s.data) + post) == Prepend([s], Walk(post))
  {
    var rec := Record(s.tag, s.data);
    var rest := rec + post;
    var n := |s.data|;
    assert rest[4..8] == rec[4..8];
    assert I32At(rest, 4) == n;
    assert rest[..4] == s.tag;
    assert rest[8..8 + n] == rec[8..8 + n];
    assert rest[|rec|..] == post;
  }

  /** Walking encoded sub-chunks gives them back. */
  lemma {:induction false} WalkEncoded(subs: seq<SubChunk>)
    requires forall k | 0 <= k < |subs| :: |subs[k].data| <= I32_MAX
    ensures Walk(EncodeSubchunks(subs)) == Ok(subs)
  {
    if subs != [] {
      WalkAtRecord(subs[0], EncodeSubchunks(subs[1..]));
      WalkEncoded(subs[1..]);
      assert [subs[0]] + subs[1..] == subs;
    }
  }

  /** Parsing a list payload built from a type and sub-chunks gives them back. */
  lemma DecodeEncodedList(typeId: Tag, subs: seq<SubChunk>)
    requires forall k | 0 <= k < |subs| :: |subs[k].data| <= I32_MAX
    ensures DecodeList(typeId + EncodeSubchunks(subs)) == Ok(ListData(typeId, subs))
  {
    WalkEncoded(subs);
    assert (typeId + EncodeSubchunks(subs))[4..] == EncodeSubchunks(subs);
    assert (typeId + EncodeSubchunks(subs))[..4] == typeId;
  }
}
