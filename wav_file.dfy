/** The WAVE container of wavfile.py: the RIFF/WAVE header check, the chunk
    scan that fills `WavFile.chunks` and `WavFile._chunklist`, iteration in
    canonical order, serialisation and frame slicing. A file is its whole
    byte sequence and a cursor is an index into it. */
module WavContainer {
  import opened Results
  import opened Bytes
  import opened Riff
  import opened ChunkTable
  import FmtChunk
  import SmplChunk
  import ListChunk

  /** The outer RIFF chunk: its declared size, and the bytes it lets a reader
      see (the form type first, then the chunks). */
  datatype RiffHeader = RiffHeader(riffSize: nat, body: seq<byte>)

  /** The header check of `WavFile.__init__` (wavfile.py:344-355). */
  function ReadRiffHeader(file: seq<byte>): (r: Result<RiffHeader, WavError>)
    ensures r == Err(ParseError) <==> |file| < 8 || file[..4] != RIFF
    ensures r == Err(NotWave) <==>
      |file| >= 8 && file[..4] == RIFF && !(|file| >= 12 && U32At(file, 4) >= 4 && file[8..12] == WAVE)
    ensures r.Ok? ==> r.value.riffSize == U32At(file, 4) && r.value.body == file[8 .. Min(|file|, 8 + U32At(file, 4))]
  {
    if |file| < 8 || file[..4] != RIFF then Err(ParseError)
    else
      var size := U32At(file, 4);
      var body := file[8 .. Min(|file|, 8 + size)];
      if |body| < 4 || body[..4] != WAVE then Err(NotWave)
      else Ok(RiffHeader(size, body))
  }

  /** The chunks that the scan loop (wavfile.py:362-381) finds from body
      offset `pos` on: a header that does not fit ends the scan (EOFError),
      and a skip past the declared RIFF size fails (the RIFF chunk's seek
      raises RuntimeError). */
  function ScanChunks(body: seq<byte>, riffSize: nat, pos: nat): (r: Result<seq<Chunk>, WavError>)
    ensures r.Err? ==> r.error == SeekPastRiff
    ensures ReadChunk(body, pos).Err? ==> r == Ok([])
    ensures ReadChunk(body, pos).Ok? && NextOffset(pos, ReadChunk(body, pos).value.chunkSize) > riffSize ==>
      r == Err(SeekPastRiff)
    ensures r.Ok? && ReadChunk(body, pos).Ok? ==> r.value != [] && r.value[0] == ReadChunk(body, pos).value
    decreases |body| - pos
  {
    match ReadChunk(body, pos)
    case Err(_) => Ok([])
    case Ok(c) =>
      var next := NextOffset(pos, c.chunkSize);
      if next > riffSize then Err(SeekPastRiff)
      else
        var rest :- ScanChunks(body, riffSize, next);
        Ok([c] + rest)
  }

  /** The arrival list of a successfully opened file (wavfile.py:343-384):
      the header must be RIFF/WAVE, the scan must stay inside the RIFF chunk,
      and a `fmt ` and a `data` chunk must be present. */
  function ParseWav(file: seq<byte>): (r: Result<seq<Chunk>, WavError>)
    ensures ReadRiffHeader(file).Err? ==> r == Err(ReadRiffHeader(file).error)
    ensures r.Ok? ==> FirstNamed(r.value, FMT).Some? && FirstNamed(r.value, DATA).Some?
    ensures r.Ok? ==> (ReadRiffHeader(file).Ok? &&
      r == ScanChunks(ReadRiffHeader(file).value.body, ReadRiffHeader(file).value.riffSize, 4))
    ensures ReadRiffHeader(file).Ok? ==>
      var s := ScanChunks(ReadRiffHeader(file).value.body, ReadRiffHeader(file).value.riffSize, 4);
      r == if s.Err? then Err(s.error)
           else if FirstNamed(s.value, FMT).Some? && FirstNamed(s.value, DATA).Some? then Ok(s.value)
           else Err(ParseError)
  {
    var h :- ReadRiffHeader(file);
    var cs :- ScanChunks(h.body, h.riffSize, 4);
    KnownLookup(cs, FMT);
    KnownLookup(cs, DATA);
    if FMT !in Table(cs) || DATA !in Table(cs) then Err(ParseError) else Ok(cs)
  }

  /** An upper-case LIST chunk whose payload decodes with type id INFO. */
  predicate IsInfoList(c: Chunk) {
    c.name == LIST && ListChunk.DecodeList(c.data).Ok? && ListChunk.DecodeList(c.data).value.typeId == INFO
  }

  /** The chunks the last loop of `__iter__` yields in arrival position. */
  predicate KeptInPlace(c: Chunk) {
    c.name != FMT && !IsInfoList(c)
  }

  /** The error of the first LIST chunk whose payload does not decode: asking
      such a chunk for its `type_id` raises. */
  function FirstListFailure(lists: seq<Chunk>): (e: Option<WavError>)
    ensures e.None? <==> forall c | c in lists :: ListChunk.DecodeList(c.data).Ok?
  {
    if lists == [] then None
    else match ListChunk.DecodeList(lists[0].data)
      case Err(x) => Some(x)
      case Ok(_) => FirstListFailure(lists[1..])
  }

  /** What iterating over a file yields (wavfile.py:414-431), as a function
      of the arrival list alone: the first `fmt ` chunk, then every INFO
      LIST chunk, then the arrival list without `fmt ` chunks and INFO LIST
      chunks. */
  function CanonicalOrder(cs: seq<Chunk>): Result<seq<Chunk>, WavError>
    requires FirstNamed(cs, FMT).Some?
  {
    match FirstListFailure(Filter(cs, HasName(LIST)))
    case Some(e) => Err(e)
    case None => Ok([FirstNamed(cs, FMT).value] + Filter(cs, IsInfoList) + Filter(cs, KeptInPlace))
  }

  /** The chunks laid out one after the other. */
  function SerializeChunks(cs: seq<Chunk>): seq<byte> {
    if cs == [] then [] else SerializeChunk(cs[0]) + SerializeChunks(cs[1..])
  }

  /** Every chunk is written padded to an even length, so the chunks
      together take an even number of bytes. */
  lemma {:induction false} SerializedEven(cs: seq<Chunk>)
    ensures |SerializeChunks(cs)| % 2 == 0
  {
    if cs != [] {
      SerializedEven(cs[1..]);
      EvenJoin(SerializeChunk(cs[0]), SerializeChunks(cs[1..]));
    }
  }

  lemma EvenJoin<T>(a: seq<T>, b: seq<T>)
    requires |a| % 2 == 0 && |b| % 2 == 0
    ensures |a + b| % 2 == 0
  {
  }

  /** `WavFile.__str__` (wavfile.py:408-412): the total size is packed as a
      signed 32-bit value, so a body above 2^31 - 5 bytes fails. */
  function SerializeFile(order: seq<Chunk>): (r: Result<seq<byte>, WavError>)
    ensures r.Err? <==> |SerializeChunks(order)| + 4 > I32_MAX
    ensures r.Err? ==> r.error == StructError
    ensures r.Ok? ==> |r.value| == 12 + |SerializeChunks(order)|
    ensures r.Ok? ==> r.value[..4] == RIFF && r.value[8..12] == WAVE && U32At(r.value, 4) == |r.value| - 8
    ensures r.Ok? ==> r.value[12..] == SerializeChunks(order)
  {
    var data := SerializeChunks(order);
    if |data| + 4 > I32_MAX then Err(StructError)
    else
      var size := PackI32(|data| + 4);
      PackI32Unsigned(|data| + 4);
      var r := RIFF + size + WAVE + data;
      assert r[4..8] == size;
      Ok(r)
  }

  /** The consecutive `fs`-byte slices of `data`; a short tail is dropped. */
  function Frames(data: seq<byte>, fs: nat): (r: seq<seq<byte>>)
    requires fs > 0
    ensures |r| * fs <= |data| < |r| * fs + fs
    decreases |data|
  {
    if |data| < fs then []
    else
      var rest := Frames(data[fs..], fs);
      assert (|rest| + 1) * fs == |rest| * fs + fs;
      [data[..fs]] + rest
  }

  /** One step of `Frames`, as the loop of `raw_frames` takes it. */
  lemma FramesStep(d: seq<byte>, fs: nat)
    requires 0 < fs <= |d|
    ensures Frames(d, fs) == [d[..fs]] + Frames(d[fs..], fs)
  {
  }

  /** Frame `i` is the slice at offset `i * fs`. */
  lemma {:induction false} FrameAt(data: seq<byte>, fs: nat, i: nat)
    requires fs > 0 && i < |Frames(data, fs)|
    ensures i * fs + fs <= |data|
    ensures Frames(data, fs)[i] == data[i * fs .. i * fs + fs]
    decreases i
  {
    FramesStep(data, fs);
    if i > 0 {
      var tail := data[fs..];
      FrameAt(tail, fs, i - 1);
      var off := (i - 1) * fs;
      assert off + fs == i * fs;
      assert tail[off .. off + fs] == data[fs + off .. fs + off + fs];
    }
  }

  lemma MulMonotone(a: int, b: int, fs: nat)
    requires a <= b
    ensures a * fs <= b * fs
  {
  }

  /** The number `k` with `k * fs <= n < k * fs + fs` is `n div fs`. */
  lemma FloorUnique(n: nat, k: nat, fs: nat)
    requires fs > 0 && k * fs <= n < k * fs + fs
    ensures k == n / fs
  {
    var q, m := n / fs, n % fs;
    assert n == q * fs + m && 0 <= m < fs;
    if k < q {
      assert (k + 1) * fs == k * fs + fs;
      MulMonotone(k + 1, q, fs);
    } else if k > q {
      MulMonotone(q + 1, k, fs);
    }
  }

  /** There are exactly `len(data) div fs` frames. */
  lemma FrameCount(data: seq<byte>, fs: nat)
    requires fs > 0
    ensures |Frames(data, fs)| == |data| / fs
  {
    FloorUnique(|data|, |Frames(data, fs)|, fs);
  }

  /** `frames` cuts `data` into consecutive slices of `fs` bytes from the
      start, as many as fit. */
  predicate SlicedBy(frames: seq<seq<byte>>, data: seq<byte>, fs: nat)
    requires fs > 0
  {
    && |frames| == |data| / fs
    && forall i | 0 <= i < |frames| :: i * fs + fs <= |data| && frames[i] == data[i * fs .. i * fs + fs]
  }

  /** `Frames` cuts the data that way. */
  lemma FramesSliced(data: seq<byte>, fs: nat)
    requires fs > 0
    ensures SlicedBy(Frames(data, fs), data, fs)
  {
    FrameCount(data, fs);
    forall i | 0 <= i < |Frames(data, fs)|
      ensures i * fs + fs <= |data| && Frames(data, fs)[i] == data[i * fs .. i * fs + fs]
    {
      FrameAt(data, fs, i);
    }
  }

  /** `self.fmt.frame_size`: channels times the sample width of the decoded
      `fmt ` chunk. */
  function FrameSizeOf(fmtData: seq<byte>): Result<int, WavError> {
    var f :- FmtChunk.DecodeFmt(fmtData);
    FmtChunk.FrameSize(f)
  }

  /** What `raw_frames` yields (wavfile.py:479-487): the frame size comes from
      the `fmt ` chunk; a size of zero or less never ends the loop. */
  function FrameSlices(data: seq<byte>, fmtData: seq<byte>): (r: Result<seq<seq<byte>>, WavError>)
    ensures FrameSizeOf(fmtData).Err? ==> r == Err(FrameSizeOf(fmtData).error)
    ensures FrameSizeOf(fmtData).Ok? && FrameSizeOf(fmtData).value <= 0 ==> r == Err(EndlessFrames)
    ensures FrameSizeOf(fmtData).Ok? && FrameSizeOf(fmtData).value > 0 ==>
      r.Ok? && SlicedBy(r.value, data, FrameSizeOf(fmtData).value)
  {
    var fs :- FrameSizeOf(fmtData);
    if fs <= 0 then Err(EndlessFrames)
    else
      FramesSliced(data, fs);
      Ok(Frames(data, fs))
  }

  /** An opened WAVE file: the chunk dict and the arrival list. */
  class WavFile {
    /** `WavFile.chunks`: the first chunk of each known tag, a list per other tag. */
    var chunks: map<Tag, Entry>
    /** `WavFile._chunklist`: every chunk in arrival order, duplicates included. */
    var chunkList: seq<Chunk>

    ghost predicate Consistent()
      reads this
    {
      chunks == Table(chunkList)
    }

    /** What `__init__` establishes before it returns. */
    ghost predicate Valid()
      reads this
    {
      Consistent() && FMT in chunks && DATA in chunks && chunks[FMT].Single? && chunks[DATA].Single?
    }

    constructor Empty()
      ensures chunkList == [] && Consistent()
    {
      chunks := map[];
      chunkList := [];
    }

    /** The body of the scan loop for one chunk (wavfile.py:371-380). */
    method Append(c: Chunk)
      requires Consistent()
      modifies this
      ensures chunkList == old(chunkList) + [c]
      ensures chunks == AddChunk(old(chunks), c)
      ensures Consistent()
    {
      if c.name in KNOWN_CHUNKS {
        if c.name !in chunks {
          chunks := chunks[c.name := Single(c)];
        }
      } else {
        var earlier := if c.name in chunks && chunks[c.name].Many? then chunks[c.name].chunks else [];
        chunks := chunks[c.name := Many(earlier + [c])];
      }
      assert (chunkList + [c])[..|chunkList|] == chunkList;
      chunkList := chunkList + [c];
    }

    /** `has_chunk` (wavfile.py:433-436). */
    function HasChunk(id: seq<byte>): (b: bool)
      reads this
      requires Consistent()
      ensures b <==> exists c | c in chunkList :: c.name == id
    {
      TableHas(chunkList, id);
      id in chunks
    }

    /** The `fmt` property (wavfile.py:438-444): the first `fmt ` chunk. */
    function Fmt(): (r: Option<Chunk>)
      reads this
      requires Consistent()
      ensures r == FirstNamed(chunkList, FMT)
    {
      KnownLookup(chunkList, FMT);
      if FMT in chunks then Some(chunks[FMT].chunk) else None
    }

    /** The `smpl` property (wavfile.py:446-452): the first `smpl` chunk. */
    function Smpl(): (r: Option<Chunk>)
      reads this
      requires Consistent()
      ensures r == FirstNamed(chunkList, SMPL)
    {
      KnownLookup(chunkList, SMPL);
      if SMPL in chunks then Some(chunks[SMPL].chunk) else None
    }

    /** The `loops` property (wavfile.py:454-459): no loops without a `smpl`
      chunk, otherwise the loop records of the first one. */
    function Loops(): (r: Result<seq<SmplChunk.Loop>, WavError>)
      reads this
      requires Consistent()
      ensures FirstNamed(chunkList, SMPL).None? ==> r == Ok([])
      ensures FirstNamed(chunkList, SMPL).Some? ==>
        var d := FirstNamed(chunkList, SMPL).value.data;
        && (r.Err? <==> SmplChunk.DecodeSmpl(d).Err?)
        && (r.Ok? ==> |r.value| == SmplChunk.DecodeSmpl(d).value.header.sampleLoops || (r.value == [] && SmplChunk.DecodeSmpl(d).value.header.sampleLoops <= 0))
        && (r.Ok? ==> forall i | 0 <= i < |r.value| ::
              SmplChunk.LoopAt(d, SmplChunk.HEADER_SIZE + SmplChunk.LOOP_SIZE * i) == Ok(r.value[i]))
    {
      KnownLookup(chunkList, SMPL);
      if SMPL !in chunks then Ok([])
      else
        var s :- SmplChunk.DecodeSmpl(chunks[SMPL].chunk.data);
        Ok(s.loops)
    }

    /** `__iter__` (wavfile.py:414-431), computed from the dict as the source
      does: `chunks['fmt ']`, the INFO chunks of `chunks.get('LIST', [])`,
      then the arrival list. */
    function Iterate(): (r: Result<seq<Chunk>, WavError>)
      reads this
      requires Valid()
      ensures FirstNamed(chunkList, FMT).Some?
      ensures r == CanonicalOrder(chunkList)
    {
      KnownLookup(chunkList, FMT);
      OtherLookup(chunkList, LIST);
      var lists := if LIST in chunks then chunks[LIST].chunks else [];
      FilterNarrow(chunkList, HasName(LIST), IsInfoList);
      match FirstListFailure(lists)
      case Some(e) => Err(e)
      case None => Ok([chunks[FMT].chunk] + Filter(lists, IsInfoList) + Filter(chunkList, KeptInPlace))
    }

    /** `__str__` (wavfile.py:408-412): the chunks in canonical order inside a
      RIFF/WAVE header. */
    function Serialize(): (r: Result<seq<byte>, WavError>)
      reads this
      requires Valid()
      ensures Iterate().Err? ==> r == Err(Iterate().error)
      ensures Iterate().Ok? ==> r == SerializeFile(Iterate().value)
      ensures r.Ok? ==> |r.value| >= 12 && r.value[..4] == RIFF && r.value[8..12] == WAVE && U32At(r.value, 4) == |r.value| - 8
    {
      var order := Iterate();
      if order.Err? then Err(order.error) else SerializeFile(order.value)
    }

    /** `raw_frames` (wavfile.py:479-487), stepping `pos` by the frame size. */
    method RawFrames() returns (r: Result<seq<seq<byte>>, WavError>)
      requires Valid()
      ensures r == FrameSlices(chunks[DATA].chunk.data, chunks[FMT].chunk.data)
    {
      var data := chunks[DATA].chunk.data;
      var size := FrameSizeOf(chunks[FMT].chunk.data);
      if size.Err? {
        return Err(size.error);
      }
      var fs := size.value;
      if fs <= 0 {
        return Err(EndlessFrames);
      }
      var frames: seq<seq<byte>> := [];
      var pos := 0;
      while pos <= |data| - fs
        invariant 0 <= pos <= |data|
        invariant Frames(data, fs) == frames + Frames(data[pos..], fs)
        decreases |data| - pos
      {
        FramesStep(data[pos..], fs);
        assert data[pos..][fs..] == data[pos + fs..];
        assert data[pos..][..fs] == data[pos..pos + fs];
        frames := frames + [data[pos..pos + fs]];
        pos := pos + fs;
      }
      assert Frames(data[pos..], fs) == [];
      assert frames + [] == frames;
      return Ok(frames);
    }
  }

  /** `WavFile.__init__` (wavfile.py:343-384): check the header, then scan
      the chunks one at a time into a fresh object. */
  method Open(file: seq<byte>) returns (r: Result<WavFile, WavError>)
    ensures r.Ok? <==> ParseWav(file).Ok?
    ensures r.Err? ==> r.error == ParseWav(file).error
    ensures r.Ok? ==> fresh(r.value) && r.value.Valid() && r.value.chunkList == ParseWav(file).value
  {
    var header := ReadRiffHeader(file);
    if header.Err? {
      return Err(header.error);
    }
    var body, riffSize := header.value.body, header.value.riffSize;
    var w := new WavFile.Empty();
    var pos: nat := 4;
    PrependNothing(ScanChunks(body, riffSize, pos));
    while true
      invariant w.Consistent()
      invariant ScanChunks(body, riffSize, 4) == Prepend(w.chunkList, ScanChunks(body, riffSize, pos))
      decreases |body| - pos
    {
      var next := ReadChunk(body, pos);
      if next.Err? {
        break;
      }
      var c := next.value;
      var after := NextOffset(pos, c.chunkSize);
      if after > riffSize {
        return Err(SeekPastRiff);
      }
      PrependTwice(w.chunkList, [c], ScanChunks(body, riffSize, after));
      w.Append(c);
      pos := after;
    }
    assert w.chunkList + [] == w.chunkList;
    KnownLookup(w.chunkList, FMT);
    KnownLookup(w.chunkList, DATA);
    if FMT !in w.chunks || DATA !in w.chunks {
      return Err(ParseError);
    }
    return Ok(w);
  }
}
