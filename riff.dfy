/** The RIFF chunk envelope of wavfile.py: a four-byte tag, a little-endian
    u32 size, the payload, and one zero pad byte after an odd-sized payload.
    Also the tag registry that `chunk_factory` dispatches on. */
module Riff {
  import opened Results
  import opened Bytes

  /** A four-character chunk tag, as bytes. */
  type Tag = s: seq<byte> | |s| == 4 witness [32, 32, 32, 32]

  /** A chunk payload: its length fits the u32 size field. */
  type Payload = s: seq<byte> | |s| < 0x1_0000_0000

  const SPACE: byte := 0x20

  const RIFF: Tag := [0x52, 0x49, 0x46, 0x46]        // "RIFF"
  const WAVE: Tag := [0x57, 0x41, 0x56, 0x45]        // "WAVE"
  const INFO: Tag := [0x49, 0x4E, 0x46, 0x4F]        // "INFO"
  const CUE: Tag := [0x63, 0x75, 0x65, 0x20]         // "cue "
  const DATA: Tag := [0x64, 0x61, 0x74, 0x61]        // "data"
  const FACT: Tag := [0x66, 0x61, 0x63, 0x74]        // "fact"
  const FMT: Tag := [0x66, 0x6D, 0x74, 0x20]         // "fmt "
  const INST: Tag := [0x69, 0x6E, 0x73, 0x74]        // "inst"
  const LIST_LOWER: Tag := [0x6C, 0x69, 0x73, 0x74]  // "list"
  const LIST: Tag := [0x4C, 0x49, 0x53, 0x54]        // "LIST"
  const PLST: Tag := [0x70, 0x6C, 0x73, 0x74]        // "plst"
  const SMPL: Tag := [0x73, 0x6D, 0x70, 0x6C]        // "smpl"
  const WAVL: Tag := [0x77, 0x61, 0x76, 0x6C]        // "wavl"

  /** KNOWN_CHUNKS: at most one chunk of each of these tags is kept.
      Upper-case "LIST" is not among them. */
  const KNOWN_CHUNKS: set<Tag> := {CUE, DATA, FACT, FMT, INST, LIST_LOWER, PLST, SMPL, WAVL}

  /** The exceptions of wavfile.py, plus two conditions under which the source
      does not finish or walks backwards (see README). */
  datatype WavError =
    | EndOfStream            // EOFError
    | ParseError             // wavfile.ParseError
    | NotWave                // wavfile.Error: form type is not WAVE
    | NameTooLong            // ValueError from the name setter
    | StructError            // struct.error that the source lets escape
    | SeekPastRiff           // RuntimeError from chunk.Chunk.seek
    | UnsupportedCompression // wavfile.UnsupportedCompressionError
    | StalledSubchunk        // a LIST sub-chunk size of -8 or less
    | EndlessFrames          // raw_frames with a frame size <= 0

  /** A chunk as read from the stream: its tag, the size its header declares,
      and the payload bytes that could actually be read (pad excluded). */
  datatype Chunk = Chunk(name: Tag, chunkSize: nat, data: Payload)

  /** The payload holds every byte the header declares. */
  predicate Complete(c: Chunk) {
    |c.data| == c.chunkSize
  }

  function Min(a: int, b: int): int { if a <= b then a else b }

  /** The `name` setter: longer than four bytes is refused, shorter is
      right-padded with spaces. */
  function SetName(name: seq<byte>): (r: Result<Tag, WavError>)
    ensures r.Err? <==> |name| > 4
    ensures r.Err? ==> r.error == NameTooLong
    ensures r.Ok? ==> r.value[..|name|] == name
    ensures r.Ok? ==> forall i | |name| <= i < 4 :: r.value[i] == SPACE
  {
    if |name| > 4 then Err(NameTooLong)
    else Ok(name + seq(4 - |name|, _ => SPACE))
  }

  /** A name that is already four bytes long is stored unchanged. */
  lemma SetNameKeepsTag(t: Tag)
    ensures SetName(t) == Ok(t)
  {
    assert t + seq(0, _ => SPACE) == t;
  }

  /** The number of pad bytes after a payload of n bytes. */
  function PadLength(n: nat): (p: nat)
    ensures p <= 1 && (n + p) % 2 == 0
    ensures p == 1 <==> n % 2 == 1
  {
    if n % 2 == 1 then 1 else 0
  }

  /** Where the next chunk starts, once the chunk at `pos` with a declared size
      of `size` is skipped (header, payload and pad). */
  function NextOffset(pos: nat, size: nat): (next: nat)
    ensures next >= pos + 8 + size && (next - pos) % 2 == 0
  {
    pos + 8 + size + PadLength(size)
  }

  /** `chunk_factory` with `WavChunk.__init__` and the later read of the
      payload, over the RIFF body `body` at cursor `pos`: fewer than four tag
      bytes or fewer than four size bytes is EOFError; the payload is what
      remains of the declared size before the body ends. */
  function ReadChunk(body: seq<byte>, pos: nat): (r: Result<Chunk, WavError>)
    ensures r.Err? <==> |body| < pos + 8
    ensures r.Err? ==> r.error == EndOfStream
    ensures r.Ok? ==> r.value.name == body[pos..pos + 4] && r.value.chunkSize == U32At(body, pos + 4)
    ensures r.Ok? ==> r.value.data == body[pos + 8 .. Min(pos + 8 + r.value.chunkSize, |body|)]
    ensures r.Ok? && pos + 8 + r.value.chunkSize <= |body| ==> Complete(r.value)
  {
    if |body| < pos + 4 then Err(EndOfStream)        // short tag read
    else if |body| < pos + 8 then Err(EndOfStream)   // short size read
    else
      var size := U32At(body, pos + 4);
      Ok(Chunk(body[pos..pos + 4], size, body[pos + 8 .. Min(pos + 8 + size, |body|)]))
  }

  /** The `size` property: the declared size until the payload has been
      loaded, the payload's length afterwards. */
  function Size(c: Chunk, loaded: bool): (n: nat)
    ensures !loaded ==> n == c.chunkSize
    ensures Complete(c) ==> n == c.chunkSize
    ensures loaded ==> n == |c.data|
  {
    if loaded then |c.data| else c.chunkSize
  }

  /** One record on disk: tag, u32 size, payload, one zero byte iff the
      payload is odd. Top-level chunks and LIST sub-chunks share it. */
  function Record(tag: Tag, data: Payload): (r: seq<byte>)
    ensures |r| == 8 + |data| + PadLength(|data|) && |r| % 2 == 0
    ensures r[..4] == tag && U32At(r, 4) == |data|
    ensures r[8..8 + |data|] == data
    ensures |data| % 2 == 1 ==> r[|r| - 1] == 0
  {
    var size := PackU32(|data|);
    var r := tag + size + data + seq(PadLength(|data|), _ => 0);
    assert r[4..8] == size == size[0..4];
    r
  }

  /** `WavChunk.__str__`: the chunk as it is written back, sized by its
      payload (the declared size is not used). */
  function SerializeChunk(c: Chunk): seq<byte> {
    Record(c.name, c.data)
  }

  /** Reading back a serialised chunk, wherever it sits in a body, gives the
      chunk with a declared size equal to its payload, and the cursor lands
      just after it. */
  lemma ReadSerialized(c: Chunk, pre: seq<byte>, post: seq<byte>)
    ensures ReadChunk(pre + SerializeChunk(c) + post, |pre|) == Ok(c.(chunkSize := |c.data|))
    ensures NextOffset(|pre|, |c.data|) == |pre| + |SerializeChunk(c)|
  {
    var s := SerializeChunk(c);
    var body := pre + s + post;
    var p := |pre|;
    assert body[p..p + 4] == s[..4];
    assert body[p + 4..p + 8] == s[4..8];
    assert body[p + 8..p + 8 + |c.data|] == s[8..8 + |c.data|];
  }

  /** The class `_chunk_registry` picks for a tag. */
  datatype ChunkClass = WavChunkClass | CueChunkClass | FmtChunkClass | SmplChunkClass | ListChunkClass

  /** `_chunk_registry.get(fourcc, _chunk_registry[None])`: an exact tag match,
      with the generic chunk as the fallback. */
  function ChunkClassOf(tag: Tag): (k: ChunkClass)
    ensures k == CueChunkClass <==> tag == CUE
    ensures k == FmtChunkClass <==> tag == FMT
    ensures k == SmplChunkClass <==> tag == SMPL
    ensures k == ListChunkClass <==> tag == LIST || tag == LIST_LOWER
    ensures k == WavChunkClass <==> tag !in {CUE, FMT, SMPL, LIST, LIST_LOWER}
  {
    if tag == CUE then CueChunkClass
    else if tag == FMT then FmtChunkClass
    else if tag == SMPL then SmplChunkClass
    else if tag == LIST || tag == LIST_LOWER then ListChunkClass
    else WavChunkClass
  }
}
