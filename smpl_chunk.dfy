/** `SmplChunk` of wavfile.py: a nine-field `<9l` header followed by
    `sample_loops` loop records of six `<l` fields each. */
module SmplChunk {
  import opened Results
  import opened Bytes
  import opened Riff

  const HEADER_SIZE: nat := 36   // struct.calcsize('<9l')
  const LOOP_SIZE: nat := 24     // struct.calcsize('<6l')

  datatype SmplHeader = SmplHeader(
    manufacturer: int,
    product: int,
    samplePeriod: int,
    midiUnityNote: int,
    midiPitchFraction: int,
    smpteFormat: int,
    smpteOffset: int,
    sampleLoops: int,
    samplerData: int)

  datatype Loop = Loop(cuePointId: int, loopType: int, start: int, end: int, fraction: int, playCount: int)

  datatype Smpl = Smpl(header: SmplHeader, loops: seq<Loop>)

  /** Every value fits an `l` field. */
  predicate AllI32(xs: seq<int>) {
    forall i | 0 <= i < |xs| :: I32_MIN <= xs[i] <= I32_MAX
  }

  /** `_unpack_to_dict` over an `l` format: n consecutive little-endian i32
      fields from `offset`, or struct.error when the payload is too short. */
  function UnpackLongs(data: seq<byte>, offset: nat, n: nat): (r: Result<seq<int>, WavError>)
    ensures r.Err? <==> |data| < offset + 4 * n
    ensures r.Err? ==> r.error == StructError
    ensures r.Ok? ==> |r.value| == n && forall i | 0 <= i < n :: r.value[i] == I32At(data, offset + 4 * i)
  {
    if |data| < offset + 4 * n then Err(StructError)
    else Ok(seq(n, i requires 0 <= i < n => I32At(data, offset + 4 * i)))
  }

  /** `struct.pack` of i32 fields, back to back: the inverse of `UnpackLongs`. */
  function PackLongs(xs: seq<int>): (r: seq<byte>)
    requires AllI32(xs)
    ensures |r| == 4 * |xs|
  {
    if xs == [] then [] else PackI32(xs[0]) + PackLongs(xs[1..])
  }

  /** Field k of packed fields reads back as the k-th value. */
  lemma {:induction false} PackLongsAt(xs: seq<int>, k: nat)
    requires AllI32(xs)
    requires k < |xs|
    ensures I32At(PackLongs(xs), 4 * k) == xs[k]
  {
    I32AtAppend(PackI32(xs[0]), PackLongs(xs[1..]), 4 * k);
    if k > 0 {
      PackLongsAt(xs[1..], k - 1);
    }
  }

  /** Unpacking packed fields gives the fields back. */
  lemma UnpackPackLongs(xs: seq<int>)
    requires AllI32(xs)
    ensures UnpackLongs(PackLongs(xs), 0, |xs|) == Ok(xs)
  {
    var r := UnpackLongs(PackLongs(xs), 0, |xs|);
    assert r.Ok?;
    forall k | 0 <= k < |xs| ensures r.value[k] == xs[k] {
      PackLongsAt(xs, k);
    }
    assert r.value == xs;
  }

  /** The header fields in their `<9l` order. */
  function HeaderFields(h: SmplHeader): seq<int> {
    [h.manufacturer, h.product, h.samplePeriod, h.midiUnityNote, h.midiPitchFraction,
     h.smpteFormat, h.smpteOffset, h.sampleLoops, h.samplerData]
  }

  /** The loop fields in their `<6l` order. */
  function LoopFields(l: Loop): seq<int> {
    [l.cuePointId, l.loopType, l.start, l.end, l.fraction, l.playCount]
  }

  /** `WavChunk._parse` with `<9l`: a payload shorter than 36 bytes is ParseError. */
  function DecodeHeader(data: seq<byte>): (r: Result<SmplHeader, WavError>)
    ensures r.Err? <==> |data| < HEADER_SIZE
    ensures r.Err? ==> r.error == ParseError
    ensures r.Ok? ==> forall i | 0 <= i < 9 :: HeaderFields(r.value)[i] == I32At(data, 4 * i)
  {
    match UnpackLongs(data, 0, 9)
    case Err(_) => Err(ParseError)
    case Ok(v) => Ok(SmplHeader(v[0], v[1], v[2], v[3], v[4], v[5], v[6], v[7], v[8]))
  }

  /** One `<6l` loop record at `offset`, or struct.error. */
  function LoopAt(data: seq<byte>, offset: nat): (r: Result<Loop, WavError>)
    ensures r.Err? <==> |data| < offset + LOOP_SIZE
    ensures r.Err? ==> r.error == StructError
    ensures r.Ok? ==> forall i | 0 <= i < 6 :: LoopFields(r.value)[i] == I32At(data, offset + 4 * i)
  {
    var v :- UnpackLongs(data, offset, 6);
    Ok(Loop(v[0], v[1], v[2], v[3], v[4], v[5]))
  }

  /** `SmplChunk._parse` AS WRITTEN: every one of the `sample_loops` records
      is unpacked at the fixed offset 36, so each is a copy of the first; a
      count of zero or less gives no loops. */
  function DecodeSmplAsWritten(data: seq<byte>): (r: Result<Smpl, WavError>)
    ensures |data| < HEADER_SIZE ==> r == Err(ParseError)
    ensures |data| >= HEADER_SIZE ==>
              (r.Err? <==> I32At(data, 28) > 0 && |data| < HEADER_SIZE + LOOP_SIZE)
    ensures |data| >= HEADER_SIZE && r.Err? ==> r.error == StructError
    ensures r.Ok? ==> r.value.header == DecodeHeader(data).value
    ensures r.Ok? ==> |r.value.loops| == if r.value.header.sampleLoops <= 0 then 0 else r.value.header.sampleLoops
  {
    var h :- DecodeHeader(data);
    assert h.sampleLoops == HeaderFields(h)[7] == I32At(data, 28);
    if h.sampleLoops <= 0 then Ok(Smpl(h, []))
    else
      var first :- LoopAt(data, HEADER_SIZE);
      Ok(Smpl(h, seq(h.sampleLoops, _ => first)))
  }

  /** The loop of `SmplChunk._parse`, appending one record per iteration. */
  method ParseSmpl(data: seq<byte>) returns (r: Result<Smpl, WavError>)
    ensures r == DecodeSmplAsWritten(data)
  {
    var header := DecodeHeader(data);
    if header.Err? {
      return Err(header.error);
    }
    var h := header.value;
    var loops: seq<Loop> := [];
    var i := 0;
    while i < h.sampleLoops
      invariant 0 <= i && |loops| == i
      invariant i <= if h.sampleLoops > 0 then h.sampleLoops else 0
      invariant i > 0 ==> LoopAt(data, HEADER_SIZE).Ok?
      invariant forall k | 0 <= k < i :: loops[k] == LoopAt(data, HEADER_SIZE).value
    {
      var record := LoopAt(data, HEADER_SIZE);
      if record.Err? {
        return Err(record.error);
      }
      loops := loops + [record.value];
      i := i + 1;
    }
    if h.sampleLoops > 0 {
      var first := LoopAt(data, HEADER_SIZE).value;
      var copies := seq(h.sampleLoops, _ => first);
      assert loops == copies;
      assert DecodeSmplAsWritten(data) == Ok(Smpl(h, copies));
    } else {
      assert DecodeSmplAsWritten(data) == Ok(Smpl(h, []));
    }
    return Ok(Smpl(h, loops));
  }

  /** As written, every decoded loop equals the first one. */
  lemma AsWrittenRepeatsFirstLoop(data: seq<byte>, i: nat)
    requires DecodeSmplAsWritten(data).Ok?
    requires i < |DecodeSmplAsWritten(data).value.loops|
    ensures DecodeSmplAsWritten(data).value.loops[i] == LoopAt(data, HEADER_SIZE).value
  {
  }

  /** `SmplChunk._parse` AS INTENDED: record i is read at offset 36 + 24 * i,
      and a payload too short for `sample_loops` records fails. */
  function DecodeSmpl(data: seq<byte>): (r: Result<Smpl, WavError>)
    ensures |data| < HEADER_SIZE ==> r == Err(ParseError)
    ensures r.Ok? ==> r.value.header == DecodeHeader(data).value
    ensures r.Ok? ==> |r.value.loops| == if r.value.header.sampleLoops <= 0 then 0 else r.value.header.sampleLoops
    ensures r.Ok? ==> forall i | 0 <= i < |r.value.loops| ::
                        LoopAt(data, HEADER_SIZE + LOOP_SIZE * i) == Ok(r.value.loops[i])
    ensures |data| >= HEADER_SIZE && I32At(data, 28) > 0 ==>
              (r.Err? <==> |data| < HEADER_SIZE + LOOP_SIZE * I32At(data, 28))
    ensures |data| >= HEADER_SIZE && I32At(data, 28) <= 0 ==> r.Ok?
    ensures |data| >= HEADER_SIZE && r.Err? ==> r.error == StructError
  {
    var h :- DecodeHeader(data);
    assert h.sampleLoops == HeaderFields(h)[7] == I32At(data, 28);
    if h.sampleLoops <= 0 then Ok(Smpl(h, []))
    else if |data| < HEADER_SIZE + LOOP_SIZE * h.sampleLoops then Err(StructError)
    else Ok(Smpl(h, seq(h.sampleLoops, i requires 0 <= i < h.sampleLoops =>
                          LoopAt(data, HEADER_SIZE + LOOP_SIZE * i).value)))
  }

  /** The flattened fields of a loop list. */
  function LoopsFields(loops: seq<Loop>): (r: seq<int>)
    ensures |r| == 6 * |loops|
  {
    if loops == [] then [] else LoopFields(loops[0]) + LoopsFields(loops[1..])
  }

  lemma {:induction false} LoopsFieldsAt(loops: seq<Loop>, i: nat, j: nat)
    requires i < |loops| && j < 6
    ensures LoopsFields(loops)[6 * i + j] == LoopFields(loops[i])[j]
  {
    if i > 0 {
      LoopsFieldsAt(loops[1..], i - 1, j);
    }
  }

  predicate LoopInRange(l: Loop) {
    AllI32(LoopFields(l))
  }

  predicate HeaderInRange(h: SmplHeader) {
    AllI32(HeaderFields(h))
  }

  /** The fields of a header and its loops all fit `l` fields. */
  lemma FieldsInRange(h: SmplHeader, loops: seq<Loop>)
    requires HeaderInRange(h) && forall i | 0 <= i < |loops| :: LoopInRange(loops[i])
    ensures AllI32(HeaderFields(h) + LoopsFields(loops))
  {
    LoopsInRange(loops);
    AllI32Join(HeaderFields(h), LoopsFields(loops));
  }

  lemma {:induction false} LoopsInRange(loops: seq<Loop>)
    requires forall i | 0 <= i < |loops| :: LoopInRange(loops[i])
    ensures AllI32(LoopsFields(loops))
  {
    if loops != [] {
      assert LoopInRange(loops[0]);
      LoopsInRange(loops[1..]);
      AllI32Join(LoopFields(loops[0]), LoopsFields(loops[1..]));
    }
  }

  lemma AllI32Join(a: seq<int>, b: seq<int>)
    requires AllI32(a) && AllI32(b)
    ensures AllI32(a + b)
  {
    forall k | 0 <= k < |a + b| ensures I32_MIN <= (a + b)[k] <= I32_MAX {
      if k >= |a| {
        assert (a + b)[k] == b[k - |a|];
      }
    }
  }

  /** A `smpl` payload holding a header and its loops (the source has no
      writer for it; it is the inverse `DecodeSmpl` is checked against). */
  function EncodeSmpl(h: SmplHeader, loops: seq<Loop>): (data: seq<byte>)
    requires HeaderInRange(h) && forall i | 0 <= i < |loops| :: LoopInRange(loops[i])
    ensures |data| == HEADER_SIZE + LOOP_SIZE * |loops|
  {
    FieldsInRange(h, loops);
    PackLongs(HeaderFields(h) + LoopsFields(loops))
  }

  /** The intended decoder reads back every loop of an encoded payload. */
  lemma DecodeEncodeSmpl(h: SmplHeader, loops: seq<Loop>)
    requires HeaderInRange(h) && forall i | 0 <= i < |loops| :: LoopInRange(loops[i])
    requires h.sampleLoops == |loops|
    ensures DecodeSmpl(EncodeSmpl(h, loops)) == Ok(Smpl(h, loops))
  {
    EncodedHeader(h, loops);
    if |loops| > 0 {
      var r := DecodeSmpl(EncodeSmpl(h, loops)).value;
      forall i | 0 <= i < |loops| ensures r.loops[i] == loops[i] {
        EncodedLoopAt(h, loops, i);
      }
      assert r.loops == loops;
    }
  }

  /** The header of an encoded payload reads back. */
  lemma EncodedHeader(h: SmplHeader, loops: seq<Loop>)
    requires HeaderInRange(h) && forall i | 0 <= i < |loops| :: LoopInRange(loops[i])
    ensures DecodeHeader(EncodeSmpl(h, loops)) == Ok(h)
  {
    var fields := HeaderFields(h) + LoopsFields(loops);
    var data := EncodeSmpl(h, loops);
    FieldsInRange(h, loops);
    forall k | 0 <= k < 9 ensures I32At(data, 4 * k) == HeaderFields(h)[k] {
      PackLongsAt(fields, k);
    }
    var d := DecodeHeader(data).value;
    assert HeaderFields(d) == HeaderFields(h);
  }

  /** Loop record i of an encoded payload reads back as loop i. */
  lemma EncodedLoopAt(h: SmplHeader, loops: seq<Loop>, i: nat)
    requires HeaderInRange(h) && forall i | 0 <= i < |loops| :: LoopInRange(loops[i])
    requires i < |loops|
    ensures LoopAt(EncodeSmpl(h, loops), HEADER_SIZE + LOOP_SIZE * i) == Ok(loops[i])
  {
    var fields := HeaderFields(h) + LoopsFields(loops);
    var data := EncodeSmpl(h, loops);
    FieldsInRange(h, loops);
    forall j | 0 <= j < 6 ensures I32At(data, HEADER_SIZE + LOOP_SIZE * i + 4 * j) == LoopFields(loops[i])[j] {
      PackLongsAt(fields, 9 + 6 * i + j);
      LoopsFieldsAt(loops, i, j);
    }
    assert LoopFields(LoopAt(data, HEADER_SIZE + LOOP_SIZE * i).value) == LoopFields(loops[i]);
  }

  /** The discrepancy: a payload with two different loops decodes, as
      written, to two copies of the first. */
  lemma AsWrittenLosesSecondLoop(h: SmplHeader, l1: Loop, l2: Loop)
    requires HeaderInRange(h) && LoopInRange(l1) && LoopInRange(l2)
    requires h.sampleLoops == 2 && l1 != l2
    ensures DecodeSmplAsWritten(EncodeSmpl(h, [l1, l2])) == Ok(Smpl(h, [l1, l1]))
    ensures DecodeSmpl(EncodeSmpl(h, [l1, l2])) == Ok(Smpl(h, [l1, l2]))
  {
    DecodeEncodeSmpl(h, [l1, l2]);
    var data := EncodeSmpl(h, [l1, l2]);
    assert LoopAt(data, HEADER_SIZE + LOOP_SIZE * 0) == Ok(l1);
    assert seq(2, _ => l1) == [l1, l1];
  }

  /** The discrepancy on a short payload: a header announcing two loops
      followed by a single record (60 bytes) is accepted as written, with
      that record twice, while the intended decoder reports struct.error. */
  lemma AsWrittenAcceptsMissingLoop(h: SmplHeader, l: Loop)
    requires HeaderInRange(h) && LoopInRange(l)
    requires h.sampleLoops == 2
    ensures |EncodeSmpl(h, [l])| == 60
    ensures DecodeSmplAsWritten(EncodeSmpl(h, [l])) == Ok(Smpl(h, [l, l]))
    ensures DecodeSmpl(EncodeSmpl(h, [l])) == Err(StructError)
  {
    EncodedHeader(h, [l]);
    EncodedLoopAt(h, [l], 0);
    assert seq(2, _ => l) == [l, l];
  }
}
