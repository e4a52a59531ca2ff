/** `FmtChunk` of wavfile.py: the `fmt ` payload decoded as `<hhllh`, plus
    `bits_per_sample` for PCM, and the derived `sample_width` and `frame_size`. */
module FmtChunk {
  import opened Results
  import opened Bytes
  import opened Riff

  const WAVE_FORMAT_PCM: int := 1

  /** The attributes `_parse` sets on a `fmt ` chunk. `bitsPerSample` is
      present only for PCM. */
  datatype Fmt = Fmt(
    formatTag: int,
    channels: int,
    samplesPerSec: int,
    avgBytesPerSec: int,
    blockAlign: int,
    bitsPerSample: Option<int>,
    compressed: bool)

  /** What every decoded `fmt ` chunk satisfies: PCM exactly when
      `bits_per_sample` was read, `compressed` exactly when not PCM. */
  predicate Consistent(f: Fmt) {
    && (f.bitsPerSample.Some? <==> f.formatTag == WAVE_FORMAT_PCM)
    && (f.compressed <==> f.formatTag != WAVE_FORMAT_PCM)
  }

  /** `FmtChunk._parse`: fewer than 14 bytes is ParseError (the base parse);
      a PCM payload of 14 or 15 bytes fails unpacking `bits_per_sample` at
      bytes 14..15 with a struct.error the source does not catch. */
  function DecodeFmt(data: seq<byte>): (r: Result<Fmt, WavError>)
    ensures |data| < 14 ==> r == Err(ParseError)
    ensures |data| >= 14 ==> (r.Err? <==> I16At(data, 0) == WAVE_FORMAT_PCM && |data| < 16)
    ensures |data| >= 14 && r.Err? ==> r.error == StructError
    ensures r.Ok? ==> Consistent(r.value)
    ensures r.Ok? ==> && r.value.formatTag == I16At(data, 0)
                      && r.value.channels == I16At(data, 2)
                      && r.value.samplesPerSec == I32At(data, 4)
                      && r.value.avgBytesPerSec == I32At(data, 8)
                      && r.value.blockAlign == I16At(data, 12)
    ensures r.Ok? && r.value.formatTag == WAVE_FORMAT_PCM ==> r.value.bitsPerSample == Some(I16At(data, 14))
  {
    if |data| < 14 then Err(ParseError)
    else
      var tag := I16At(data, 0);
      var channels := I16At(data, 2);
      var rate := I32At(data, 4);
      var avg := I32At(data, 8);
      var align := I16At(data, 12);
      if tag == WAVE_FORMAT_PCM then
        if |data| < 16 then Err(StructError)
        else Ok(Fmt(tag, channels, rate, avg, align, Some(I16At(data, 14)), false))
      else Ok(Fmt(tag, channels, rate, avg, align, None, true))
  }

  /** The `fmt ` payload of a format (no such writer exists in the source; it
      is the inverse `DecodeFmt` is checked against). */
  function EncodeFmt(f: Fmt): (data: seq<byte>)
    requires Consistent(f) && InRange(f)
    ensures |data| == if f.formatTag == WAVE_FORMAT_PCM then 16 else 14
  {
    PackI16(f.formatTag) + PackI16(f.channels) + PackI32(f.samplesPerSec)
      + PackI32(f.avgBytesPerSec) + PackI16(f.blockAlign)
      + (if f.bitsPerSample.Some? then PackI16(f.bitsPerSample.value) else [])
  }

  /** Every field fits its `<hhllh` / `<h` slot. */
  predicate InRange(f: Fmt) {
    && -0x8000 <= f.formatTag < 0x8000
    && -0x8000 <= f.channels < 0x8000
    && I32_MIN <= f.samplesPerSec <= I32_MAX
    && I32_MIN <= f.avgBytesPerSec <= I32_MAX
    && -0x8000 <= f.blockAlign < 0x8000
    && (f.bitsPerSample.Some? ==> -0x8000 <= f.bitsPerSample.value < 0x8000)
  }

  /** Decoding the payload of a format gives that format back. */
  lemma DecodeEncodeFmt(f: Fmt)
    requires Consistent(f) && InRange(f)
    ensures DecodeFmt(EncodeFmt(f)) == Ok(f)
  {
    var a, b, c := PackI16(f.formatTag), PackI16(f.channels), PackI32(f.samplesPerSec);
    var d, e := PackI32(f.avgBytesPerSec), PackI16(f.blockAlign);
    var g := if f.bitsPerSample.Some? then PackI16(f.bitsPerSample.value) else [];
    var data := EncodeFmt(f);
    assert data == a + b + c + d + e + g;
    assert data[0..2] == a[0..2];
    assert data[2..4] == b[0..2];
    assert data[4..8] == c[0..4];
    assert data[8..12] == d[0..4];
    assert data[12..14] == e[0..2];
    if f.bitsPerSample.Some? {
      assert data[14..16] == g[0..2];
    }
  }

  /** `sample_width`: whole bytes per sample for PCM; any other format tag is
      UnsupportedCompressionError. */
  function SampleWidth(f: Fmt): (r: Result<int, WavError>)
    ensures Consistent(f) ==> (r.Ok? <==> f.formatTag == WAVE_FORMAT_PCM)
    ensures r.Err? ==> r.error == UnsupportedCompression
    ensures r.Ok? ==> f.bitsPerSample.Some?
    ensures r.Ok? ==> 8 * r.value - 8 < f.bitsPerSample.value <= 8 * r.value
  {
    if f.formatTag == WAVE_FORMAT_PCM && f.bitsPerSample.Some? then
      Ok((f.bitsPerSample.value + 7) / 8)   // floor division, as Python's //
    else
      Err(UnsupportedCompression)
  }

  /** `frame_size`: the bytes of one sample for every channel; the
      compression error of `sample_width` propagates. */
  function FrameSize(f: Fmt): (r: Result<int, WavError>)
    ensures r.Ok? <==> SampleWidth(f).Ok?
    ensures r.Err? ==> r.error == UnsupportedCompression
    ensures r.Ok? ==> r.value == f.channels * SampleWidth(f).value
    ensures r.Ok? && f.channels >= 1 && f.bitsPerSample.value >= 1 ==> r.value >= f.channels
  {
    var width :- SampleWidth(f);
    Ok(f.channels * width)
  }

  /** 16-bit PCM is two bytes wide; IMA ADPCM (tag 17) has no sample width. */
  lemma WidthExamples(channels: int)
    ensures SampleWidth(Fmt(1, channels, 44100, 0, 0, Some(16), false)) == Ok(2)
    ensures FrameSize(Fmt(1, channels, 44100, 0, 0, Some(24), false)) == Ok(3 * channels)
    ensures SampleWidth(Fmt(17, channels, 44100, 0, 0, None, true)) == Err(UnsupportedCompression)
  {
  }
}
