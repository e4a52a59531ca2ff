/** Laws of the WAVE container: iteration order, the write/read round trip and
    the stability of the canonical order. */
module WavRoundTrip {
  import opened Results
  import opened Bytes
  import opened Riff
  import opened ChunkTable
  import opened WavContainer
  import ListChunk

  /** A LIST chunk holding the type id INFO and no sub-chunks. */
  const EMPTY_INFO: Chunk := Chunk(LIST, 4, INFO)

  lemma EmptyInfoIsInfoList()
    ensures IsInfoList(EMPTY_INFO)
  {
    assert INFO[4..] == [];
    assert INFO[..4] == INFO;
  }

  /** Filtering a four-element list, one element at a time. */
  lemma FilterFour(a: Chunk, b: Chunk, c: Chunk, d: Chunk, p: Chunk -> bool)
    ensures Filter([a, b, c, d], p)
         == (if p(a) then [a] else []) + ((if p(b) then [b] else []) + ((if p(c) then [c] else []) + (if p(d) then [d] else [])))
  {
    var fd := if p(d) then [d] else [];
    assert [d][1..] == [];
    assert Filter([d], p) == fd + [];
    assert [c, d][1..] == [d];
    assert Filter([c, d], p) == (if p(c) then [c] else []) + fd;
    assert [b, c, d][1..] == [c, d];
    assert Filter([b, c, d], p) == (if p(b) then [b] else []) + Filter([c, d], p);
    assert [a, b, c, d][1..] == [b, c, d];
  }

  /** The three filters of the documented example. */
  lemma ExampleFilters(data: Chunk, smpl: Chunk, fmt: Chunk, info: Chunk)
    requires data.name == DATA && smpl.name == SMPL && fmt.name == FMT && IsInfoList(info)
    ensures Filter([data, smpl, fmt, info], HasName(LIST)) == [info]
    ensures Filter([data, smpl, fmt, info], IsInfoList) == [info]
    ensures Filter([data, smpl, fmt, info], KeptInPlace) == [data, smpl]
  {
    assert DATA[0] != LIST[0] && SMPL[0] != LIST[0] && FMT[0] != LIST[0];
    assert DATA[0] != FMT[0] && SMPL[0] != FMT[0];
    FilterFour(data, smpl, fmt, info, HasName(LIST));
    FilterFour(data, smpl, fmt, info, IsInfoList);
    FilterFour(data, smpl, fmt, info, KeptInPlace);
  }

  /** In the documented example the first `fmt ` chunk is the third. */
  lemma ExampleFirstFmt(data: Chunk, smpl: Chunk, fmt: Chunk)
    requires data.name == DATA && smpl.name == SMPL && fmt.name == FMT
    ensures FirstNamed([data, smpl, fmt, EMPTY_INFO], FMT) == Some(fmt)
  {
    var cs := [data, smpl, fmt, EMPTY_INFO];
    assert DATA[0] != FMT[0] && SMPL[0] != FMT[0];
    assert cs[1..] == [smpl, fmt, EMPTY_INFO] && cs[1..][1..] == [fmt, EMPTY_INFO];
  }

  /** The empty INFO list decodes, so asking it for its type id succeeds. */
  lemma EmptyInfoDecodes()
    ensures FirstListFailure([EMPTY_INFO]) == None
  {
    EmptyInfoIsInfoList();
    assert [EMPTY_INFO][1..] == [];
  }

  /** The documented example of `__iter__` (wavfile.py:414-431): the arrival
      order data, smpl, fmt, LIST(INFO) iterates as fmt, LIST(INFO), data,
      smpl, whatever the payloads of the first three. */
  lemma CanonicalOrderExample(data: Chunk, smpl: Chunk, fmt: Chunk)
    requires data.name == DATA && smpl.name == SMPL && fmt.name == FMT
    ensures FirstNamed([data, smpl, fmt, EMPTY_INFO], FMT) == Some(fmt)
    ensures CanonicalOrder([data, smpl, fmt, EMPTY_INFO]) == Ok([fmt, EMPTY_INFO, data, smpl])
  {
    EmptyInfoIsInfoList();
    ExampleFirstFmt(data, smpl, fmt);
    EmptyInfoDecodes();
    ExampleFilters(data, smpl, fmt, EMPTY_INFO);
    JoinFour(fmt, EMPTY_INFO, data, smpl);
  }

  lemma JoinFour<T>(a: T, b: T, c: T, d: T)
    ensures [a] + [b] + [c, d] == [a, b, c, d]
  {
  }

  /** Exactly one of "INFO list", "kept in place" and "named fmt" holds for
      each chunk, so the three filters split the arrival list. */
  lemma Partition(cs: seq<Chunk>)
    ensures multiset(Filter(cs, IsInfoList)) + multiset(Filter(cs, KeptInPlace)) + multiset(Filter(cs, HasName(FMT)))
         == multiset(cs)
  {
    FiltersSplit(cs, IsInfoList, KeptInPlace, HasName(FMT));
  }

  /** Three tests of which exactly one holds for each element split a list. */
  lemma {:induction false} FiltersSplit(cs: seq<Chunk>, p: Chunk -> bool, q: Chunk -> bool, r: Chunk -> bool)
    requires forall c | c in cs :: if p(c) then !q(c) && !r(c) else q(c) != r(c)
    ensures multiset(Filter(cs, p)) + multiset(Filter(cs, q)) + multiset(Filter(cs, r)) == multiset(cs)
    decreases |cs|
  {
    if cs != [] {
      FiltersSplit(cs[1..], p, q, r);
      assert cs == [cs[0]] + cs[1..];
      assert multiset(cs) == multiset{cs[0]} + multiset(cs[1..]);
    }
  }

  /** Iteration yields the arrival list with every `fmt ` chunk dropped and the
      first `fmt ` chunk put in front: a permutation when there is only one,
      with later duplicates of it lost otherwise. */
  lemma IterationPermutation(cs: seq<Chunk>)
    requires FirstNamed(cs, FMT).Some? && CanonicalOrder(cs).Ok?
    ensures multiset(CanonicalOrder(cs).value) + multiset(Filter(cs, HasName(FMT)))
         == multiset(cs) + multiset{FirstNamed(cs, FMT).value}
    ensures |Filter(cs, HasName(FMT))| == 1 ==> multiset(CanonicalOrder(cs).value) == multiset(cs)
  {
    var f := FirstNamed(cs, FMT).value;
    var infos, kept, fmts := Filter(cs, IsInfoList), Filter(cs, KeptInPlace), Filter(cs, HasName(FMT));
    OrderMultiset(cs);
    if |fmts| == 1 {
      FirstIsFilterHead(cs, FMT);
      assert fmts == [f];
      MultisetCancel(multiset(CanonicalOrder(cs).value), multiset(cs), f);
    }
  }

  lemma MultisetCancel<T>(a: multiset<T>, b: multiset<T>, x: T)
    requires a + multiset{x} == b + multiset{x}
    ensures a == b
  {
    forall y ensures a[y] == b[y] {
      assert (a + multiset{x})[y] == (b + multiset{x})[y];
    }
  }

  /** The multiset of the iteration is that of its three parts. */
  lemma OrderMultiset(cs: seq<Chunk>)
    requires FirstNamed(cs, FMT).Some? && CanonicalOrder(cs).Ok?
    ensures multiset(CanonicalOrder(cs).value) + multiset(Filter(cs, HasName(FMT)))
         == multiset(cs) + multiset{FirstNamed(cs, FMT).value}
  {
    var f := FirstNamed(cs, FMT).value;
    var infos, kept := Filter(cs, IsInfoList), Filter(cs, KeptInPlace);
    assert CanonicalOrder(cs).value == [f] + infos + kept;
    Partition(cs);
    MultisetOfParts(f, infos, kept);
  }

  lemma MultisetOfParts<T>(x: T, a: seq<T>, b: seq<T>)
    ensures multiset([x] + a + b) == multiset{x} + multiset(a) + multiset(b)
  {
  }

  /** Past its head, `[x] + a + b` holds members of `a` and `b` only. */
  lemma InParts(x: Chunk, a: seq<Chunk>, b: seq<Chunk>, i: nat)
    requires 1 <= i < 1 + |a| + |b|
    ensures ([x] + a + b)[i] in a || ([x] + a + b)[i] in b
  {
    if i <= |a| {
      assert ([x] + a + b)[i] == a[i - 1];
    } else {
      assert ([x] + a + b)[i] == b[i - 1 - |a|];
    }
  }

  /** Past its head, the iteration holds INFO lists and kept chunks only. */
  lemma OrderTail(cs: seq<Chunk>, i: nat)
    requires FirstNamed(cs, FMT).Some? && CanonicalOrder(cs).Ok?
    requires 1 <= i < |CanonicalOrder(cs).value|
    ensures CanonicalOrder(cs).value[i] in Filter(cs, IsInfoList) || CanonicalOrder(cs).value[i] in Filter(cs, KeptInPlace)
  {
    InParts(FirstNamed(cs, FMT).value, Filter(cs, IsInfoList), Filter(cs, KeptInPlace), i);
  }

  /** The iteration holds exactly one `fmt ` chunk, and it comes first. */
  lemma FmtFirstAndOnce(cs: seq<Chunk>)
    requires FirstNamed(cs, FMT).Some? && CanonicalOrder(cs).Ok?
    ensures CanonicalOrder(cs).value[0] == FirstNamed(cs, FMT).value
    ensures forall i | 1 <= i < |CanonicalOrder(cs).value| :: CanonicalOrder(cs).value[i].name != FMT
  {
    assert FMT[0] != LIST[0];
    forall i | 1 <= i < |CanonicalOrder(cs).value| ensures CanonicalOrder(cs).value[i].name != FMT {
      OrderTail(cs, i);
    }
  }

  /** Reading back laid-out complete chunks finds exactly those chunks. */
  lemma {:induction false} ScanSerialized(pre: seq<byte>, cs: seq<Chunk>, riffSize: nat)
    requires forall c | c in cs :: Complete(c)
    requires |pre| + |SerializeChunks(cs)| <= riffSize
    ensures ScanChunks(pre + SerializeChunks(cs), riffSize, |pre|) == Ok(cs)
    decreases |cs|
  {
    var body := pre + SerializeChunks(cs);
    if cs == [] {
      assert body == pre;
    } else {
      var c, rest := cs[0], cs[1..];
      var post := SerializeChunks(rest);
      var pre' := pre + SerializeChunk(c);
      assert body == pre' + post;
      assert ReadChunk(body, |pre|) == Ok(c) && NextOffset(|pre|, c.chunkSize) == |pre'| by {
        assert body == pre + SerializeChunk(c) + post;
        ReadSerialized(c, pre, post);
        assert c in cs;
        assert c.(chunkSize := |c.data|) == c;
      }
      assert ScanChunks(body, riffSize, |pre'|) == Ok(rest) by {
        assert forall x | x in rest :: x in cs;
        ScanSerialized(pre', rest, riffSize);
      }
      assert [c] + rest == cs;
    }
  }

  /** The header of a written file is read back as a RIFF/WAVE header whose
      body is exactly the form type and the chunks. */
  lemma ReadWrittenHeader(order: seq<Chunk>)
    requires SerializeFile(order).Ok?
    ensures ReadRiffHeader(SerializeFile(order).value)
         == Ok(RiffHeader(4 + |SerializeChunks(order)|, WAVE + SerializeChunks(order)))
  {
    var file, data := SerializeFile(order).value, SerializeChunks(order);
    var size := U32At(file, 4);
    assert size == 4 + |data|;
    assert Min(|file|, 8 + size) == |file|;
    var body := file[8 .. |file|];
    assert body == WAVE + data by {
      assert body[..4] == file[8..12] == WAVE;
      assert body[4..] == file[12..] == data;
      assert body == body[..4] + body[4..];
    }
  }

  /** Writing complete chunks and opening the result finds the same chunks in
      the same order. */
  lemma ParseSerialized(order: seq<Chunk>)
    requires forall c | c in order :: Complete(c)
    requires FirstNamed(order, FMT).Some? && FirstNamed(order, DATA).Some?
    requires SerializeFile(order).Ok?
    ensures ParseWav(SerializeFile(order).value) == Ok(order)
  {
    ReadWrittenHeader(order);
    ScanSerialized(WAVE, order, 4 + |SerializeChunks(order)|);
    KnownLookup(order, FMT);
    KnownLookup(order, DATA);
  }

  /** Filtering distributes over the three parts of an order. */
  lemma FilterThree(a: seq<Chunk>, b: seq<Chunk>, c: seq<Chunk>, p: Chunk -> bool)
    ensures Filter(a + b + c, p) == Filter(a, p) + Filter(b, p) + Filter(c, p)
  {
    FilterAppend(a + b, c, p);
    FilterAppend(a, b, p);
  }

  /** The three parts of a canonical order filter back to themselves. */
  lemma OrderParts(f: Chunk, infos: seq<Chunk>, kept: seq<Chunk>)
    requires f.name == FMT
    requires forall c | c in infos :: IsInfoList(c)
    requires forall c | c in kept :: KeptInPlace(c)
    ensures FirstNamed([f] + infos + kept, FMT) == Some(f)
    ensures Filter([f] + infos + kept, IsInfoList) == infos
    ensures Filter([f] + infos + kept, KeptInPlace) == kept
  {
    assert FMT[0] != LIST[0];
    assert Filter([f] + infos + kept, IsInfoList) == infos by {
      FilterThree([f], infos, kept, IsInfoList);
      FilterAllOrNone(infos, IsInfoList);
      FilterAllOrNone(kept, IsInfoList);
    }
    assert Filter([f] + infos + kept, KeptInPlace) == kept by {
      FilterThree([f], infos, kept, KeptInPlace);
      FilterAllOrNone(infos, KeptInPlace);
      FilterAllOrNone(kept, KeptInPlace);
    }
  }

  /** Every LIST chunk of a canonical order decodes when every LIST chunk of
      the arrival list does. */
  lemma OrderListsDecode(cs: seq<Chunk>, order: seq<Chunk>, f: Chunk)
    requires FirstListFailure(Filter(cs, HasName(LIST))).None?
    requires f.name == FMT
    requires forall c | c in order :: c == f || c in cs
    ensures FirstListFailure(Filter(order, HasName(LIST))).None?
  {
    forall c | c in Filter(order, HasName(LIST)) ensures ListChunk.DecodeList(c.data).Ok? {
      FilterMembers(order, HasName(LIST), c);
      FilterMembers(cs, HasName(LIST), c);
    }
  }

  /** The canonical order is stable: iterating over chunks that are already
      in canonical order changes nothing. */
  lemma CanonicalFixedPoint(cs: seq<Chunk>)
    requires FirstNamed(cs, FMT).Some? && CanonicalOrder(cs).Ok?
    ensures FirstNamed(CanonicalOrder(cs).value, FMT).Some?
    ensures CanonicalOrder(CanonicalOrder(cs).value) == CanonicalOrder(cs)
  {
    var f := FirstNamed(cs, FMT).value;
    var infos, kept := Filter(cs, IsInfoList), Filter(cs, KeptInPlace);
    var order := [f] + infos + kept;
    assert order == CanonicalOrder(cs).value;
    OrderParts(f, infos, kept);
    OrderListsDecode(cs, order, f);
  }

  /** A file whose chunks all fit inside it yields complete chunks. */
  lemma {:induction false} ScanComplete(body: seq<byte>, riffSize: nat, pos: nat)
    requires |body| == riffSize
    requires ScanChunks(body, riffSize, pos).Ok?
    ensures forall c | c in ScanChunks(body, riffSize, pos).value :: Complete(c)
    decreases |body| - pos
  {
    var r := ReadChunk(body, pos);
    if r.Ok? {
      var next := NextOffset(pos, r.value.chunkSize);
      ScanComplete(body, riffSize, next);
    }
  }

  /** Parsing what a file writes gives back its own iteration, which is
      already in canonical order: opening, writing and opening again reaches
      the same chunks as opening once and iterating. */
  lemma WriteReadRoundTrip(file: seq<byte>)
    requires ParseWav(file).Ok?
    requires |file| >= 8 + U32At(file, 4)
    requires CanonicalOrder(ParseWav(file).value).Ok?
    requires SerializeFile(CanonicalOrder(ParseWav(file).value).value).Ok?
    ensures var order := CanonicalOrder(ParseWav(file).value).value;
      ParseWav(SerializeFile(order).value) == Ok(order) && CanonicalOrder(order) == Ok(order)
  {
    var cs := ParseWav(file).value;
    var h := ReadRiffHeader(file).value;
    ScanComplete(h.body, h.riffSize, 4);
    var order := CanonicalOrder(cs).value;
    var f := FirstNamed(cs, FMT).value;
    forall c | c in order ensures Complete(c) {
      if c != f {
        assert c in Filter(cs, IsInfoList) + Filter(cs, KeptInPlace);
      }
    }
    var d := FirstNamed(cs, DATA).value;
    FilterMembers(cs, KeptInPlace, d);
    assert d in order by {
      assert order == [f] + Filter(cs, IsInfoList) + Filter(cs, KeptInPlace);
    }
    ParseSerialized(order);
    CanonicalFixedPoint(cs);
  }
}
