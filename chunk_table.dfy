/** The chunk lookup that `WavFile.__init__` fills while it scans: the first
    chunk of each tag in KNOWN_CHUNKS, and a list per tag for every other tag. */
module ChunkTable {
  import opened Results
  import opened Bytes
  import opened Riff

  /** A value of the `chunks` dict: a chunk for a known tag, a list of chunks
      for any other tag. */
  datatype Entry = Single(chunk: Chunk) | Many(chunks: seq<Chunk>)

  /** The dict update of one scan step (wavfile.py:371-378): a known tag seen
      before is ignored; any other tag is appended to its list. */
  function AddChunk(table: map<Tag, Entry>, c: Chunk): map<Tag, Entry> {
    if c.name in KNOWN_CHUNKS then
      if c.name in table then table else table[c.name := Single(c)]
    else
      var earlier := if c.name in table && table[c.name].Many? then table[c.name].chunks else [];
      table[c.name := Many(earlier + [c])]
  }

  /** The dict after scanning the chunks `cs` in arrival order. */
  function Table(cs: seq<Chunk>): map<Tag, Entry>
    decreases |cs|
  {
    if cs == [] then map[] else AddChunk(Table(cs[..|cs| - 1]), cs[|cs| - 1])
  }

  /** The chunks of `cs` that satisfy `p`, in order. */
  function Filter(cs: seq<Chunk>, p: Chunk -> bool): (r: seq<Chunk>)
    ensures |r| <= |cs|
    ensures forall c | c in r :: c in cs && p(c)
  {
    if cs == [] then [] else (if p(cs[0]) then [cs[0]] else []) + Filter(cs[1..], p)
  }

  /** The test "is named t", as a value that `Filter` can take. */
  function HasName(t: Tag): Chunk -> bool {
    (c: Chunk) => c.name == t
  }

  lemma {:induction false} FilterAppend(a: seq<Chunk>, b: seq<Chunk>, p: Chunk -> bool)
    ensures Filter(a + b, p) == Filter(a, p) + Filter(b, p)
    decreases |a|
  {
    if a == [] {
      assert a + b == b;
    } else {
      assert (a + b)[1..] == a[1..] + b;
      FilterAppend(a[1..], b, p);
    }
  }

  /** Filtering keeps exactly the members that pass. */
  lemma {:induction false} FilterMembers(cs: seq<Chunk>, p: Chunk -> bool, c: Chunk)
    ensures c in Filter(cs, p) <==> c in cs && p(c)
    decreases |cs|
  {
    if cs != [] {
      FilterMembers(cs[1..], p, c);
      assert cs == [cs[0]] + cs[1..];
    }
  }

  /** Filtering by a weaker test first changes nothing. */
  lemma {:induction false} FilterNarrow(cs: seq<Chunk>, p: Chunk -> bool, q: Chunk -> bool)
    requires forall c | c in cs :: q(c) ==> p(c)
    ensures Filter(Filter(cs, p), q) == Filter(cs, q)
    decreases |cs|
  {
    if cs != [] {
      assert forall c | c in cs[1..] :: c in cs;
      FilterNarrow(cs[1..], p, q);
      var rest := Filter(cs[1..], p);
      if p(cs[0]) {
        assert Filter(cs, p) == [cs[0]] + rest;
        assert ([cs[0]] + rest)[1..] == rest;
      } else {
        assert !q(cs[0]);
        assert Filter(cs, p) == rest;
      }
    }
  }

  /** A test every member passes keeps everything; one none passes keeps nothing. */
  lemma {:induction false} FilterAllOrNone(cs: seq<Chunk>, p: Chunk -> bool)
    ensures (forall c | c in cs :: p(c)) ==> Filter(cs, p) == cs
    ensures (forall c | c in cs :: !p(c)) ==> Filter(cs, p) == []
    decreases |cs|
  {
    if cs != [] {
      assert forall c | c in cs[1..] :: c in cs;
      FilterAllOrNone(cs[1..], p);
      assert cs == [cs[0]] + cs[1..];
    }
  }

  /** The arrival list holds a chunk named t exactly when `t` is a key of the
      dict; a known tag maps to the FIRST chunk of that name, any other tag
      to every chunk of that name in arrival order. */
  lemma {:induction false} TableShape(cs: seq<Chunk>, t: Tag)
    ensures t in Table(cs) <==> Filter(cs, HasName(t)) != []
    ensures t in Table(cs) && t in KNOWN_CHUNKS ==> Table(cs)[t] == Single(Filter(cs, HasName(t))[0])
    ensures t in Table(cs) && t !in KNOWN_CHUNKS ==> Table(cs)[t] == Many(Filter(cs, HasName(t)))
    decreases |cs|
  {
    if cs != [] {
      var init, last := cs[..|cs| - 1], cs[|cs| - 1];
      TableShape(init, t);
      assert cs == init + [last];
      FilterAppend(init, [last], HasName(t));
      assert Filter([last], HasName(t)) == if last.name == t then [last] else [];
      if last.name != t {
        AddOther(Table(init), last, t);
      } else {
        AddSame(Table(init), last);
      }
    }
  }

  lemma AddOther(m: map<Tag, Entry>, c: Chunk, t: Tag)
    requires c.name != t
    ensures t in AddChunk(m, c) <==> t in m
    ensures t in m ==> AddChunk(m, c)[t] == m[t]
  {
  }

  lemma AddSame(m: map<Tag, Entry>, c: Chunk)
    ensures c.name in AddChunk(m, c)
    ensures c.name in KNOWN_CHUNKS ==>
      AddChunk(m, c)[c.name] == if c.name in m then m[c.name] else Single(c)
    ensures c.name !in KNOWN_CHUNKS ==>
      AddChunk(m, c)[c.name] == Many((if c.name in m && m[c.name].Many? then m[c.name].chunks else []) + [c])
  {
  }

  /** Every value stored under a tag is a chunk of that name. */
  lemma EntryNamed(cs: seq<Chunk>, t: Tag)
    requires t in Table(cs)
    ensures Table(cs)[t].Single? ==> Table(cs)[t].chunk.name == t && Table(cs)[t].chunk in cs
    ensures Table(cs)[t].Many? <==> t !in KNOWN_CHUNKS
  {
    TableShape(cs, t);
    var f := Filter(cs, HasName(t));
    if t in KNOWN_CHUNKS {
      assert f[0] in f;
    }
  }

  /** A chunk whose tag is known and already present changes nothing: the
      first one wins. */
  lemma DuplicateKnownIgnored(cs: seq<Chunk>, c: Chunk)
    requires c.name in KNOWN_CHUNKS && c.name in Table(cs)
    ensures Table(cs + [c]) == Table(cs)
  {
    assert (cs + [c])[..|cs|] == cs;
  }

  /** The first chunk named `t` in arrival order, if any. */
  function FirstNamed(cs: seq<Chunk>, t: Tag): (r: Option<Chunk>)
    ensures r.None? <==> forall c | c in cs :: c.name != t
    ensures r.Some? ==> r.value in cs && r.value.name == t
  {
    if cs == [] then None
    else if cs[0].name == t then Some(cs[0])
    else FirstNamed(cs[1..], t)
  }

  /** `FirstNamed` is the head of the filtered list. */
  lemma {:induction false} FirstIsFilterHead(cs: seq<Chunk>, t: Tag)
    ensures FirstNamed(cs, t).None? <==> Filter(cs, HasName(t)) == []
    ensures FirstNamed(cs, t).Some? ==> FirstNamed(cs, t).value == Filter(cs, HasName(t))[0]
    decreases |cs|
  {
    if cs != [] && cs[0].name != t {
      FirstIsFilterHead(cs[1..], t);
    }
  }

  /** The dict holds a key exactly when some chunk of the arrival list has
      that name (`has_chunk`, wavfile.py:433-436). */
  lemma TableHas(cs: seq<Chunk>, id: seq<byte>)
    ensures id in Table(cs) <==> exists c | c in cs :: c.name == id
  {
    if |id| == 4 {
      TableShape(cs, id);
      var f := Filter(cs, HasName(id));
      if f != [] {
        assert f[0] in f;
      }
      forall c | c in cs && c.name == id ensures f != [] {
        FilterMembers(cs, HasName(id), c);
      }
    } else {
      assert forall c | c in cs :: |c.name| == 4;
    }
  }

  /** For a tag in KNOWN_CHUNKS the dict holds the first chunk of that name. */
  lemma KnownLookup(cs: seq<Chunk>, t: Tag)
    requires t in KNOWN_CHUNKS
    ensures t in Table(cs) <==> FirstNamed(cs, t).Some?
    ensures t in Table(cs) ==> Table(cs)[t] == Single(FirstNamed(cs, t).value)
  {
    TableShape(cs, t);
    FirstIsFilterHead(cs, t);
  }

  /** For any other tag the dict holds every chunk of that name, in order. */
  lemma OtherLookup(cs: seq<Chunk>, t: Tag)
    requires t !in KNOWN_CHUNKS
    ensures t in Table(cs) ==> Table(cs)[t] == Many(Filter(cs, HasName(t)))
    ensures t !in Table(cs) ==> Filter(cs, HasName(t)) == []
  {
    TableShape(cs, t);
  }
}
