/** The table-building loop of makesfz.py's `main`: samples are grouped into
    one region per root note, one layer per velocity-layer name inside it,
    and one sequence slot per round-robin number inside the layer. */
module Grouping {
  import opened Results

  /** A sequence slot key. The regex yields the round-robin number as text;
      a sample without one is given the integer `len(samples) + 1`. The two
      never compare equal, as a Python `str` and `int` never do. */
  datatype SeqKey = Given(digits: string) | Auto(n: int)

  /** The `Sample` record (makesfz.py:72-74). The path, tune and offset are
      carried along and never inspected by the grouping. */
  datatype Sample = Sample(path: string, rootNote: int, tune: Option<int>, offset: int,
                           layer: string, sequenceNo: Option<SeqKey>)

  /** A `SampleLayer` (makesfz.py:75): its velocity range and its slots,
      in the order they were filled, as the template numbers them. */
  datatype Layer = Layer(hivel: int, lovel: int, slots: seq<(SeqKey, Sample)>)

  /** A `SampleRegion` (makesfz.py:76) and its layers by name. */
  datatype Region = Region(rootNote: int, hikey: int, lokey: int, layers: map<string, Layer>)

  /** The only failure: a layer name missing from the velocity table. */
  datatype GroupError = KeyError(layer: string)

  /** `SAMPLE_LAYER_VELOCITIES` (makesfz.py:63-70): `(lovel, hivel)` by
      layer name. */
  const VELOCITIES: map<string, (int, int)> :=
    map["p" := (0, 31), "mp" := (32, 95), "f" := (96, 127),
        "soft" := (0, 63), "loud" := (64, 127), "all" := (0, 127)]

  /** Whether a slot with this key is already filled. */
  predicate Taken(slots: seq<(SeqKey, Sample)>, key: SeqKey) {
    exists i | 0 <= i < |slots| :: slots[i].0 == key
  }

  /** One turn of the loop (makesfz.py:306-331). The region and the layer
      are created when missing, the layer's velocities coming from the
      table; the slot key is the sample's own number or the next free
      count; a sample whose slot is taken is skipped. */
  function Place(regions: map<int, Region>, sample: Sample): Result<map<int, Region>, GroupError> {
    var root := sample.rootNote;
    var region := if root in regions then regions[root] else Region(root, root, root, map[]);
    if sample.layer !in region.layers && sample.layer !in VELOCITIES then
      Err(KeyError(sample.layer))
    else
      var layer := if sample.layer in region.layers then region.layers[sample.layer]
                   else Layer(VELOCITIES[sample.layer].1, VELOCITIES[sample.layer].0, []);
      var key := if sample.sequenceNo.Some? then sample.sequenceNo.value else Auto(|layer.slots| + 1);
      var slots := if Taken(layer.slots, key) then layer.slots
                   else layer.slots + [(key, sample.(sequenceNo := Some(key)))];
      Ok(regions[root := region.(layers := region.layers[sample.layer := layer.(slots := slots)])])
  }

  /** The whole loop over the samples, in order; the first KeyError ends it. */
  function Group(samples: seq<Sample>): Result<map<int, Region>, GroupError> {
    if samples == [] then Ok(map[])
    else
      var regions :- Group(samples[..|samples| - 1]);
      Place(regions, samples[|samples| - 1])
  }

  /** The loop of makesfz.py:305-331, updating the region table, the layer
      and its slots step by step. */
  method GroupSamples(samples: seq<Sample>) returns (r: Result<map<int, Region>, GroupError>)
    ensures r == Group(samples)
  {
    var regions: map<int, Region> := map[];
    var i := 0;
    while i < |samples|
      invariant 0 <= i <= |samples|
      invariant Group(samples[..i]) == Ok(regions)
    {
      var sample := samples[i];
      assert samples[..i + 1][..i] == samples[..i];
      var region: Region;
      if sample.rootNote !in regions {
        region := Region(sample.rootNote, sample.rootNote, sample.rootNote, map[]);
      } else {
        region := regions[sample.rootNote];
      }
      var layer: Layer;
      if sample.layer !in region.layers {
        if sample.layer !in VELOCITIES {
          GroupStopsAtError(samples, i + 1);
          return Err(KeyError(sample.layer));
        }
        var (lovel, hivel) := VELOCITIES[sample.layer];
        layer := Layer(hivel, lovel, []);
      } else {
        layer := region.layers[sample.layer];
      }
      var key: SeqKey;
      if sample.sequenceNo.None? {
        key := Auto(|layer.slots| + 1);
      } else {
        key := sample.sequenceNo.value;
      }
      if !Taken(layer.slots, key) {
        layer := layer.(slots := layer.slots + [(key, sample.(sequenceNo := Some(key)))]);
      }
      region := region.(layers := region.layers[sample.layer := layer]);
      regions := regions[sample.rootNote := region];
      i := i + 1;
    }
    assert samples[..i] == samples;
    r := Ok(regions);
  }

  /** Once a prefix of the samples fails, the whole loop fails with the
      same error. */
  lemma {:induction false} GroupStopsAtError(samples: seq<Sample>, n: nat)
    requires n <= |samples| && Group(samples[..n]).Err?
    ensures Group(samples) == Group(samples[..n])
    decreases |samples| - n
  {
    if n < |samples| {
      assert samples[..n + 1][..n] == samples[..n];
      GroupStopsAtError(samples, n + 1);
    } else {
      assert samples[..n] == samples;
    }
  }

  /** The slots of one layer of one region; none when either is missing. */
  function SlotsOf(regions: map<int, Region>, root: int, name: string): seq<(SeqKey, Sample)> {
    if root in regions && name in regions[root].layers then regions[root].layers[name].slots else []
  }

  /** The slot key a sample asks for, given the layer's current slots. */
  function KeyFor(sample: Sample, slots: seq<(SeqKey, Sample)>): SeqKey {
    if sample.sequenceNo.Some? then sample.sequenceNo.value else Auto(|slots| + 1)
  }

  /** What the loop keeps true of the table: each region sits under its
      root note, which is also both its key bounds; each layer has the
      table's velocities; slot keys are distinct; every stored sample
      belongs to its region and layer and records its key; and counted
      keys never exceed the number of slots. */
  predicate LayerWellFormed(root: int, name: string, layer: Layer) {
    && name in VELOCITIES
    && layer.lovel == VELOCITIES[name].0 && layer.hivel == VELOCITIES[name].1
    && (forall i, j | 0 <= i < j < |layer.slots| :: layer.slots[i].0 != layer.slots[j].0)
    && (forall i | 0 <= i < |layer.slots| ::
          && layer.slots[i].1.rootNote == root
          && layer.slots[i].1.layer == name
          && layer.slots[i].1.sequenceNo == Some(layer.slots[i].0)
          && (layer.slots[i].0.Auto? ==> 1 <= layer.slots[i].0.n <= |layer.slots|))
  }

  predicate WellFormed(regions: map<int, Region>) {
    forall root | root in regions ::
      && regions[root].rootNote == root && regions[root].hikey == root && regions[root].lokey == root
      && forall name | name in regions[root].layers :: LayerWellFormed(root, name, regions[root].layers[name])
  }

  /** A sample as the regex delivers it: its number, if any, is text. */
  predicate FromRegex(sample: Sample) {
    sample.sequenceNo.None? || sample.sequenceNo.value.Given?
  }

  /** Every layer in the table has a name from the velocity table. */
  predicate LayersKnown(regions: map<int, Region>) {
    forall root | root in regions :: forall name | name in regions[root].layers :: name in VELOCITIES
  }

  /** A layer name outside the velocity table fails exactly there; any
      other sample is placed or skipped. */
  lemma PlaceFails(regions: map<int, Region>, sample: Sample)
    requires LayersKnown(regions)
    ensures Place(regions, sample).Err? <==> sample.layer !in VELOCITIES
    ensures Place(regions, sample).Err? ==> Place(regions, sample).error == KeyError(sample.layer)
  {
  }

  /** Exactly the named layer of the named region changes: it gains the
      sample, under its key, when that key is free, and nothing changes
      when it is taken. */
  lemma PlaceSlots(regions: map<int, Region>, sample: Sample, root: int, name: string)
    requires Place(regions, sample).Ok?
    ensures
      var key := KeyFor(sample, SlotsOf(regions, sample.rootNote, sample.layer));
      var before := SlotsOf(regions, root, name);
      SlotsOf(Place(regions, sample).value, root, name)
        == if root == sample.rootNote && name == sample.layer && !Taken(before, key)
           then before + [(key, sample.(sequenceNo := Some(key)))]
           else before
  {
  }

  /** First come, first served: a sample whose slot is already taken leaves
      the whole table as it was. */
  lemma PlaceFirstWins(regions: map<int, Region>, sample: Sample)
    requires Taken(SlotsOf(regions, sample.rootNote, sample.layer),
                   KeyFor(sample, SlotsOf(regions, sample.rootNote, sample.layer)))
    ensures Place(regions, sample) == Ok(regions)
  {
    var root := sample.rootNote;
    var region := regions[root];
    var layer := region.layers[sample.layer];
    assert region.layers[sample.layer := layer] == region.layers;
    assert region.(layers := region.layers) == region;
    assert regions[root := region] == regions;
  }

  /** The table keeps its shape through one turn of the loop. */
  lemma PlaceWellFormed(regions: map<int, Region>, sample: Sample)
    requires WellFormed(regions) && FromRegex(sample) && Place(regions, sample).Ok?
    ensures WellFormed(Place(regions, sample).value)
  {
    var r := Place(regions, sample).value;
    forall root | root in r
      ensures r[root].rootNote == root && r[root].hikey == root && r[root].lokey == root
      ensures forall name | name in r[root].layers :: LayerWellFormed(root, name, r[root].layers[name])
    {
      forall name | name in r[root].layers
        ensures LayerWellFormed(root, name, r[root].layers[name])
      {
        PlaceSlots(regions, sample, root, name);
        if root == sample.rootNote && name == sample.layer {
          AppendWellFormed(regions, sample);
        }
      }
    }
  }

  /** The layer that receives the sample keeps its shape. */
  lemma AppendWellFormed(regions: map<int, Region>, sample: Sample)
    requires WellFormed(regions) && FromRegex(sample) && Place(regions, sample).Ok?
    ensures LayerWellFormed(sample.rootNote, sample.layer,
                            Place(regions, sample).value[sample.rootNote].layers[sample.layer])
  {
    var before := SlotsOf(regions, sample.rootNote, sample.layer);
    var key := KeyFor(sample, before);
    var layer := Place(regions, sample).value[sample.rootNote].layers[sample.layer];
    PlaceSlots(regions, sample, sample.rootNote, sample.layer);
    if !Taken(before, key) {
      assert layer.slots == before + [(key, sample.(sequenceNo := Some(key)))];
      forall i, j | 0 <= i < j < |layer.slots|
        ensures layer.slots[i].0 != layer.slots[j].0
      {
        if j == |before| {
          assert layer.slots[i] == before[i];
        }
      }
      forall i | 0 <= i < |layer.slots|
        ensures layer.slots[i].1.rootNote == sample.rootNote && layer.slots[i].1.layer == sample.layer
        ensures layer.slots[i].1.sequenceNo == Some(layer.slots[i].0)
        ensures layer.slots[i].0.Auto? ==> 1 <= layer.slots[i].0.n <= |layer.slots|
      {
        if i < |before| {
          assert layer.slots[i] == before[i];
        }
      }
    }
  }

  /** Every table the loop builds has that shape. */
  lemma {:induction false} GroupWellFormed(samples: seq<Sample>)
    requires forall i | 0 <= i < |samples| :: FromRegex(samples[i])
    requires Group(samples).Ok?
    ensures WellFormed(Group(samples).value)
  {
    if samples != [] {
      var init := samples[..|samples| - 1];
      GroupWellFormed(init);
      PlaceWellFormed(Group(init).value, samples[|samples| - 1]);
    }
  }

  /** Whatever the samples' numbers, only names from the velocity table
      become layers. */
  lemma {:induction false} GroupLayersKnown(samples: seq<Sample>)
    requires Group(samples).Ok?
    ensures LayersKnown(Group(samples).value)
  {
    if samples != [] {
      GroupLayersKnown(samples[..|samples| - 1]);
    }
  }

  /** A sample without a number is never skipped: its counted key is one
      past any key counted before. */
  lemma AutoNeverTaken(regions: map<int, Region>, sample: Sample)
    requires WellFormed(regions) && sample.sequenceNo.None? && sample.layer in VELOCITIES
    ensures
      var before := SlotsOf(regions, sample.rootNote, sample.layer);
      && Place(regions, sample).Ok?
      && SlotsOf(Place(regions, sample).value, sample.rootNote, sample.layer)
         == before + [(Auto(|before| + 1), sample.(sequenceNo := Some(Auto(|before| + 1))))]
  {
    var before := SlotsOf(regions, sample.rootNote, sample.layer);
    PlaceSlots(regions, sample, sample.rootNote, sample.layer);
  }

  /** The loop fails exactly when some sample names a layer outside the
      velocity table, and then with that layer name. */
  lemma {:induction false} GroupFails(samples: seq<Sample>)
    ensures Group(samples).Err? <==> exists i | 0 <= i < |samples| :: samples[i].layer !in VELOCITIES
    ensures Group(samples).Err? ==> Group(samples).error.layer !in VELOCITIES
  {
    if samples != [] {
      var init := samples[..|samples| - 1];
      var last := samples[|samples| - 1];
      GroupFails(init);
      if Group(init).Ok? {
        GroupLayersKnown(init);
        PlaceFails(Group(init).value, last);
      }
      if exists i | 0 <= i < |init| :: init[i].layer !in VELOCITIES {
        var i :| 0 <= i < |init| && init[i].layer !in VELOCITIES;
        assert samples[i] == init[i];
      }
      if exists i | 0 <= i < |samples| :: samples[i].layer !in VELOCITIES {
        var i :| 0 <= i < |samples| && samples[i].layer !in VELOCITIES;
        if i < |init| {
          assert init[i] == samples[i];
        }
      }
    }
  }

  /** One region per distinct root note: the table's keys are exactly the
      root notes of the samples. */
  lemma {:induction false} GroupRegions(samples: seq<Sample>)
    requires Group(samples).Ok?
    ensures Group(samples).value.Keys == set i | 0 <= i < |samples| :: samples[i].rootNote
  {
    if samples != [] {
      var init := samples[..|samples| - 1];
      GroupRegions(init);
      assert forall i | 0 <= i < |init| :: init[i] == samples[i];
    }
  }

  /** A sample counted as the first and a sample numbered `"1"` by its file
      name are kept side by side: the counted key is the number 1 and the
      given key the text "1", and the two never collide. */
  lemma GivenAndCountedCoexist(a: Sample, b: Sample)
    requires a.rootNote == b.rootNote && a.layer == b.layer && a.layer in VELOCITIES
    requires a.sequenceNo == Some(Given("1")) && b.sequenceNo.None?
    ensures Group([b, a]).Ok?
    ensures SlotsOf(Group([b, a]).value, a.rootNote, a.layer)
              == [(Auto(1), b.(sequenceNo := Some(Auto(1)))), (Given("1"), a)]
  {
    assert [b, a][..1] == [b] && [b][..0] == [];
    assert Group([b]) == Place(map[], b);
    PlaceSlots(map[], b, b.rootNote, b.layer);
    var r1 := Place(map[], b).value;
    assert Group([b, a]) == Place(r1, a);
    PlaceSlots(r1, a, a.rootNote, a.layer);
  }
}
