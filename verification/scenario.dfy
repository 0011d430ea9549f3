/** A concrete two-channel file in the layout drawn at the top of
    ome_zarr/bdvh5.py: channels `s00` and `s01`, one time point `t00000`,
    two levels of shape (100, 100, 100) and (50, 50, 50). A variant lets
    the level-0 dataset of `s01` take another spatial shape. */
module Scenario {
  import opened Results
  import opened BdvLayout
  import opened BdvIndex
  import opened ZarrConversion

  const Chunk := Triple(32, 32, 32)
  const Full := Triple(100, 100, 100)
  const Half := Triple(50, 50, 50)

  /** Tokens 1 and 2 hold `s00`'s samples, 3 and 4 those of `s01`; the
      level-0 dataset of `s01` has spatial shape `s01Shape`. */
  function TwoChannelFileShaped(s01Shape: Triple): Container {
    H5File(
      ["__DATA_TYPES__", "s00", "s01", "t00000"],
      map["s00" := 2, "s01" := 2],
      map["s00" := 2, "s01" := 2],
      map[CellPath("t00000", "s00", 0) := Dataset(Full, Chunk, 1),
          CellPath("t00000", "s00", 1) := Dataset(Half, Chunk, 2),
          CellPath("t00000", "s01", 0) := Dataset(s01Shape, Chunk, 3),
          CellPath("t00000", "s01", 1) := Dataset(Half, Chunk, 4)])
  }

  /** The file as drawn: both channels have the same shapes. */
  function TwoChannelFile(): Container {
    TwoChannelFileShaped(Full)
  }

  lemma TwoChannelKeys(f: Container, sh: Triple)
    requires f == TwoChannelFileShaped(sh)
    ensures ChannelKeys(f) == ["s00", "s01"]
    ensures TseriesKeys(f) == ["t00000"]
  {
    var keys := f.keys;
    assert StartsWith("s00", 's') && StartsWith("s01", 's') && StartsWith("t00000", 't');
    assert !StartsWith("__DATA_TYPES__", 's') && !StartsWith("__DATA_TYPES__", 't');
    assert !StartsWith("s00", 't') && !StartsWith("s01", 't') && !StartsWith("t00000", 's');
    assert keys[1..] == ["s00", "s01", "t00000"];
    assert keys[1..][1..] == ["s01", "t00000"];
    assert keys[1..][1..][1..] == ["t00000"];
    assert keys[1..][1..][1..][1..] == [];
  }

  lemma TwoChannelRows(f: Container, sh: Triple, c: string)
    requires f == TwoChannelFileShaped(sh)
    requires c == "s00" || c == "s01"
    ensures c in f.resolutions && f.resolutions[c] == 2
  {
  }

  lemma TwoChannelCell(sh: Triple, t: string, c: string, l: nat)
    requires t == "t00000" && (c == "s00" || c == "s01") && l < 2
    ensures CellPath(t, c, l) in TwoChannelFileShaped(sh).cells
  {
    if c == "s00" {
      assert CellPath(t, c, l) == CellPath("t00000", "s00", l);
    } else {
      assert CellPath(t, c, l) == CellPath("t00000", "s01", l);
    }
  }

  /** A file with two channels `a`, `b` and one time point `t0` whose two
      levels both exist has agreeing scale tables and every cell. */
  lemma PairTables(f: Container, t0: string, a: string, b: string)
    requires ChannelKeys(f) == [a, b] && TseriesKeys(f) == [t0]
    requires a in f.resolutions && b in f.resolutions
    requires f.resolutions[a] == 2 && f.resolutions[b] == 2
    requires CellPath(t0, a, 0) in f.cells && CellPath(t0, a, 1) in f.cells
    requires CellPath(t0, b, 0) in f.cells && CellPath(t0, b, 1) in f.cells
    ensures HasScaleTables(f) && LevelsAgree(f) && CellsPresent(f)
    ensures f.resolutions[ChannelKeys(f)[0]] == 2
  {
    forall t, c, l | t in [t0] && c in [a, b] && c in f.resolutions && 0 <= l < f.resolutions[c]
      ensures CellPath(t, c, l) in f.cells
    {
      assert l == 0 || l == 1;
    }
  }

  lemma TwoChannelTables(f: Container, sh: Triple)
    requires f == TwoChannelFileShaped(sh)
    ensures HasScaleTables(f) && LevelsAgree(f) && CellsPresent(f)
    ensures f.resolutions[ChannelKeys(f)[0]] == 2
  {
    TwoChannelKeys(f, sh);
    TwoChannelRows(f, sh, "s00");
    TwoChannelRows(f, sh, "s01");
    TwoChannelCell(sh, "t00000", "s00", 0);
    TwoChannelCell(sh, "t00000", "s00", 1);
    TwoChannelCell(sh, "t00000", "s01", 0);
    TwoChannelCell(sh, "t00000", "s01", 1);
    PairTables(f, "t00000", "s00", "s01");
  }

  lemma TwoChannelArrays(f: Container, sh: Triple)
    requires f == TwoChannelFileShaped(sh)
    ensures Arrays(f).Ok?
  {
    TwoChannelKeys(f, sh);
    TwoChannelTables(f, sh);
  }

  lemma PairIsZeroOne(ms: seq<nat>)
    requires |ms| == 2 && ms[0] == 0 && ms[1] == 1
    ensures ms == [0, 1]
  {
  }

  lemma TwoChannelLevels(f: Container, sh: Triple)
    requires f == TwoChannelFileShaped(sh)
    ensures Multiscales(f) == Ok([0, 1])
  {
    TwoChannelTables(f, sh);
    var ms := Multiscales(f).value;
    PairIsZeroOne(ms);
  }

  lemma TwoChannelContents(f: Container, sh: Triple)
    requires f == TwoChannelFileShaped(sh)
    ensures f.cells[CellPath("t00000", "s00", 0)] == Dataset(Full, Chunk, 1)
    ensures f.cells[CellPath("t00000", "s00", 1)] == Dataset(Half, Chunk, 2)
    ensures f.cells[CellPath("t00000", "s01", 0)] == Dataset(sh, Chunk, 3)
    ensures f.cells[CellPath("t00000", "s01", 1)] == Dataset(Half, Chunk, 4)
  {
  }

  /** A positional lookup whose keys and level are known finds the
      `cells` dataset under them. */
  lemma ResolveAt(f: Container, res: nat, t: nat, ch: nat, tkey: string, ckey: string)
    requires t < |TseriesKeys(f)| && TseriesKeys(f)[t] == tkey
    requires ch < |ChannelKeys(f)| && ChannelKeys(f)[ch] == ckey
    requires Arrays(f).Ok? && ckey in f.resolutions && res < f.resolutions[ckey]
    ensures CellPath(tkey, ckey, res) in f.cells
    ensures Resolve(f, res, t, ch) == Ok(f.cells[CellPath(tkey, ckey, res)])
  {
  }

  lemma TwoChannelRepresentatives(f: Container, sh: Triple)
    requires f == TwoChannelFileShaped(sh)
    ensures Representative(f, 0) == Ok(Dataset(Full, Chunk, 1))
    ensures Representative(f, 1) == Ok(Dataset(Half, Chunk, 2))
    ensures Resolve(f, 0, 0, 1) == Ok(Dataset(sh, Chunk, 3))
    ensures Resolve(f, 1, 0, 1) == Ok(Dataset(Half, Chunk, 4))
  {
    TwoChannelKeys(f, sh);
    TwoChannelArrays(f, sh);
    TwoChannelRows(f, sh, "s00");
    TwoChannelRows(f, sh, "s01");
    TwoChannelContents(f, sh);
    ResolveAt(f, 0, 0, 0, "t00000", "s00");
    ResolveAt(f, 1, 0, 0, "t00000", "s00");
    ResolveAt(f, 0, 0, 1, "t00000", "s01");
    ResolveAt(f, 1, 0, 1, "t00000", "s01");
    RepresentativeIsResolve(f, 0);
    RepresentativeIsResolve(f, 1);
  }

  lemma TwoChannelCounts(f: Container, sh: Triple)
    requires f == TwoChannelFileShaped(sh)
    ensures NumTseries(f) == 1 && NumChannels(f) == 2
  {
    TwoChannelKeys(f, sh);
  }

  lemma TwoChannelConverts(f: Container, sh: Triple)
    requires f == TwoChannelFileShaped(sh)
    ensures Multiscales(f) == Ok([0, 1])
    ensures ConvertSucceeds(f)
  {
    TwoChannelKeys(f, sh);
    TwoChannelTables(f, sh);
    TwoChannelArrays(f, sh);
    TwoChannelLevels(f, sh);
    ConvertSucceedsIff(f);
  }

  /** Discovery finds the two channels and the time point, `multiscales`
      lists levels 0 and 1, and the planned arrays are (1, 2, 100, 100, 100)
      and (1, 2, 50, 50, 50), chunked one slice per chunk. */
  lemma TwoChannelPlan(f: Container)
    requires f == TwoChannelFile()
    ensures ChannelKeys(f) == ["s00", "s01"]
    ensures TseriesKeys(f) == ["t00000"]
    ensures Multiscales(f) == Ok([0, 1])
    ensures ConvertSucceeds(f)
    ensures Representative(f, 0).Ok? && Representative(f, 1).Ok?
    ensures Layout(NumTseries(f), NumChannels(f), Representative(f, 0).value)
      == ArrayMeta([1, 2, 100, 100, 100], [1, 1, 32, 32, 32])
    ensures Layout(NumTseries(f), NumChannels(f), Representative(f, 1).value)
      == ArrayMeta([1, 2, 50, 50, 50], [1, 1, 32, 32, 32])
  {
    TwoChannelKeys(f, Full);
    TwoChannelConverts(f, Full);
    TwoChannelRepresentatives(f, Full);
    TwoChannelCounts(f, Full);
  }

  /** In `to_zarr` as written, slice [0, 1] of level 0 receives the
      representative (token 1, from `s00`), while the dataset of time point
      0 and channel 1 holds token 3. */
  lemma BroadcastCounterexample(f: Container)
    requires f == TwoChannelFile()
    ensures ConvertSucceeds(f)
    ensures Representative(f, 0).Ok? && Resolve(f, 0, 0, 1).Ok?
    ensures Representative(f, 0).value.content != Resolve(f, 0, 0, 1).value.content
  {
    TwoChannelConverts(f, Full);
    TwoChannelRepresentatives(f, Full);
  }

  /** In the file as drawn every slot has its representative's shape, so
      the corrected conversion accepts it. */
  lemma TwoChannelShapesAgree(f: Container)
    requires f == TwoChannelFile()
    ensures ConvertSucceeds(f) && ShapesAgree(f)
  {
    TwoChannelConverts(f, Full);
    TwoChannelCounts(f, Full);
    TwoChannelRepresentatives(f, Full);
    RepresentativeIsResolve(f, 0);
    RepresentativeIsResolve(f, 1);
    assert SlotFits(f, 0, 0, 0) && SlotFits(f, 0, 0, 1);
    assert SlotFits(f, 1, 0, 0) && SlotFits(f, 1, 0, 1);
    PairShapesAgree(f);
  }

  /** A file with levels [0, 1], one time point and two channels whose
      four slots all fit. */
  lemma PairShapesAgree(f: Container)
    requires Multiscales(f) == Ok([0, 1]) && NumTseries(f) == 1 && NumChannels(f) == 2
    requires SlotFits(f, 0, 0, 0) && SlotFits(f, 0, 0, 1)
    requires SlotFits(f, 1, 0, 0) && SlotFits(f, 1, 0, 1)
    ensures ShapesAgree(f)
  {
    PairSlots(SlotsFit(f));
  }

  /** Levels [0, 1], one time point, two channels: four slots. */
  lemma PairSlots(p: (nat, nat, nat) -> bool)
    requires p(0, 0, 0) && p(0, 0, 1) && p(1, 0, 0) && p(1, 0, 1)
    ensures AllSlots([0, 1], 1, 2, p)
  {
    var levels: seq<nat> := [0, 1];
    forall k, t, c | 0 <= k < |levels| && t < 1 && c < 2
      ensures p(levels[k], t, c)
    {
      assert levels[k] == k;
    }
  }

  lemma ShapeMismatchRejected(f: Container)
    requires f == TwoChannelFileShaped(Triple(7, 7, 7))
    ensures ConvertSucceeds(f) && !ShapesAgree(f)
  {
    var sh := Triple(7, 7, 7);
    TwoChannelConverts(f, sh);
    TwoChannelCounts(f, sh);
    TwoChannelRepresentatives(f, sh);
    assert !SlotFits(f, 0, 0, 1);
    PairMisfit(f);
  }

  /** A file with levels [0, 1], one time point and two channels whose
      level-0 slot of channel 1 does not fit. */
  lemma PairMisfit(f: Container)
    requires Multiscales(f) == Ok([0, 1]) && NumTseries(f) == 1 && NumChannels(f) == 2
    requires !SlotFits(f, 0, 0, 1)
    ensures !ShapesAgree(f)
  {
    SlotMissing([0, 1], 1, 2, SlotsFit(f), 0, 0, 1);
  }

  /** One slot on which `p` fails is enough to break `AllSlots`. */
  lemma SlotMissing(levels: seq<nat>, nt: nat, nc: nat, p: (nat, nat, nat) -> bool, k: nat, t: nat, c: nat)
    requires k < |levels| && t < nt && c < nc && !p(levels[k], t, c)
    ensures !AllSlots(levels, nt, nc, p)
  {
  }
}
