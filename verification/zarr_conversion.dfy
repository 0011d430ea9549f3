/** `BigDataViewerHDF5.to_zarr` (ome_zarr/bdvh5.py): for every entry `i`
    of `multiscales`, create a destination array named `i` shaped
    `(T, C, *dset.shape)` and chunked `(1, 1, *dset.chunks)`, where `dset`
    is the level-`i` dataset of the first time point and first channel,
    then assign `dset` to every outer slice `[t, ch, :]`.

    The destination store is a value: one shape/chunk record per array
    name and the token written into each outer slice. */
module ZarrConversion {
  import opened Results
  import opened Sequences
  import opened BdvLayout
  import opened BdvIndex

  /** Outer slice `[t, c, :]` of the destination array named `level`. */
  datatype Slot = Slot(level: nat, t: nat, c: nat)

  /** Shape and chunk shape of a destination array, outermost axis first. */
  datatype ArrayMeta = ArrayMeta(shape: seq<nat>, chunks: seq<nat>)

  datatype Store = Store(arrays: map<nat, ArrayMeta>, slices: map<Slot, Token>)

  const EmptyStore := Store(map[], map[])

  /** The array record planned from a representative dataset: outer axes
      (time, channel) with one slice per chunk, then the dataset's own
      spatial shape and chunking. */
  function Layout(numT: nat, numC: nat, d: Dataset): ArrayMeta {
    ArrayMeta([numT, numC, d.shape.z, d.shape.y, d.shape.x],
              [1, 1, d.chunks.z, d.chunks.y, d.chunks.x])
  }

  /** `self.arrays[self.tseries_keys[0]][self.channel_keys[0]][i]`, evaluated
      in Python's order: the lookup table first, then the two indices. */
  function Representative(f: Container, i: nat): (r: Result<Dataset>)
    ensures r.Ok? <==>
      |TseriesKeys(f)| > 0 && |ChannelKeys(f)| > 0 && Arrays(f).Ok?
      && i < f.resolutions[ChannelKeys(f)[0]]
    ensures r.Ok? ==>
      var path := CellPath(TseriesKeys(f)[0], ChannelKeys(f)[0], i);
      path in f.cells && r.value == f.cells[path]
    ensures r.Err? ==> r.error == (if Arrays(f).Err? then KeyError else IndexError)
  {
    var arrays :- Arrays(f);
    var tk := TseriesKeys(f);
    var ck := ChannelKeys(f);
    if |tk| == 0 then Err(IndexError)
    else if |ck| == 0 then Err(IndexError)
    else
      var levels := arrays[tk[0]][ck[0]];
      if i < |levels| then Ok(levels[i]) else Err(IndexError)
  }

  /** The representative is what `__getitem__` resolves at (i, 0, 0): both
      fail, and with the same exception, on exactly the same inputs. */
  lemma RepresentativeIsResolve(f: Container, i: nat)
    ensures Representative(f, i) == Resolve(f, i, 0, 0)
  {
  }

  /** The conversion runs to completion: `multiscales` is computed and
      every level it lists has a representative dataset. */
  predicate ConvertSucceeds(f: Container) {
    var ms := Multiscales(f);
    ms.Ok? && forall k :: 0 <= k < |ms.value| ==> Representative(f, ms.value[k]).Ok?
  }

  /** When channels disagree on their level count, the first entry of
      `multiscales` is channel 0's own count, one past its last level, so
      the first lookup of a representative already fails: with KeyError
      when the `arrays` table cannot be built (it is evaluated first), and
      otherwise with IndexError. */
  lemma DivergentLevelsFailFirst(f: Container)
    requires HasScaleTables(f) && !LevelsAgree(f) && |ChannelKeys(f)| > 0
    ensures Multiscales(f).Ok? && |Multiscales(f).value| > 0
    ensures Representative(f, Multiscales(f).value[0]).Err?
    ensures Representative(f, Multiscales(f).value[0]).error ==
              (if Arrays(f).Ok? then IndexError else KeyError)
  {
  }

  /** The first level decides the whole conversion: if its representative
      exists, so does every later one, so an error can only stop the
      conversion before anything has been created or written. */
  lemma {:induction false} FirstLevelDecides(f: Container)
    requires Multiscales(f).Ok? && |Multiscales(f).value| > 0
    ensures ConvertSucceeds(f) <==> Representative(f, Multiscales(f).value[0]).Ok?
  {
    var levels := Multiscales(f).value;
    var ck := ChannelKeys(f);
    if LevelsAgree(f) {
      forall k | 0 <= k < |levels| && Representative(f, levels[0]).Ok?
        ensures Representative(f, levels[k]).Ok?
      {
        assert levels[k] == k && levels[0] == 0;
      }
    } else {
      DivergentLevelsFailFirst(f);
    }
  }

  /** When `to_zarr` succeeds, described without reference to its steps:
      every channel has a `resolutions` table, and either there is no
      channel (nothing to do), or all channels share one level count L and
      either L is 0 or the lookup table builds and there is a time point. */
  lemma ConvertSucceedsIff(f: Container)
    ensures ConvertSucceeds(f) <==>
      HasScaleTables(f)
      && (|ChannelKeys(f)| == 0
          || (LevelsAgree(f)
              && (f.resolutions[ChannelKeys(f)[0]] == 0
                  || (Arrays(f).Ok? && |TseriesKeys(f)| > 0))))
  {
    var ck := ChannelKeys(f);
    if HasScaleTables(f) && |ck| > 0 {
      var levels := Multiscales(f).value;
      if LevelsAgree(f) {
        var n := f.resolutions[ck[0]];
        if n > 0 && ConvertSucceeds(f) {
          assert Representative(f, levels[0]).Ok?;
        }
        if n > 0 && Arrays(f).Ok? && |TseriesKeys(f)| > 0 {
          forall k | 0 <= k < |levels|
            ensures Representative(f, levels[k]).Ok?
          {
            assert levels[k] == k;
          }
        }
      } else {
        DivergentLevelsFailFirst(f);
      }
    }
  }

  /** A successful conversion visits each level index `0 .. L-1` once. */
  lemma SuccessfulLevelsAreRange(f: Container)
    requires ConvertSucceeds(f)
    ensures Multiscales(f).value == Range(|Multiscales(f).value|)
    ensures Distinct(Multiscales(f).value)
  {
    ConvertSucceedsIff(f);
    var levels := Multiscales(f).value;
    if |ChannelKeys(f)| == 0 {
      assert !LevelsAgree(f);
      assert levels == [];
    }
    assert levels == Range(|levels|);
    RangeDistinct(|levels|);
  }

  /** `s` is an outer slice of array `level` with T time points and C channels. */
  predicate InGrid(s: Slot, level: nat, numT: nat, numC: nat) {
    s.level == level && s.t < numT && s.c < numC
  }

  /** Order of the inner loop's writes: `(t, 0), .., (t, numC-1)`. */
  function RowOrder(level: nat, t: nat, numC: nat): (r: seq<Slot>)
    decreases numC
  {
    if numC == 0 then [] else RowOrder(level, t, numC - 1) + [Slot(level, t, numC - 1)]
  }

  /** Order of the nested loop's writes for one level: rows `0 .. numT-1`. */
  function GridOrder(level: nat, numT: nat, numC: nat): (r: seq<Slot>)
    decreases numT
  {
    if numT == 0 then [] else GridOrder(level, numT - 1, numC) + RowOrder(level, numT - 1, numC)
  }

  /** Order of all writes over a list of levels. */
  function Schedule(levels: seq<nat>, numT: nat, numC: nat): (r: seq<Slot>)
    decreases |levels|
  {
    if |levels| == 0 then []
    else Schedule(levels[..|levels| - 1], numT, numC) + GridOrder(levels[|levels| - 1], numT, numC)
  }

  lemma {:induction false} RowOrderExactlyOnce(level: nat, t: nat, numC: nat)
    ensures |RowOrder(level, t, numC)| == numC
    ensures Distinct(RowOrder(level, t, numC))
    ensures forall s :: s in RowOrder(level, t, numC) <==> s.level == level && s.t == t && s.c < numC
  {
    if numC > 0 {
      RowOrderExactlyOnce(level, t, numC - 1);
    }
  }

  /** The nested loop writes each outer slice of the level exactly once. */
  lemma {:induction false} GridOrderExactlyOnce(level: nat, numT: nat, numC: nat)
    ensures |GridOrder(level, numT, numC)| == numT * numC
    ensures Distinct(GridOrder(level, numT, numC))
    ensures forall s :: s in GridOrder(level, numT, numC) <==> InGrid(s, level, numT, numC)
  {
    if numT > 0 {
      GridOrderExactlyOnce(level, numT - 1, numC);
      RowOrderExactlyOnce(level, numT - 1, numC);
      var a := GridOrder(level, numT - 1, numC);
      var b := RowOrder(level, numT - 1, numC);
      DistinctAppend(a, b);
      assert (numT - 1) * numC + numC == numT * numC;
    }
  }

  lemma DistinctAppend<T>(a: seq<T>, b: seq<T>)
    requires Distinct(a) && Distinct(b)
    requires forall x :: x in a ==> x !in b
    ensures Distinct(a + b)
  {
    var ab := a + b;
    forall i, j | 0 <= i < j < |ab|
      ensures ab[i] != ab[j]
    {
      if j < |a| {
        assert ab[i] == a[i] && ab[j] == a[j];
      } else if i >= |a| {
        assert ab[i] == b[i - |a|] && ab[j] == b[j - |a|];
      } else {
        assert ab[i] == a[i] && ab[j] == b[j - |a|];
        assert a[i] in a;
      }
    }
  }

  /** Over distinct levels, the whole conversion writes every outer slice of
      every created array exactly once. */
  lemma {:induction false} ScheduleExactlyOnce(levels: seq<nat>, numT: nat, numC: nat)
    requires Distinct(levels)
    ensures Distinct(Schedule(levels, numT, numC))
    ensures forall s :: s in Schedule(levels, numT, numC) <==>
      s.level in levels && s.t < numT && s.c < numC
  {
    if |levels| > 0 {
      var init := levels[..|levels| - 1];
      var last := levels[|levels| - 1];
      assert Distinct(init);
      ScheduleExactlyOnce(init, numT, numC);
      GridOrderExactlyOnce(last, numT, numC);
      assert last !in init;
      assert levels == init + [last];
      DistinctAppend(Schedule(init, numT, numC), GridOrder(last, numT, numC));
    }
  }

  lemma TakeNext<T>(s: seq<T>, k: nat)
    requires k < |s|
    ensures s[..k + 1] == s[..k] + [s[k]]
  {
  }

  /** A T x C grid of tokens. */
  predicate IsGrid(grid: seq<seq<Token>>, numT: nat, numC: nat) {
    |grid| == numT && forall t :: 0 <= t < numT ==> |grid[t]| == numC
  }

  /** `s` is among the first `numC` slices of row `t` of array `level`. */
  predicate InRow(s: Slot, level: nat, t: nat, numC: nat) {
    s.level == level && s.t == t && s.c < numC
  }

  /** `m` is `base` with the first `c` slices of row `t` of array `level`
      set from `row`. */
  ghost predicate RowFilled(base: map<Slot, Token>, m: map<Slot, Token>, level: nat, t: nat, c: nat, row: seq<Token>) {
    (forall s :: s in m <==> s in base || InRow(s, level, t, c))
    && (forall s :: s in m && InRow(s, level, t, c) ==> s.c < |row| && m[s] == row[s.c])
    && (forall s :: s in m && !InRow(s, level, t, c) ==> s in base && m[s] == base[s])
  }

  /** `m` is `base` with rows `0 .. t-1` of array `level` set from `grid`. */
  ghost predicate GridFilled(base: map<Slot, Token>, m: map<Slot, Token>, level: nat, t: nat, numC: nat, grid: seq<seq<Token>>) {
    (forall s :: s in m <==> s in base || InGrid(s, level, t, numC))
    && (forall s :: s in m && InGrid(s, level, t, numC) ==>
          s.t < |grid| && s.c < |grid[s.t]| && m[s] == grid[s.t][s.c])
    && (forall s :: s in m && !InGrid(s, level, t, numC) ==> s in base && m[s] == base[s])
  }

  /** One iteration of the inner loop of `FillRow`: writing slice `c` extends
      the slices `0 .. c-1` already written to `0 .. c`. */
  lemma FillRowStep(base: map<Slot, Token>, prev: map<Slot, Token>, level: nat, t: nat, row: seq<Token>, c: nat)
    requires c < |row| && RowFilled(base, prev, level, t, c, row)
    ensures RowFilled(base, prev[Slot(level, t, c) := row[c]], level, t, c + 1, row)
  {
  }

  /** The inner loop `for _ch in range(C): _arr[t, _ch, :] = row[_ch]`,
      acting on the slices of the store. */
  method FillRow(slices: map<Slot, Token>, log: seq<Slot>, level: nat, t: nat, row: seq<Token>)
    returns (out: map<Slot, Token>, outLog: seq<Slot>)
    ensures outLog == log + RowOrder(level, t, |row|)
    ensures RowFilled(slices, out, level, t, |row|, row)
  {
    out, outLog := slices, log;
    var c := 0;
    while c < |row|
      invariant 0 <= c <= |row|
      invariant outLog == log + RowOrder(level, t, c)
      invariant RowFilled(slices, out, level, t, c, row)
    {
      FillRowStep(slices, out, level, t, row, c);
      out := out[Slot(level, t, c) := row[c]];
      outLog := outLog + [Slot(level, t, c)];
      c := c + 1;
    }
  }

  /** One iteration of the outer loop of `FillLevel`: filling row `t` extends
      the rows `0 .. t-1` already filled to rows `0 .. t`. */
  lemma FillLevelStep(base: map<Slot, Token>, prev: map<Slot, Token>, next: map<Slot, Token>,
                      level: nat, grid: seq<seq<Token>>, t: nat, numC: nat)
    requires t < |grid| && |grid[t]| == numC
    requires GridFilled(base, prev, level, t, numC, grid)
    requires RowFilled(prev, next, level, t, numC, grid[t])
    ensures GridFilled(base, next, level, t + 1, numC, grid)
  {
  }

  /** Appending row `t`'s writes to those of rows `0 .. t-1`. */
  lemma GridOrderNext(log: seq<Slot>, level: nat, t: nat, numC: nat)
    ensures log + GridOrder(level, t, numC) + RowOrder(level, t, numC) == log + GridOrder(level, t + 1, numC)
  {
  }

  /** The nested loop `for _t in range(T): for _ch in range(C): _arr[_t, _ch, :] = grid[_t][_ch]`
      on the slices of the array named `level`; `log` records the order of
      the writes. */
  method FillLevel(slices: map<Slot, Token>, log: seq<Slot>, level: nat, grid: seq<seq<Token>>, numT: nat, numC: nat)
    returns (out: map<Slot, Token>, outLog: seq<Slot>)
    requires IsGrid(grid, numT, numC)
    ensures outLog == log + GridOrder(level, numT, numC)
    ensures GridFilled(slices, out, level, numT, numC, grid)
  {
    out, outLog := slices, log;
    var t := 0;
    while t < numT
      invariant 0 <= t <= numT
      invariant outLog == log + GridOrder(level, t, numC)
      invariant GridFilled(slices, out, level, t, numC, grid)
    {
      var next;
      next, outLog := FillRow(out, outLog, level, t, grid[t]);
      FillLevelStep(slices, out, next, level, grid, t, numC);
      GridOrderNext(log, level, t, numC);
      out := next;
      t := t + 1;
    }
  }

  /** What one pass of the level loop writes into slice `[t, c, :]` of the
      array named `level`, given that level's representative dataset `d`. */
  type SliceSource = (Dataset, nat, nat, nat) -> Token

  /** The grid of tokens a level pass writes. */
  function LevelGrid(token: SliceSource, d: Dataset, level: nat, numT: nat, numC: nat): (r: seq<seq<Token>>)
    ensures IsGrid(r, numT, numC)
    ensures forall t, c :: 0 <= t < numT && 0 <= c < numC ==> r[t][c] == token(d, level, t, c)
  {
    seq(numT, t requires 0 <= t < numT => seq(numC, c requires 0 <= c < numC => token(d, level, t, c)))
  }

  /** One pass of the level loop: create the array named `level` with the
      layout of `dset`, then fill every outer slice. */
  method CreateLevel(dest: Store, log: seq<Slot>, level: nat, dset: Dataset, numT: nat, numC: nat, token: SliceSource)
    returns (out: Store, outLog: seq<Slot>)
    ensures out.arrays == dest.arrays[level := Layout(numT, numC, dset)]
    ensures outLog == log + GridOrder(level, numT, numC)
    ensures forall s :: s in out.slices <==> s in dest.slices || InGrid(s, level, numT, numC)
    ensures forall s :: s in out.slices && InGrid(s, level, numT, numC) ==>
      out.slices[s] == token(dset, level, s.t, s.c)
    ensures forall s :: s in out.slices && !InGrid(s, level, numT, numC) ==> out.slices[s] == dest.slices[s]
  {
    var slices;
    slices, outLog := FillLevel(dest.slices, log, level, LevelGrid(token, dset, level, numT, numC), numT, numC);
    out := Store(dest.arrays[level := Layout(numT, numC, dset)], slices);
  }

  /** `dest` holds exactly the arrays and slices of the levels `done`,
      planned from each level's representative and filled by `token`. */
  ghost predicate LevelsDone(dest: Store, done: seq<nat>, numT: nat, numC: nat,
                             rep: nat -> Result<Dataset>, token: SliceSource) {
    (forall i :: i in dest.arrays <==> i in done)
    && (forall i :: i in dest.arrays ==>
          rep(i).Ok? && dest.arrays[i] == Layout(numT, numC, rep(i).value))
    && (forall s :: s in dest.slices <==> s.level in done && s.t < numT && s.c < numC)
    && (forall s :: s in dest.slices ==>
          rep(s.level).Ok? && dest.slices[s] == token(rep(s.level).value, s.level, s.t, s.c))
  }

  /** One pass of the level loop extends the levels done by one. */
  lemma LevelsDoneStep(prev: Store, next: Store, done: seq<nat>, i: nat, numT: nat, numC: nat,
                       rep: nat -> Result<Dataset>, token: SliceSource)
    requires LevelsDone(prev, done, numT, numC, rep, token)
    requires rep(i).Ok?
    requires next.arrays == prev.arrays[i := Layout(numT, numC, rep(i).value)]
    requires forall s :: s in next.slices <==> s in prev.slices || InGrid(s, i, numT, numC)
    requires forall s :: s in next.slices && InGrid(s, i, numT, numC) ==>
      next.slices[s] == token(rep(i).value, i, s.t, s.c)
    requires forall s :: s in next.slices && !InGrid(s, i, numT, numC) ==> next.slices[s] == prev.slices[s]
    ensures LevelsDone(next, done + [i], numT, numC, rep, token)
  {
  }

  /** The level loop of `to_zarr` over a given list of levels, with `rep`
      looking up each level's representative dataset and `token` choosing
      what goes into each slice. An error may only come from the first
      level: the caller guarantees that a first representative implies all
      the others. */
  method ConvertLevels(levels: seq<nat>, numT: nat, numC: nat, rep: nat -> Result<Dataset>, token: SliceSource)
    returns (dest: Store, log: seq<Slot>, err: Option<Error>)
    requires forall k :: 0 <= k < |levels| && rep(levels[0]).Ok? ==> rep(levels[k]).Ok?
    ensures err.None? <==> forall k :: 0 <= k < |levels| ==> rep(levels[k]).Ok?
    ensures err.Some? ==> dest == EmptyStore && log == [] && err.value == rep(levels[0]).error
    ensures err.None? ==> log == Schedule(levels, numT, numC)
    ensures err.None? ==> forall i :: i in dest.arrays <==> i in levels
    ensures err.None? ==> forall i :: i in dest.arrays ==>
      rep(i).Ok? && dest.arrays[i] == Layout(numT, numC, rep(i).value)
    ensures err.None? ==> forall s :: s in dest.slices <==> s.level in levels && s.t < numT && s.c < numC
    ensures err.None? ==> forall s :: s in dest.slices ==>
      rep(s.level).Ok? && dest.slices[s] == token(rep(s.level).value, s.level, s.t, s.c)
  {
    dest, log, err := EmptyStore, [], None;
    var k := 0;
    while k < |levels|
      invariant 0 <= k <= |levels|
      invariant forall j :: 0 <= j < k ==> rep(levels[j]).Ok?
      invariant k == 0 ==> dest == EmptyStore && log == []
      invariant log == Schedule(levels[..k], numT, numC)
      invariant LevelsDone(dest, levels[..k], numT, numC, rep, token)
    {
      var i := levels[k];
      var r := rep(i);
      if r.Err? {
        err := Some(r.error);
        return;
      }
      var next, nextLog := CreateLevel(dest, log, i, r.value, numT, numC, token);
      LevelsDoneStep(dest, next, levels[..k], i, numT, numC, rep, token);
      TakeNext(levels, k);
      dest, log := next, nextLog;
      k := k + 1;
    }
    assert levels[..k] == levels;
  }

  /** The lookup `to_zarr` performs at each level. */
  function Representatives(f: Container): nat -> Result<Dataset> {
    (i: nat) => Representative(f, i)
  }

  /** `to_zarr`, starting from an empty destination group. Returns the
      store, the order of the slice writes and the exception, if any. Every
      outer slice of array `i` receives the representative dataset
      `arrays[tseries_keys[0]][channel_keys[0]][i]`, whatever its (t, ch). */
  method ToZarr(f: Container) returns (dest: Store, log: seq<Slot>, err: Option<Error>)
    ensures err.None? <==> ConvertSucceeds(f)
    ensures err.Some? ==> dest == EmptyStore && log == []
    ensures err.Some? && Multiscales(f).Err? ==> err.value == KeyError
    ensures err.Some? && Multiscales(f).Ok? ==>
      |Multiscales(f).value| > 0 && Representative(f, Multiscales(f).value[0]).Err?
      && err.value == Representative(f, Multiscales(f).value[0]).error
    ensures err.None? ==> log == Schedule(Multiscales(f).value, NumTseries(f), NumChannels(f))
    ensures err.None? ==> forall i :: i in dest.arrays <==> i in Multiscales(f).value
    ensures err.None? ==> forall i :: i in dest.arrays ==>
      Representative(f, i).Ok?
      && dest.arrays[i] == Layout(NumTseries(f), NumChannels(f), Representative(f, i).value)
    ensures err.None? ==> forall s :: s in dest.slices <==>
      s.level in Multiscales(f).value && s.t < NumTseries(f) && s.c < NumChannels(f)
    ensures err.None? ==> forall s :: s in dest.slices ==>
      Representative(f, s.level).Ok? && dest.slices[s] == Representative(f, s.level).value.content
  {
    var ms := Multiscales(f);
    if ms.Err? {
      return EmptyStore, [], Some(ms.error);
    }
    if |ms.value| > 0 {
      FirstLevelDecides(f);
    }
    dest, log, err := ConvertLevels(ms.value, NumTseries(f), NumChannels(f), Representatives(f),
      (d: Dataset, i: nat, t: nat, c: nat) => d.content);
  }

  /** A successful conversion writes every outer slice of every array it
      creates exactly once. */
  lemma WritesEachSliceOnce(f: Container)
    requires ConvertSucceeds(f)
    ensures Distinct(Schedule(Multiscales(f).value, NumTseries(f), NumChannels(f)))
    ensures forall s :: s in Schedule(Multiscales(f).value, NumTseries(f), NumChannels(f)) <==>
      s.level in Multiscales(f).value && s.t < NumTseries(f) && s.c < NumChannels(f)
  {
    SuccessfulLevelsAreRange(f);
    ScheduleExactlyOnce(Multiscales(f).value, NumTseries(f), NumChannels(f));
  }

  /** The content of the dataset of slot (i, t, c) itself, as
      `__getitem__` would find it. The fallback 0 for a slot without a
      dataset is never written: `ToZarrPerSlice` only fills slots of a
      successful conversion, which `SuccessResolvesEverySlice` shows all
      resolve. */
  function OwnToken(f: Container, i: nat, t: nat, c: nat): Token {
    match Resolve(f, i, t, c)
    case Ok(d) => d.content
    case Err(_) => 0
  }

  /** The corrected choice of slice contents: the slot's own dataset. */
  function OwnTokens(f: Container): SliceSource {
    (d: Dataset, i: nat, t: nat, c: nat) => OwnToken(f, i, t, c)
  }

  /** In a successful conversion every (level, t, ch) slot names an existing
      dataset of its own, whose content `OwnToken` is. */
  lemma SuccessResolvesEverySlice(f: Container, i: nat, t: nat, c: nat)
    requires ConvertSucceeds(f)
    requires i in Multiscales(f).value && t < NumTseries(f) && c < NumChannels(f)
    ensures Resolve(f, i, t, c).Ok?
    ensures OwnToken(f, i, t, c) == Resolve(f, i, t, c).value.content
  {
    ConvertSucceedsIff(f);
    assert LevelsAgree(f);
    var ck := ChannelKeys(f);
    assert i < f.resolutions[ck[0]] == f.resolutions[ck[c]];
  }

  /** The dataset of slot (i, t, c), where there is one, has the spatial
      shape of level i's representative. */
  predicate SlotFits(f: Container, i: nat, t: nat, c: nat) {
    Resolve(f, i, t, c).Ok? && Representative(f, i).Ok? ==>
      Resolve(f, i, t, c).value.shape == Representative(f, i).value.shape
  }

  /** `SlotFits` for one file, as a value. */
  function SlotsFit(f: Container): (nat, nat, nat) -> bool {
    (i: nat, t: nat, c: nat) => SlotFits(f, i, t, c)
  }

  /** `p` holds for every slot (level, time point, channel) of the grid. */
  predicate AllSlots(levels: seq<nat>, nt: nat, nc: nat, p: (nat, nat, nat) -> bool) {
    forall k, t: nat, c: nat :: 0 <= k < |levels| && 0 <= t < nt && 0 <= c < nc ==> p(levels[k], t, c)
  }

  /** Every slot of every level fits the outer slice planned from that
      level's representative. */
  predicate ShapesAgree(f: Container)
    requires Multiscales(f).Ok?
  {
    AllSlots(Multiscales(f).value, NumTseries(f), NumChannels(f), SlotsFit(f))
  }

  /** `to_zarr` with the copy `_arr[_t, _ch, :] = self.arrays[tk[_t]][ck[_ch]][i]`:
      each outer slice receives the dataset of its own time point and
      channel (see `SuccessResolvesEverySlice`). A slot whose dataset is
      shaped unlike the level's representative cannot be copied into its
      slice; this is reported as ValueError before anything is created. */
  method ToZarrPerSlice(f: Container) returns (dest: Store, log: seq<Slot>, err: Option<Error>)
    ensures err.None? <==> ConvertSucceeds(f) && ShapesAgree(f)
    ensures err.Some? ==> dest == EmptyStore && log == []
    ensures err.Some? && ConvertSucceeds(f) ==> err.value == ValueError
    ensures err.Some? && Multiscales(f).Err? ==> err.value == KeyError
    ensures err.Some? && !ConvertSucceeds(f) && Multiscales(f).Ok? ==>
      |Multiscales(f).value| > 0 && Representative(f, Multiscales(f).value[0]).Err?
      && err.value == Representative(f, Multiscales(f).value[0]).error
    ensures err.None? ==> log == Schedule(Multiscales(f).value, NumTseries(f), NumChannels(f))
    ensures err.None? ==> forall i :: i in dest.arrays <==> i in Multiscales(f).value
    ensures err.None? ==> forall i :: i in dest.arrays ==>
      Representative(f, i).Ok?
      && dest.arrays[i] == Layout(NumTseries(f), NumChannels(f), Representative(f, i).value)
    ensures err.None? ==> forall s :: s in dest.slices <==>
      s.level in Multiscales(f).value && s.t < NumTseries(f) && s.c < NumChannels(f)
    ensures err.None? ==> forall s :: s in dest.slices ==> dest.slices[s] == OwnToken(f, s.level, s.t, s.c)
  {
    var ms := Multiscales(f);
    if ms.Err? {
      return EmptyStore, [], Some(ms.error);
    }
    if |ms.value| > 0 {
      FirstLevelDecides(f);
    }
    if ConvertSucceeds(f) && !ShapesAgree(f) {
      return EmptyStore, [], Some(ValueError);
    }
    dest, log, err := ConvertLevels(ms.value, NumTseries(f), NumChannels(f), Representatives(f), OwnTokens(f));
  }
}
