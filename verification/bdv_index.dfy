/** Discovery and lookup of `BigDataViewerHDF5` (ome_zarr/bdvh5.py):
    channel and time-point keys, the per-channel tables, the unified level
    list `multiscales`, the `arrays` lookup table and positional indexing. */
module BdvIndex {
  import opened Results
  import opened Sequences
  import opened BdvLayout

  /** Python's `key.startswith(c)` for a one-character prefix. */
  predicate StartsWith(key: string, c: char) {
    |key| > 0 && key[0] == c
  }

  /** `tuple(filter(lambda s: s.startswith(c), keys))`. */
  function KeysWithPrefix(keys: seq<string>, c: char): (r: seq<string>)
    ensures forall k :: k in r <==> k in keys && StartsWith(k, c)
    ensures |r| <= |keys|
  {
    if |keys| == 0 then []
    else (if StartsWith(keys[0], c) then [keys[0]] else []) + KeysWithPrefix(keys[1..], c)
  }

  /** Filtering distributes over concatenation: the kept keys appear in
      the order of the input. */
  lemma {:induction false} KeysWithPrefixAppend(a: seq<string>, b: seq<string>, c: char)
    ensures KeysWithPrefix(a + b, c) == KeysWithPrefix(a, c) + KeysWithPrefix(b, c)
  {
    if |a| == 0 {
      assert a + b == b;
    } else {
      assert (a + b)[0] == a[0];
      assert (a + b)[1..] == a[1..] + b;
      KeysWithPrefixAppend(a[1..], b, c);
    }
  }

  lemma {:induction false} KeysWithPrefixDistinct(keys: seq<string>, c: char)
    requires Distinct(keys)
    ensures Distinct(KeysWithPrefix(keys, c))
  {
    if |keys| > 0 {
      var tail := keys[1..];
      assert Distinct(tail) by {
        forall i, j | 0 <= i < j < |tail|
          ensures tail[i] != tail[j]
        {
          assert tail[i] == keys[i + 1] && tail[j] == keys[j + 1];
        }
      }
      KeysWithPrefixDistinct(tail, c);
      forall j | 0 <= j < |tail|
        ensures tail[j] != keys[0]
      {
        assert tail[j] == keys[j + 1];
      }
      var rest := KeysWithPrefix(tail, c);
      assert keys[0] !in rest;
      var r := KeysWithPrefix(keys, c);
      if StartsWith(keys[0], c) {
        assert r == [keys[0]] + rest;
        forall i, j | 0 <= i < j < |r|
          ensures r[i] != r[j]
        {
          assert r[j] == rest[j - 1];
          if i > 0 {
            assert r[i] == rest[i - 1];
          }
        }
      } else {
        assert r == rest;
      }
    }
  }

  /** Two different prefixes split off at most all of the keys. */
  lemma {:induction false} PrefixesShareKeys(keys: seq<string>, a: char, b: char)
    requires a != b
    ensures |KeysWithPrefix(keys, a)| + |KeysWithPrefix(keys, b)| <= |keys|
  {
    if |keys| > 0 {
      PrefixesShareKeys(keys[1..], a, b);
    }
  }

  /** The root members whose name starts with `c`, each once, in the
      order h5py enumerates them. */
  function DiscoveredKeys(f: Container, c: char): (r: seq<string>)
    ensures forall k :: k in r <==> k in f.keys && StartsWith(k, c)
    ensures Distinct(r)
  {
    KeysWithPrefixDistinct(f.keys, c);
    KeysWithPrefix(f.keys, c)
  }

  /** `channel_keys`. */
  function ChannelKeys(f: Container): seq<string> {
    DiscoveredKeys(f, 's')
  }

  /** `tseries_keys`. */
  function TseriesKeys(f: Container): seq<string> {
    DiscoveredKeys(f, 't')
  }

  /** Channel and time-point keys never overlap, together take at most
      all root members, and leave out names such as `__DATA_TYPES__`. */
  lemma DiscoveryPartition(f: Container)
    ensures forall k :: k in ChannelKeys(f) ==> k !in TseriesKeys(f)
    ensures |ChannelKeys(f)| + |TseriesKeys(f)| <= |f.keys|
    ensures "__DATA_TYPES__" !in ChannelKeys(f) && "__DATA_TYPES__" !in TseriesKeys(f)
  {
    PrefixesShareKeys(f.keys, 's', 't');
  }

  /** `num_channels`: the number of distinct root members named `s...`. */
  function NumChannels(f: Container): (n: nat)
    ensures n == |set k | k in f.keys && StartsWith(k, 's')|
  {
    var ck := ChannelKeys(f);
    DistinctCardinality(ck);
    assert Elements(ck) == set k | k in f.keys && StartsWith(k, 's');
    |ck|
  }

  /** `num_tseries`: the number of distinct root members named `t...`. */
  function NumTseries(f: Container): (n: nat)
    ensures n == |set k | k in f.keys && StartsWith(k, 't')|
  {
    var tk := TseriesKeys(f);
    DistinctCardinality(tk);
    assert Elements(tk) == set k | k in f.keys && StartsWith(k, 't');
    |tk|
  }

  /** `dict((c, table_of(c)) for c in channel_keys)`, failing with KeyError
      when some channel group lacks the table. */
  function ChannelTable(ck: seq<string>, table: map<string, nat>): (r: Result<map<string, nat>>)
    ensures r.Ok? <==> forall j :: 0 <= j < |ck| ==> ck[j] in table
    ensures r.Err? ==> r.error == KeyError
    ensures r.Ok? ==> forall k :: k in r.value <==> k in ck
    ensures r.Ok? ==> forall k :: k in r.value ==> r.value[k] == table[k]
  {
    if forall j :: 0 <= j < |ck| ==> ck[j] in table then
      Ok(map k | k in ck :: table[k])
    else
      Err(KeyError)
  }

  /** Every channel group carries a `resolutions` table. */
  predicate HasScaleTables(f: Container) {
    var ck := ChannelKeys(f);
    forall j :: 0 <= j < |ck| ==> ck[j] in f.resolutions
  }

  /** `scales`, reduced to the row count of each channel's `resolutions`. */
  function ScaleRows(f: Container): (r: Result<map<string, nat>>)
    ensures r.Ok? <==> HasScaleTables(f)
    ensures r.Ok? ==> forall k :: k in r.value <==> k in ChannelKeys(f)
    ensures r.Ok? ==> forall j :: 0 <= j < |ChannelKeys(f)| ==>
      r.value[ChannelKeys(f)[j]] == f.resolutions[ChannelKeys(f)[j]]
  {
    ChannelTable(ChannelKeys(f), f.resolutions)
  }

  /** `chunk_sizes`, reduced to the row count of each channel's `subdivisions`. */
  function ChunkSizeRows(f: Container): (r: Result<map<string, nat>>)
    ensures r.Ok? <==> forall j :: 0 <= j < |ChannelKeys(f)| ==> ChannelKeys(f)[j] in f.subdivisions
    ensures r.Ok? ==> forall k :: k in r.value <==> k in ChannelKeys(f)
    ensures r.Ok? ==> forall j :: 0 <= j < |ChannelKeys(f)| ==>
      r.value[ChannelKeys(f)[j]] == f.subdivisions[ChannelKeys(f)[j]]
  {
    ChannelTable(ChannelKeys(f), f.subdivisions)
  }

  /** At least one channel, and all channels have the same level count. */
  predicate LevelsAgree(f: Container)
    requires HasScaleTables(f)
  {
    var ck := ChannelKeys(f);
    |ck| > 0 && forall j :: 0 <= j < |ck| ==> f.resolutions[ck[j]] == f.resolutions[ck[0]]
  }

  /** `multiscales`: the level indices `0 .. L-1` when every channel has L
      levels, and otherwise the per-channel level COUNTS themselves (also
      the empty list when there is no channel). */
  function Multiscales(f: Container): (r: Result<seq<nat>>)
    ensures r.Ok? <==> HasScaleTables(f)
    ensures r.Err? ==> r.error == KeyError
    ensures r.Ok? && LevelsAgree(f) ==>
      var n := f.resolutions[ChannelKeys(f)[0]];
      |r.value| == n && forall j :: 0 <= j < n ==> r.value[j] == j
    ensures r.Ok? && !LevelsAgree(f) ==>
      |r.value| == |ChannelKeys(f)|
      && forall j :: 0 <= j < |r.value| ==> r.value[j] == f.resolutions[ChannelKeys(f)[j]]
  {
    var scales :- ScaleRows(f);
    var ck := ChannelKeys(f);
    var lengths := seq(|ck|, j requires 0 <= j < |ck| => scales[ck[j]]);
    assert forall j :: 0 <= j < |ck| ==> lengths[j] == f.resolutions[ck[j]];
    SingletonIffUniform(lengths);
    if |Elements(lengths)| == 1 then Ok(Range(lengths[0])) else Ok(lengths)
  }

  /** Every `cells` dataset that `arrays` opens is present. */
  predicate CellsPresent(f: Container)
    requires HasScaleTables(f)
  {
    var tk := TseriesKeys(f);
    var ck := ChannelKeys(f);
    forall t, c, l :: t in tk && c in ck && c in f.resolutions && 0 <= l < f.resolutions[c] ==>
      CellPath(t, c, l) in f.cells
  }

  /** `[h5[t][c][str(i)]['cells'] for i in range(n)]`. */
  function LevelList(f: Container, t: string, c: string, n: nat): (r: seq<Dataset>)
    requires forall l :: 0 <= l < n ==> CellPath(t, c, l) in f.cells
    ensures |r| == n
    ensures forall l :: 0 <= l < n ==> r[l] == f.cells[CellPath(t, c, l)]
  {
    seq(n, l requires 0 <= l < n => f.cells[CellPath(t, c, l)])
  }

  /** The channel dictionary `arrays[t]` of one time key. */
  function ChannelLists(f: Container, t: string, ck: seq<string>, scales: map<string, nat>)
    : (r: map<string, seq<Dataset>>)
    requires forall c :: c in ck ==> c in scales
    requires forall c, l :: c in ck && 0 <= l < scales[c] ==> CellPath(t, c, l) in f.cells
    ensures forall k :: k in r <==> k in ck
    ensures forall c :: c in r ==> r[c] == LevelList(f, t, c, scales[c])
  {
    map c | c in ck :: LevelList(f, t, c, scales[c])
  }

  /** `arrays`: time key -> channel key -> list of the `cells` datasets of
      levels `0 .. len(scales[ch])-1`. The table of scales is consulted
      only once a (time, channel) pair is visited. */
  function Arrays(f: Container): (r: Result<map<string, map<string, seq<Dataset>>>>)
    ensures r.Ok? <==>
      |TseriesKeys(f)| == 0 || |ChannelKeys(f)| == 0 || (HasScaleTables(f) && CellsPresent(f))
    ensures r.Err? ==> r.error == KeyError
    ensures r.Ok? ==> forall k :: k in r.value <==> k in TseriesKeys(f)
    ensures r.Ok? ==> forall t :: t in r.value ==> forall k :: k in r.value[t] <==> k in ChannelKeys(f)
    ensures r.Ok? ==> forall t, c :: t in r.value && c in r.value[t] ==>
      c in f.resolutions && |r.value[t][c]| == f.resolutions[c]
      && forall l :: 0 <= l < |r.value[t][c]| ==>
        CellPath(t, c, l) in f.cells && r.value[t][c][l] == f.cells[CellPath(t, c, l)]
  {
    var tk := TseriesKeys(f);
    var ck := ChannelKeys(f);
    if |tk| == 0 || |ck| == 0 then
      Ok(map t | t in tk :: map[])
    else
      var scales :- ScaleRows(f);
      if CellsPresent(f) then
        Ok(map t | t in tk :: ChannelLists(f, t, ck, scales))
      else
        Err(KeyError)
  }

  /** The dataset `arrays[tseries_keys[t]][channel_keys[ch]][res]` named by
      the positional part of `__getitem__`'s index. */
  function Resolve(f: Container, res: nat, t: nat, ch: nat): (r: Result<Dataset>)
    ensures r.Ok? <==>
      t < |TseriesKeys(f)| && ch < |ChannelKeys(f)| && Arrays(f).Ok?
      && res < f.resolutions[ChannelKeys(f)[ch]]
    ensures r.Ok? ==>
      var path := CellPath(TseriesKeys(f)[t], ChannelKeys(f)[ch], res);
      path in f.cells && r.value == f.cells[path]
    ensures r.Err? ==> r.error ==
                         (if t < |TseriesKeys(f)| && ch < |ChannelKeys(f)| && Arrays(f).Err?
                          then KeyError else IndexError)
  {
    var tk := TseriesKeys(f);
    var ck := ChannelKeys(f);
    if t >= |tk| then Err(IndexError)
    else if ch >= |ck| then Err(IndexError)
    else
      var arrays :- Arrays(f);
      var levels := arrays[tk[t]][ck[ch]];
      if res < |levels| then Ok(levels[res]) else Err(IndexError)
  }

  /** What `Resolve` finds is the entry of the `arrays` table under the
      keys and level it names. */
  lemma ResolveReadsArrays(f: Container, res: nat, t: nat, ch: nat)
    requires Resolve(f, res, t, ch).Ok?
    ensures Arrays(f).Ok?
    ensures TseriesKeys(f)[t] in Arrays(f).value
    ensures ChannelKeys(f)[ch] in Arrays(f).value[TseriesKeys(f)[t]]
    ensures res < |Arrays(f).value[TseriesKeys(f)[t]][ChannelKeys(f)[ch]]|
    ensures Resolve(f, res, t, ch).value == Arrays(f).value[TseriesKeys(f)[t]][ChannelKeys(f)[ch]][res]
  {
  }

  /** The 6-tuple index `(res, t, ch, z, y, x)` of `__getitem__`; the spatial
      selectors are kept abstract. */
  datatype Index<S> = Index(res: nat, t: nat, ch: nat, z: S, y: S, x: S)

  /** `__getitem__`: reads the selected region of the dataset found at the
      positional (res, t, ch); `read` stands for h5py's spatial slicing. */
  function GetItem<S, V>(f: Container, idx: Index<S>, read: (Dataset, S, S, S) -> V): (r: Result<V>)
    ensures r.Ok? <==>
      idx.t < |TseriesKeys(f)| && idx.ch < |ChannelKeys(f)| && Arrays(f).Ok?
      && idx.res < f.resolutions[ChannelKeys(f)[idx.ch]]
    ensures r.Ok? ==>
      var path := CellPath(TseriesKeys(f)[idx.t], ChannelKeys(f)[idx.ch], idx.res);
      path in f.cells && r.value == read(f.cells[path], idx.z, idx.y, idx.x)
    ensures r.Err? ==> r.error ==
                         (if idx.t < |TseriesKeys(f)| && idx.ch < |ChannelKeys(f)| && Arrays(f).Err?
                          then KeyError else IndexError)
  {
    var dset :- Resolve(f, idx.res, idx.t, idx.ch);
    Ok(read(dset, idx.z, idx.y, idx.x))
  }
}
