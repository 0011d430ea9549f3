# BigDataViewer HDF5 to OME-Zarr conversion, modelled in Dafny

`BigDataViewerHDF5` (ome_zarr/bdvh5.py) wraps a BigDataViewer HDF5 file and
converts it to an OME-Zarr group. It finds the channel groups (`sNN`) and
time-point groups (`tNNNNN`) at the root of the file. It then builds a
unified list of resolution levels, `multiscales`, and a lookup table
`arrays[t][ch][level]` of the `cells` datasets. `to_zarr` creates one
five-dimensional array `(T, C, z, y, x)` per level and fills its outer
slices.

The model is a set of pure functions and loop methods over an immutable
value of the file:

- `results.dfy`: the Python exceptions the class raises on its own, as a
  `Result` type. KeyError is a missing HDF5 member; IndexError is a
  tuple or list index that is out of range. ValueError, a slice value whose
  shape does not fit its destination, is raised only by the corrected
  conversion (see Findings).
- `sequences.dfy`: `Distinct`, `Elements` (Python's `set(...)`) and
  `Range` (`list(range(n))`), with the counting facts `num_*` and
  `multiscales` rest on.
- `bdv_layout.dfy`: the file tree. It holds the ordered root member
  names, the row count of each `resolutions` and `subdivisions` table, and
  the `cells` datasets. Each dataset keeps its shape, its chunk shape and
  an opaque token standing for its samples. HDF5 member names within a
  group are unique, so `Container` requires distinct root names.
- `bdv_index.dfy`: the discovery properties, the per-channel tables,
  `multiscales`, `arrays` and `__getitem__`. Python's evaluation order is
  kept, so every failure surfaces as the exception the code would raise
  first.
- `zarr_conversion.dfy`: `to_zarr`. This covers the shape and chunk plan of
  each level, the nested `t`/`ch` write loop with the order of its writes,
  and a corrected variant (see Findings).
- `scenario.dfy`: a concrete two-channel file in the layout drawn at the top
  of the source, with its plan and the broadcast counterexample.

Results proved about the conversion:

- `to_zarr` succeeds exactly when every channel has a `resolutions` table,
  and then one of the following holds:
  - there is no channel;
  - all channels share one level count L, and either L is 0 or `arrays`
    builds and there is a time point.
- When channels disagree on their level count, `multiscales` returns the
  counts themselves. The first count is one past channel 0's last level, so
  `to_zarr` fails at its first level, before anything has been created. The
  exception is IndexError when `arrays` builds, and KeyError when it does
  not, because `self.arrays` is evaluated before it is indexed. Every failure of `to_zarr` happens before the first write,
  and level names never repeat.
- A successful conversion writes each outer slice `[t, ch, :]` of each level
  exactly once, in row-major order.

## Model

| member | source | states |
|---|---|---|
| `BdvIndex.KeysWithPrefix` | ome_zarr/bdvh5.py:144-146 | the filtered keys are exactly the input keys with the given first character, and there are no more of them than input keys |
| `BdvIndex.KeysWithPrefixAppend` | ome_zarr/bdvh5.py:144-146 | filtering a concatenation is the concatenation of the filtered parts, so kept keys stay in enumeration order |
| `BdvIndex.KeysWithPrefixDistinct` | ome_zarr/bdvh5.py:144-146 | filtering distinct names yields distinct names |
| `BdvIndex.PrefixesShareKeys` | ome_zarr/bdvh5.py:142-152 | filters on two different first characters together keep at most all the keys |
| `BdvIndex.DiscoveredKeys` | ome_zarr/bdvh5.py:142-152 | `channel_keys` and `tseries_keys` hold exactly the root members whose name starts with `s` (respectively `t`), each once |
| `BdvIndex.DiscoveryPartition` | ome_zarr/bdvh5.py:142-152 | channel and time keys are disjoint, together number at most the root members, and exclude `__DATA_TYPES__` |
| `BdvIndex.NumChannels` | ome_zarr/bdvh5.py:154-156 | `num_channels` is the number of distinct root names starting with `s` |
| `BdvIndex.NumTseries` | ome_zarr/bdvh5.py:158-160 | `num_tseries` is the number of distinct root names starting with `t` |
| `BdvIndex.ScaleRows` | ome_zarr/bdvh5.py:162-166 | `scales` builds iff every channel has `resolutions`, and then maps each channel key to that channel's row count |
| `BdvIndex.ChunkSizeRows` | ome_zarr/bdvh5.py:175-179 | `chunk_sizes` builds iff every channel has `subdivisions`, and then maps each channel key to that channel's row count |
| `Sequences.SingletonIffUniform` | ome_zarr/bdvh5.py:171 | `len(set(lengths)) == 1` holds exactly when the list is non-empty and all its entries are equal |
| `BdvIndex.Multiscales` | ome_zarr/bdvh5.py:168-173 | KeyError iff some channel lacks `resolutions`; the levels `0 .. L-1` when all channels share level count L; otherwise the per-channel level counts in channel order, including `[]` when there is no channel |
| `BdvIndex.Arrays` | ome_zarr/bdvh5.py:181-193 | the table builds iff there is no time key, or no channel key, or every `resolutions` table and every addressed `cells` dataset exists; otherwise KeyError. It has one entry per time key, each with one entry per channel key, each listing that channel's `cells` datasets level by level |
| `BdvIndex.Resolve` | ome_zarr/bdvh5.py:109-113 | `(res, t, ch)` names a dataset iff t and ch index the key tuples, the table builds and res is below that channel's level count; the dataset is `cells` under `tk[t]/ck[ch]/res`. A failure is KeyError when both indices are in range but the table does not build, and IndexError otherwise |
| `BdvIndex.ResolveReadsArrays` | ome_zarr/bdvh5.py:110-113 | what the positional index resolves to is the `arrays` entry under the named keys and level |
| `BdvIndex.GetItem` | ome_zarr/bdvh5.py:97-114 | `__getitem__` succeeds under the same conditions and returns the spatial read of the `cells` dataset under `tk[t]/ck[ch]/res`; it fails with the same exception as the lookup: KeyError from `self.arrays` once both key lookups succeed, IndexError otherwise |
| `ZarrConversion.Representative` | ome_zarr/bdvh5.py:127 | `dset` exists iff the table builds, there is a time and a channel key, and i is below channel 0's level count; it is `cells` under `tk[0]/ck[0]/i`. It fails with KeyError when the table does not build and with IndexError otherwise |
| `ZarrConversion.RepresentativeIsResolve` | ome_zarr/bdvh5.py:127 | the lookup of `dset` is `__getitem__`'s positional lookup at (i, 0, 0), including which exception it raises |
| `ZarrConversion.DivergentLevelsFailFirst` | ome_zarr/bdvh5.py:168-173 | with disagreeing level counts the first `multiscales` entry has no representative dataset; the lookup raises IndexError if `arrays` builds and KeyError if not |
| `ZarrConversion.FirstLevelDecides` | ome_zarr/bdvh5.py:125-127 | the whole level loop succeeds iff the lookup at its first level does |
| `ZarrConversion.ConvertSucceedsIff` | ome_zarr/bdvh5.py:116-140 | `to_zarr` succeeds iff the tables exist and there is no channel, or the level counts agree and either they are 0 or the table builds and a time key exists |
| `ZarrConversion.SuccessfulLevelsAreRange` | ome_zarr/bdvh5.py:168-173 | in a successful conversion the level list is `0 .. L-1`, so level names are distinct |
| `ZarrConversion.RowOrderExactlyOnce` | ome_zarr/bdvh5.py:139-140 | the inner loop writes slices `(t, 0) .. (t, C-1)`, each once and nothing else |
| `ZarrConversion.GridOrderExactlyOnce` | ome_zarr/bdvh5.py:138-140 | the nested loop makes T*C writes, all distinct, exactly over the slices of the level's grid |
| `ZarrConversion.ScheduleExactlyOnce` | ome_zarr/bdvh5.py:125-140 | over distinct levels, all writes are distinct and cover exactly the grid slices of the listed levels |
| `ZarrConversion.FillRow` | ome_zarr/bdvh5.py:139-140 | the inner loop appends the row's writes to the log and sets exactly slices `(t, 0..C-1)` from the row, leaving every other slice unchanged |
| `ZarrConversion.FillLevel` | ome_zarr/bdvh5.py:138-140 | the nested loop logs the row-major writes and sets exactly the level's T x C slices from the grid, leaving every other slice unchanged |
| `ZarrConversion.CreateLevel` | ome_zarr/bdvh5.py:128-140 | one level pass records the level's shape `(T, C, z, y, x)` and chunks `(1, 1, cz, cy, cx)` and fills exactly that level's slices |
| `ZarrConversion.ConvertLevels` | ome_zarr/bdvh5.py:125-140 | the level loop succeeds iff every level's lookup does; on failure nothing is created; on success the arrays are exactly the levels, each with its planned layout, and the slices are exactly the level grids |
| `ZarrConversion.ToZarr` | ome_zarr/bdvh5.py:116-140 | `to_zarr` as written: success iff the condition of `ConvertSucceedsIff`; errors leave the group empty; arrays are exactly the `multiscales` entries, each shaped and chunked from `dset`; every outer slice holds `dset`'s samples. A failure is KeyError when `multiscales` fails, and otherwise the exception of the first level's `dset` lookup |
| `ZarrConversion.WritesEachSliceOnce` | ome_zarr/bdvh5.py:138-140 | a successful conversion writes every outer slice of every created array exactly once |
| `ZarrConversion.SuccessResolvesEverySlice` | ome_zarr/bdvh5.py:138-140 | in a successful conversion every `(level, t, ch)` slot has a dataset of its own in `arrays` |
| `ZarrConversion.ToZarrPerSlice` | ome_zarr/bdvh5.py:125-140 | corrected `to_zarr`: succeeds iff the condition of `ConvertSucceedsIff` holds and every slot's dataset has its level representative's shape; keeps the plan and write order, and every outer slice holds the samples of its own `(t, ch)` dataset. A shape mismatch gives ValueError, and the other failures are those of `to_zarr`; any failure leaves the group empty |
| `Scenario.TwoChannelPlan` | ome_zarr/bdvh5.py:21-73 | for a file shaped like the drawn example (2 channels, 1 time point, 2 levels) discovery, `multiscales` and the planned shapes `(1, 2, 100, 100, 100)` / `(1, 2, 50, 50, 50)` with chunks `(1, 1, 32, 32, 32)` come out as expected |
| `Scenario.TwoChannelShapesAgree` | ome_zarr/bdvh5.py:126-140 | in the drawn two-channel file every slot has its level representative's shape, so the corrected conversion accepts it |
| `Scenario.ShapeMismatchRejected` | ome_zarr/bdvh5.py:126-140 | when `s01`'s level-0 dataset has another shape than `s00`'s, `to_zarr` succeeds but the slots do not all agree, so the corrected conversion rejects the file |
| `Scenario.BroadcastCounterexample` | ome_zarr/bdvh5.py:127-140 | in that file, slice `[0, 1]` of level 0 receives channel `s00`'s samples although channel `s01` has a different dataset |

## Left out

- Opening the file (`__init__`, ome_zarr/bdvh5.py:75-86) and its unused
  `mode`: the file is a parameter of every operation.
- `__repr__` (ome_zarr/bdvh5.py:88-95): string formatting only.
- Creating the destination group: `Path` conversion, `zarr.group` and the
  `overwrite` flag (ome_zarr/bdvh5.py:117-122). The destination is a value
  that starts empty.
- `root.empty_like`'s dtype and fill value. An array record keeps shape
  and chunks only.
- The samples of a dataset: they are an opaque token, and a slice write
  stores that token.
- The spatial part of `__getitem__` (numpy/h5py slicing with `z, y, x`): it
  is the parameter `read` of `BdvIndex.GetItem`.
- Negative and non-integer Python indices for `res`, `t` and `ch`: the
  model's indices are natural numbers.
- Caching by `cached_property`: the modelled values are pure, so computing
  them again gives the same result.
- Datasets stored without chunking, where h5py's `chunks` is `None`: every
  dataset in the model carries a chunk shape.
- The order of root members: the code keeps h5py's enumeration order and
  sorts nothing. The model takes that order as the `keys` field of the file
  value.
- BdvIndex.ScaleRows: keeps only the row count of each `resolutions`
  table, not its (n, 3) floating-point contents. Nothing in the class reads
  beyond the count.
- BdvIndex.ChunkSizeRows: keeps only the row count of each `subdivisions`
  table, not its (n, 3) integer contents. Nothing in the class reads them.
- What zarr does when an array name repeats: this cannot arise, because a
  conversion that gets past its first level has distinct levels
  (`ZarrConversion.FirstLevelDecides`, `ZarrConversion.SuccessfulLevelsAreRange`).
- ZarrConversion.ToZarrPerSlice: checks that every slot's dataset has the
  shape of its level representative before it creates anything, and fails
  with ValueError otherwise. A direct fix of line 140 would only raise
  zarr's ValueError at the first slice that does not fit, after earlier
  arrays and slices had been written. Those partial writes are not
  modelled. The code as written never reaches this case, because it copies
  `dset` itself into every slice.
- tests/test_writer.py: it exercises the OME-Zarr writer, not this class.

## Findings

| source | as written | input that shows it | evidently intended | confidence | as-written member | corrected member |
|---|---|---|---|---|---|---|
| ome_zarr/bdvh5.py:140 | `_arr[_t, _ch, :] = dset` copies the level's representative dataset (first time point, first channel) into every `(t, ch)` slice | two channels `s00` and `s01` with different samples, one time point: slice `[0, 1]` of level 0 gets `s00`'s samples | each slice receives `arrays[tseries_keys[_t]][channel_keys[_ch]][i]`; `dset` serves only to plan the array's shape and chunks (lines 128-131), and line 126 assumes every `(t, ch)` has the same sizes; a slot whose shape differs is rejected with ValueError | not executed; high, because the loop indices `_t` and `_ch` are otherwise unused | `ZarrConversion.ToZarr`, `Scenario.BroadcastCounterexample` | `ZarrConversion.ToZarrPerSlice`, `Scenario.ShapeMismatchRejected` |
