# DRN dual-regression model wrapper, in Dafny

This project models the `Model` wrapper of the DRN dual-regression
super-resolution code (`model/__init_2-4.py`), and the checkpoint key
migration its `load` performs above all.

The wrapper holds one primary network and one "dual" down-sampling network
per scale. It chooses the down-sampling factor `sf` from the first scale, and
wraps every network in a data-parallel wrapper when it trains on several GPUs.
`get_model` / `get_dual_model` look through that wrapper again. `save` writes
the primary network's parameters to a `_latest_` file, and to a `_best_` file
when `is_best` is set. It writes the list of dual parameters to the
corresponding `_dual_` files.

`load` turns a legacy ("4-branch") checkpoint into one for the current
network, then loads it non-strictly:

- Every legacy key is split on `.`.
- Keys `up_blocks.0.*` form bucket A.
- Keys `up_blocks.1.*`, except `up_blocks.1.41.*`, form bucket B.
- Each bucket-A key takes the value stored under that same key in a "new"
  ("2-branch") checkpoint.
- The k-th bucket-B key takes the new value stored under the k-th bucket-A
  key. This is modelled as the code has it.
- Both patches are applied with `dict.update`.

The dual checkpoint is a list whose entry i is loaded into dual network i
unchanged.

The modules:

- `KeyPath`: `str.split` and `str.join` on dotted parameter names.
- `StateDicts`: checkpoints as insertion-ordered dictionaries with an abstract
  value type. Covers `d[k] = v`, `dict.update` and non-strict
  `load_state_dict`.
- `Migration`: the migration of lines 133-155. Pure functions
  (`Partition`, `PatchA`, `PatchB`, `Migrate`) are the specification. The
  source's loops (`CollectBuckets`, `BuildPatchA`, `BuildPatchB`,
  `MigrateLoop`) are methods proved equal to them.
- `Placement`: networks, the data-parallel wrapper as a tag, `dataparallel`
  on an array, and the unwrap accessor.
- `CheckpointPaths`: the file names `save` builds with `os.path.join`.
- `DrnModel`:
  - the class `Model`, with its `Save` and `Load` methods and its accessors;
  - the constructor `Create`;
  - the functions `SaveAll` and `LoadAll`, which specify `save` and `load`
    with each Python exception as an error value;
  - the save-then-load lemmas.

## Model

| member | source | states |
|---|---|---|
| KeyPath.Split | model/__init_2-4.py:137 | `param.split('.')` yields at least one part, and no part contains the separator |
| KeyPath.JoinSplit | model/__init_2-4.py:137 | joining the parts of a split with the separator gives the key back |
| KeyPath.SplitJoin | model/__init_2-4.py:137 | splitting a join of separator-free parts gives the parts back |
| StateDicts.Assign | model/__init_2-4.py:148 | `d[k] = v` keeps the dictionary well formed; `k` maps to `v` and other keys keep their values; an existing key keeps its position and a new key goes last |
| StateDicts.Update | model/__init_2-4.py:154-155 | `d.update(p)` takes the union of the key sets; keys of `p` take `p`'s values and the rest keep `d`'s; updating with keys already present leaves the key order unchanged |
| StateDicts.UpdateCommutes | model/__init_2-4.py:154-155 | two updates whose key sets are disjoint and already present can be applied in either order |
| StateDicts.LoadNonStrict | model/__init_2-4.py:162-166 | `load_state_dict(sd, strict=False)` keeps the network's own names in their order; a name `sd` also holds takes `sd`'s value, any other keeps its own, and names only in `sd` are ignored |
| StateDicts.LoadOwnState | model/__init_2-4.py:162-166 | loading a network's own parameters back into it changes nothing |
| Migration.Segments | model/__init_2-4.py:137 | a key always has a first segment |
| Migration.InBucketA | model/__init_2-4.py:138-139 | the test for bucket A: at least two segments, `up_blocks` then `0`; `Classify` and `PartitionBuckets` state what it selects |
| Migration.InBucketB | model/__init_2-4.py:140-141 | the test for bucket B: at least three segments, `up_blocks`, `1`, then anything but `41`; `Classify` and `PartitionBuckets` state what it selects |
| Migration.Malformed | model/__init_2-4.py:137-140 | the keys on which a test reads a missing segment: exactly `up_blocks` and `up_blocks.1`; `Classify` proves these are the ones that raise |
| Migration.Classify | model/__init_2-4.py:138-141 | the two short-circuit tests on one key raise exactly on a malformed key (`up_blocks`, `up_blocks.1`), and name the missing segment; they choose bucket A exactly for `up_blocks.0.*` and bucket B exactly for `up_blocks.1.*` without a third segment `41` |
| Migration.Partition | model/__init_2-4.py:136-141 | the bucketing loop as a function: the two name lists built so far, or the first IndexError; its contract is carried by `PartitionOkIff`, `PartitionBuckets`, `PartitionFirstError` and `PartitionErrorPersists` |
| Migration.PartitionOkIff | model/__init_2-4.py:136-141 | bucketing succeeds exactly when no legacy key is malformed |
| Migration.PartitionBuckets | model/__init_2-4.py:136-141 | `param0_names` and `param1_names` are the bucket-A and bucket-B keys, in legacy order |
| Migration.PartitionFirstError | model/__init_2-4.py:136-141 | a failed bucketing raises on the first malformed key |
| Migration.PartitionErrorPersists | model/__init_2-4.py:136-141 | once a prefix of the keys raises, the whole pass raises the same exception |
| Migration.CollectBuckets | model/__init_2-4.py:133-141 | the appending loop computes exactly `Partition` of the legacy keys, raising where it does |
| Migration.PatchA | model/__init_2-4.py:143-148 | the loop building `new_dict0`, one assignment per bucket-A key, or the first KeyError; its contract is carried by `PatchAOkIff`, `PatchAContents` and `PatchAFirstError` |
| Migration.PatchAOkIff | model/__init_2-4.py:146-148 | `new_dict0` can be built exactly when every bucket-A key is in the new checkpoint |
| Migration.PatchAKeys | model/__init_2-4.py:146-148 | `new_dict0` is a well-formed dictionary whose keys are the bucket-A keys, in order |
| Migration.PatchAValues | model/__init_2-4.py:146-148 | every entry of `new_dict0` is the new checkpoint's value under the same key |
| Migration.PatchAContents | model/__init_2-4.py:143-148 | the keys and the values of `new_dict0`, together |
| Migration.PatchAFirstError | model/__init_2-4.py:146-148 | a failed `new_dict0` raises KeyError for the first bucket-A key missing from the new checkpoint |
| Migration.PatchAErrorPersists | model/__init_2-4.py:146-148 | once a prefix raises, the whole loop raises the same exception |
| Migration.BuildPatchA | model/__init_2-4.py:143-148 | the indexed loop computes exactly `PatchA`, raising where it does |
| Migration.PatchB | model/__init_2-4.py:150-152 | the loop building `new_dict1`, the i-th bucket-B key taking the new value under the i-th bucket-A key, or the first IndexError or KeyError; its contract is carried by `PatchBOkIff`, `PatchBKeys`, `PatchBValues` and `PatchBFirstError` |
| Migration.PatchBOkIff | model/__init_2-4.py:150-152 | `new_dict1` can be built exactly when bucket B is no longer than bucket A and each partner bucket-A key is in the new checkpoint |
| Migration.PatchBKeys | model/__init_2-4.py:150-152 | `new_dict1` is a well-formed dictionary whose keys are the bucket-B keys, in order |
| Migration.PatchBValues | model/__init_2-4.py:150-152 | the i-th bucket-B key of `new_dict1` holds the new checkpoint's value under the i-th bucket-A key |
| Migration.PatchBFirstError | model/__init_2-4.py:150-152 | a failed `new_dict1` raises at the first index with no partner (IndexError) or whose partner is missing (KeyError) |
| Migration.PatchBErrorPersists | model/__init_2-4.py:150-152 | once a prefix raises, the whole loop raises the same exception |
| Migration.BuildPatchB | model/__init_2-4.py:143-152 | the indexed loop computes exactly `PatchB`, raising where it does |
| Migration.BucketsDisjoint | model/__init_2-4.py:138-141 | no key is in both buckets |
| Migration.Migrate | model/__init_2-4.py:133-155 | bucketing, both patches and the two updates of the legacy checkpoint, raising where any of them raises; its contract is carried by `MigrateOkIff`, `MigrateError`, `MigrateKeys`, `MigrateBucketA`, `MigrateBucketB` and `MigrateFrame` |
| Migration.MigrateSteps | model/__init_2-4.py:133-155 | a successful migration buckets the keys, builds both patches with the contents above, and updates the legacy checkpoint with `new_dict0` and then `new_dict1` |
| Migration.MigrateOkIff | model/__init_2-4.py:133-155 | the migration succeeds exactly when no key is malformed, every bucket-A key is in the new checkpoint, and bucket B is no longer than bucket A |
| Migration.BucketingError | model/__init_2-4.py:138-140 | a migration that fails while bucketing raises on a malformed legacy key |
| Migration.PatchAError | model/__init_2-4.py:148 | a migration that fails on `new_dict0` raises KeyError for a legacy bucket-A key absent from the new checkpoint |
| Migration.PatchBError | model/__init_2-4.py:152 | a migration that fails on `new_dict1` raises IndexError at the length of bucket A, which is shorter than bucket B |
| Migration.MigrateError | model/__init_2-4.py:133-155 | a failed migration raises one of the three exceptions above, for the reason stated there |
| Migration.MigrateKeys | model/__init_2-4.py:136-155 | the merged checkpoint is well formed and has exactly the legacy keys, in legacy order |
| Migration.MigrateBucketA | model/__init_2-4.py:138-139 | every bucket-A key takes the new checkpoint's value under that same key |
| Migration.MigrateBucketB | model/__init_2-4.py:140-141 | the i-th bucket-B key takes the new checkpoint's value under the i-th bucket-A key, not under its own key |
| Migration.MigrateFrame | model/__init_2-4.py:136-141 | every key in neither bucket keeps its legacy value |
| Migration.MigrateEitherOrder | model/__init_2-4.py:154-155 | applying the two patches in the other order gives the same checkpoint |
| Migration.MigrateLoop | model/__init_2-4.py:133-155 | the loops and the in-place updates compute exactly `Migrate` |
| Placement.Unwrap | model/__init_2-4.py:68-78 | the accessors on a stored object: the object with one GPU, otherwise its `.module`, which only a wrapper has; its contract is carried by `UnwrapPlaced` and `UnwrapFails` |
| Placement.UnwrapPlaced | model/__init_2-4.py:68-78 | for any positive GPU count, the accessors give back the object that `dataparallel` placed |
| Placement.UnwrapFails | model/__init_2-4.py:68-78 | the accessors raise exactly when the GPU count is not one and the stored object is not a wrapper |
| Placement.Place | model/__init_2-4.py:16-19 | what one slot holds after `dataparallel`: wrapped with at least two GPUs, unchanged otherwise; `UnwrapPlaced` proves the accessors undo it |
| Placement.PlaceAll | model/__init_2-4.py:15-19 | placing a list keeps its length, and slot i holds the i-th object, wrapped when there are at least two GPUs |
| Placement.DataParallel | model/__init_2-4.py:10-20 | fails on an empty GPU list or too few devices and leaves the array alone; otherwise each slot is rewritten in place as `PlaceAll` says |
| Placement.UnwrapPlaceAll | model/__init_2-4.py:10-20 | after `dataparallel`, unwrapping slot i gives the i-th original object |
| Placement.LoadInto | model/__init_2-4.py:162-166 | loading into a slot changes the network's parameters non-strictly and keeps its architecture and its number of data-parallel wrappers, however many there are |
| Placement.LoadIntoOwn | model/__init_2-4.py:187-190 | loading a slot's own parameters into it changes nothing |
| CheckpointPaths.PathJoin | model/__init_2-4.py:94 | `os.path.join` of two parts: an absolute second part replaces the first, and a `/` is inserted unless the first part is empty or ends in one; the result is at least as long as the second part, and `JoinCancel` states when two joins agree |
| CheckpointPaths.FileName | model/__init_2-4.py:94 | the dataset name, the kind's tag, `str()` of the last scale and `.pt`; `FileNameInjective` proves a name fixes kind and scale |
| CheckpointPaths.CheckpointPath | model/__init_2-4.py:92-117 | the file name under `<path>/model`, for each of the four `torch.save` calls; `CheckpointPathInjective` proves different kinds or scales give different paths |
| CheckpointPaths.Decimal | model/__init_2-4.py:94 | `str(n)` is non-empty and starts with `-` exactly for negative numbers |
| CheckpointPaths.DigitsRoundTrip | model/__init_2-4.py:94 | reading back the decimal digits of a natural number gives the number |
| CheckpointPaths.DigitsInjective | model/__init_2-4.py:94 | different natural numbers have different decimal digits |
| CheckpointPaths.DecimalInjective | model/__init_2-4.py:94 | different scales give different strings |
| CheckpointPaths.JoinCancel | model/__init_2-4.py:94 | `os.path.join` of one directory with two relative names gives equal paths only for equal names |
| CheckpointPaths.FileNameInjective | model/__init_2-4.py:94 | a checkpoint file name fixes both its kind (latest, best, dual latest, dual best) and its scale |
| CheckpointPaths.CheckpointPathInjective | model/__init_2-4.py:94 | two checkpoint paths under the same directory and dataset coincide only for the same kind and scale |
| DrnModel.DownFactor | model/__init_2-4.py:35-38 | `sf` is 2 exactly when the first scale is even, and 3 otherwise |
| DrnModel.MakeDualModels | model/__init_2-4.py:42-45 | the loop builds one `DownBlock(sf)` per scale, in order, with the i-th block's initial parameters |
| DrnModel.InitialDuals | model/__init_2-4.py:42-49 | there is one placed dual network per scale |
| DrnModel.PyIndex | model/__init_2-4.py:76 | indexing a list of length n succeeds exactly for -n up to n-1, and a negative index counts from the end |
| DrnModel.UnwrapOnPlaced | model/__init_2-4.py:68-78 | on a slot as construction leaves it, the accessors work exactly with one GPU or in data-parallel mode, and then give the network itself |
| DrnModel.Model.constructor | model/__init_2-4.py:24-33 | the new object holds the given options, networks and dual array |
| DrnModel.Model.GetModel | model/__init_2-4.py:68-72 | on a placed primary, `get_model()` succeeds exactly with one GPU or in data-parallel mode and gives the unwrapped network; whenever it succeeds it gives the stored network |
| DrnModel.Model.GetDualModel | model/__init_2-4.py:74-78 | `get_dual_model(idx)` raises IndexError exactly for an index out of range, negative indices counting from the end; whenever it succeeds it gives that slot's network; on a valid model an in-range index succeeds exactly with one GPU or in data-parallel mode |
| DrnModel.DualStates | model/__init_2-4.py:107-109 | the dual states can be collected exactly when every dual accessor works, and then entry i is dual i's parameters |
| DrnModel.DualStatesErrorPersists | model/__init_2-4.py:107-109 | once a prefix of the duals raises, collecting all of them raises the same way |
| DrnModel.Writes | model/__init_2-4.py:92-105 | a latest write, then a best write of the same content only with `is_best`; `WritesPaths` states where each goes |
| DrnModel.SaveAll | model/__init_2-4.py:89-118 | `save` as a function: the files written, in order, up to the first exception, and the outcome; its contract is carried by `SaveOutcome`, `SavePrimaryFiles`, `SaveDualFiles`, `SaveFailureWrites`, `SavePaths` and `SavePathsDistinct`, and `Model.Save` is proved equal to it |
| DrnModel.SaveOutcome | model/__init_2-4.py:89-118 | `save` finishes exactly when the primary accessor works, a scale is given, and every dual accessor works |
| DrnModel.SavePrimaryFiles | model/__init_2-4.py:90-105 | a finished save writes four files with `is_best` and two without; the first is the primary parameters at the `_latest_x` path, and with `is_best` the second is the same content at the `_best_x` path |
| DrnModel.SaveDualFiles | model/__init_2-4.py:107-118 | a finished save writes the list of every dual's parameters, in order, to the `_dual_latest_x` path, and the same content to the `_dual_best_x` path only with `is_best` |
| DrnModel.SaveFailureWrites | model/__init_2-4.py:89-118 | a save that raises has written nothing if the primary accessor or the scale failed, and otherwise only the primary files |
| DrnModel.KindsApart | model/__init_2-4.py:94 | different kinds of checkpoint are written to different paths |
| DrnModel.WritesPaths | model/__init_2-4.py:92-105 | the latest write comes first and the best write follows only with `is_best`, each at its kind's path |
| DrnModel.SaveAllShape | model/__init_2-4.py:89-118 | past the primary accessor and the scale, a save writes the primary files, then the dual files if every dual accessor works, and otherwise raises the dual accessor's error |
| DrnModel.SavePaths | model/__init_2-4.py:89-118 | file i written by a save is at the path of the i-th kind among latest, best (with `is_best`), dual latest and dual best (the last two only when it finishes) |
| DrnModel.SavePathsDistinct | model/__init_2-4.py:89-118 | no save writes the same path twice |
| DrnModel.ApplyWrites | model/__init_2-4.py:92-118 | after a sequence of `torch.save` calls every earlier file still exists and every written path exists |
| DrnModel.ApplyWritesAt | model/__init_2-4.py:92-118 | a written file that no later write overwrites holds what was written |
| DrnModel.ApplyWritesUntouched | model/__init_2-4.py:92-118 | a path no write touches keeps its file |
| DrnModel.Model.Save | model/__init_2-4.py:89-118 | the method returns exactly the files and the outcome `SaveAll` specifies for the current object |
| DrnModel.ReadFile | model/__init_2-4.py:129-130 | `torch.load`, here and at lines 171-172: succeeds exactly on a path that is on disk and is not the sentinel `'.'` (a directory), and then gives that file; otherwise raises for that path |
| DrnModel.LoadPrimary | model/__init_2-4.py:126-166 | the primary branch of `load`: read the new and the legacy checkpoint, migrate, then load non-strictly into the network behind `get_model()`; its contract is carried by `LoadPrimaryValues`, `LoadPrimaryPlaced` and `LoadOutcome` |
| DrnModel.LoadDuals | model/__init_2-4.py:186-190 | the dual loop keeps the list's length, and the slots it has not reached are untouched |
| DrnModel.LoadDualsPass | model/__init_2-4.py:186-190 | the loop completes exactly when every dual accessor works and every dual has an entry, and then dual i holds entry i loaded non-strictly |
| DrnModel.LoadDualsFail | model/__init_2-4.py:186-190 | a loop that raises stops at some dual j: earlier duals hold their entries, the rest are untouched, and the error is j's accessor error or j's missing entry |
| DrnModel.LoadDualsErrorPersists | model/__init_2-4.py:186-190 | once the loop has raised, later rounds do not run |
| DrnModel.LoadAll | model/__init_2-4.py:120-190 | `load` as a function: the new primary, the new dual list and the outcome; its contract is carried by `LoadOutcome`, `SkipGuards`, `LoadAllPlaced`, `LoadPrimaryValues`, `LoadDualsPass` and `LoadDualsFail`, and `Model.Load` is proved equal to it |
| DrnModel.LoadOutcome | model/__init_2-4.py:120-190 | `load` finishes exactly when each branch it enters gets through: for the primary, both files open, the legacy one is a dictionary, the migration succeeds and `get_model()` works; for the duals, both files open, the dual checkpoint has an entry for every dual and every `get_dual_model(i)` works |
| DrnModel.SkipGuards | model/__init_2-4.py:126-168 | with `pre_train == '.'` the primary is left alone, with `pre_train_dual == '.'` the duals are, and with both `load` reads nothing and finishes |
| DrnModel.NewDualCheckpointUnused | model/__init_2-4.py:168-172 | the result of `load` depends only on whether `new_pre_train_dual` exists, never on its content |
| DrnModel.LoadIntoPlaced | model/__init_2-4.py:162-166 | loading parameters into a slot keeps its wrapping and its architecture |
| DrnModel.LoadDualsPlaced | model/__init_2-4.py:186-190 | the dual loop keeps every dual slot's wrapping and architecture |
| DrnModel.LoadPrimaryPlaced | model/__init_2-4.py:126-166 | loading the primary checkpoint keeps the primary slot's wrapping, architecture and parameter names |
| DrnModel.LoadAllPlaced | model/__init_2-4.py:120-190 | whatever `load` reads, it changes only parameter values: wrapping, architecture, names and the number of duals are kept |
| DrnModel.LoadPrimaryValues | model/__init_2-4.py:129-166 | a successful primary load read both files; the legacy file is one dictionary; the migration and the accessor succeeded; and the primary network holds the migrated checkpoint loaded non-strictly |
| DrnModel.Model.LoadPrimaryModel | model/__init_2-4.py:126-166 | the primary branch changes the primary network exactly as `LoadPrimary` says, and leaves it alone when it raises |
| DrnModel.Model.LoadDualModels | model/__init_2-4.py:186-190 | the dual loop rewrites the dual array in place exactly as `LoadDuals` says, and keeps every slot placed |
| DrnModel.Model.Load | model/__init_2-4.py:120-190 | `load` keeps the object's invariant and leaves the primary, the duals and the outcome exactly as `LoadAll` says |
| DrnModel.DualCheckpointRoundTrip | model/__init_2-4.py:107-118 | after a finished save, loading its `_dual_latest_x` file as the dual checkpoint restores every dual network exactly and finishes |
| DrnModel.ReloadLatestCopiesBucketA | model/__init_2-4.py:150-155 | reloading a saved `_latest_x` file as both the legacy and the new checkpoint does not restore the primary: the i-th bucket-B parameter takes the saved value of the i-th bucket-A parameter |
| DrnModel.Create | model/__init_2-4.py:24-51 | an empty scale list raises; too few devices in data-parallel mode raises; otherwise the object exists exactly when loading the freshly built, placed networks succeeds, and it then holds what that load gives and satisfies the invariant |

## Left out

- File I/O: `torch.load` reads a map from path to saved object, and `torch.save` calls are returned as a list of writes. A missing `<path>/model` directory and unreadable files are not modelled, and no two path strings are treated as the same file.
- Devices: `map_location`, the unused `kwargs` (lines 121-124), `.to(device)` and `.cuda()` are not modelled. Moving a network does not change it in this model.
- `torch.cuda.device_count()` is the parameter `deviceCount` of `Create`. The `isinstance(model, list)` assertion of `dataparallel` (line 14) always holds for a typed array, and `nn.DataParallel`'s own argument checks are not modelled.
- Networks: `drn.make_model`, `DownBlock` and their layers are external. A network is its architecture tag and its parameters, and the random initial parameters are the inputs `drnInit` and `downInit` of `Create`.
- `forward`, `set_scale`, `idx_scale` and `self_ensemble` (lines 29-30, 61-66) belong to the forward pass of the external networks.
- `state_dict` (lines 80-82) is `get_model()` followed by the framework's `state_dict`. It is used inside `Save` through the accessor and has no member of its own.
- `count_parameters` (lines 84-87) and the logging of lines 26, 54-59 and 127, 169 are left out: they sum tensor sizes and print.
- The `opt` and `ckp` objects themselves are not kept, only the options the wrapper reads: scale, number of GPUs, cpu and the four checkpoint paths.
- LoadNonStrict: tensor shape mismatches, which `load_state_dict` reports even with `strict=False`, are not modelled. The state dict of a still-wrapped network (names prefixed by `module.`) is not distinguished either.
- LoadPrimary: a list read as the new checkpoint is treated as a dictionary with no keys. Python raises TypeError at the first lookup into it, where the model raises the KeyError `MissingNewKey`.
- LoadAll: a dictionary read where the dual list is expected is treated as an empty list. Python raises KeyError on `weight4_dual[0]`, and the model raises `DualEntryMissing(0)`.
- Checkpoint files on disk are not required to be well-formed dictionaries (distinct keys, each with a value): `LoadPrimary` migrates whatever is stored. The lemmas about `Migrate` (`MigrateSteps` through `MigrateEitherOrder`) assume a well-formed legacy checkpoint, which is what `torch.save` of a state dict produces.
