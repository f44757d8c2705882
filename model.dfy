/**
 * The `Model` wrapper of model/__init_2-4.py: construction (lines 24-51),
 * the accessors `get_model` / `get_dual_model` (68-78), `save` (89-118) and
 * `load` (120-190).
 *
 * `torch.load` reads from `disk`, a map from path to saved object, and
 * `torch.save` calls are returned as a list of writes; the networks' random
 * initial parameters are parameters of `Create`.
 */
module DrnModel {
  import opened Wrappers
  import opened StateDicts
  import opened Placement
  import opened Migration
  import opened CheckpointPaths

  /** The default of every path argument of `load`: nothing to load. */
  const SKIP: string := "."

  /** What `torch.load` returns: one state dict, or a list of them (a dual checkpoint). */
  datatype Saved<V> = Single(dict: StateDict<V>) | Sequence(dicts: seq<StateDict<V>>)

  /** One `torch.save(content, path)` call. */
  datatype FileWrite<V> = FileWrite(path: string, content: Saved<V>)

  /** The exceptions `load` can raise. */
  datatype LoadError =
    | FileNotFound(path: string)                // torch.load on a missing file
    | IsADirectory(path: string)                // torch.load on the sentinel '.', the working directory
    | NotAStateDict(path: string)               // a list where the legacy checkpoint should be a dict
    | MigrationFailed(migrationError: MigrationError)    // the key migration raised
    | AccessFailed(accessError: AccessError)        // get_model / get_dual_model raised
    | DualEntryMissing(index: nat)              // weight4_dual[i] does not exist

  /** The exceptions `save` can raise. */
  datatype SaveError = SaveAccessFailed(accessError: AccessError) | NoScale

  /** The exceptions `__init__` can raise. */
  datatype InitError = EmptyScale | PlacementFailed(placementError: PlacementError) | LoadFailed(loadError: LoadError)

  // ---------------------------------------------------------------------
  // Construction

  /** The down-sampling factor `sf` chosen from the first scale. */
  function DownFactor(firstScale: int): (sf: int)
    ensures sf == 2 || sf == 3
    ensures sf == 2 <==> firstScale % 2 == 0
  {
    if firstScale % 2 == 0 then 2 else 3
  }

  /** The training runs on several GPUs through data-parallel wrappers. */
  predicate Parallel(cpu: bool, nGPUs: int)
  {
    !cpu && nGPUs > 1
  }

  /**
   * The shape every slot keeps once `__init__` has run: a network of the given
   * architecture, wrapped exactly when the model is data-parallel.
   */
  predicate Placed<V>(m: Module<V>, parallel: bool, arch: Arch)
  {
    (if parallel then m.Wrapped? && m.wrapped.Plain? else m.Plain?) &&
    Inner(m).arch == arch && Inner(m).params.Valid()
  }

  /** Every slot of a list is placed. */
  predicate AllPlaced<V>(duals: seq<Module<V>>, parallel: bool, arch: Arch)
  {
    forall i :: 0 <= i < |duals| ==> Placed(duals[i], parallel, arch)
  }

  /**
   * The loop of lines 42-45: one `DownBlock(opt, sf)` per scale, appended in
   * order; `downInit(i)` is the i-th block's freshly initialised parameters.
   */
  method MakeDualModels<V>(scale: seq<int>, sf: int, downInit: nat -> StateDict<V>) returns (duals: seq<Module<V>>)
    ensures |duals| == |scale|
    ensures forall i :: 0 <= i < |duals| ==> duals[i] == Plain(Net(DownBlock(sf), downInit(i)))
  {
    duals := [];
    for k := 0 to |scale|
      invariant |duals| == k
      invariant forall i :: 0 <= i < k ==> duals[i] == Plain(Net(DownBlock(sf), downInit(i)))
    {
      duals := duals + [Plain(Net(DownBlock(sf), downInit(k)))];
    }
  }

  /** The dual models `__init__` holds before loading, placed on `ngpus` GPUs. */
  function InitialDuals<V>(n: nat, sf: int, downInit: nat -> StateDict<V>, ngpus: int): (duals: seq<Module<V>>)
    ensures |duals| == n
  {
    seq(n, i requires 0 <= i < n => Place(Plain(Net(DownBlock(sf), downInit(i))), ngpus))
  }

  // ---------------------------------------------------------------------
  // Accessors

  /** The position Python's `xs[idx]` reads in a list of length n, if any. */
  function PyIndex(n: nat, idx: int): (r: Option<nat>)
    ensures r.Some? <==> -(n as int) <= idx < n
    ensures r.Some? ==> r.value < n && (r.value == idx || r.value == idx + n)
  {
    if 0 <= idx < n then Some(idx)
    else if -(n as int) <= idx < 0 then Some(idx + n)
    else None
  }

  /** On a placed slot, the accessors succeed exactly when one GPU is configured or the model is data-parallel, and then return the network itself. */
  lemma UnwrapOnPlaced<V>(m: Module<V>, cpu: bool, nGPUs: int, arch: Arch)
    requires Placed(m, Parallel(cpu, nGPUs), arch)
    ensures Unwrap(nGPUs, m).Ok? <==> nGPUs == 1 || Parallel(cpu, nGPUs)
    ensures Unwrap(nGPUs, m).Ok? ==> Unwrap(nGPUs, m).value == Plain(Inner(m))
  {
  }

  // ---------------------------------------------------------------------
  // save

  /**
   * `get_dual_model(i).state_dict()` for i = 0, 1, ... in turn, stopping at
   * the first accessor that raises.
   */
  function DualStates<V>(nGPUs: int, duals: seq<Module<V>>): (r: Result<seq<StateDict<V>>, AccessError>)
    ensures r.Ok? <==> forall i :: 0 <= i < |duals| ==> Unwrap(nGPUs, duals[i]).Ok?
    ensures r.Ok? ==> |r.value| == |duals| && forall i :: 0 <= i < |duals| ==> r.value[i] == Inner(duals[i]).params
  {
    if |duals| == 0 then Ok([])
    else
      var last := duals[|duals| - 1];
      match DualStates(nGPUs, duals[..|duals| - 1])
      case Err(e) => Err(e)
      case Ok(states) =>
        match Unwrap(nGPUs, last)
        case Err(e) => Err(e)
        case Ok(target) => Ok(states + [Inner(target).params])
  }

  /** Once the states of a prefix of the duals fail, all of them fail the same way. */
  lemma {:induction false} DualStatesErrorPersists<V>(nGPUs: int, duals: seq<Module<V>>, n: nat)
    requires n <= |duals| && DualStates(nGPUs, duals[..n]).Err?
    ensures DualStates(nGPUs, duals) == DualStates(nGPUs, duals[..n])
    decreases |duals| - n
  {
    if n < |duals| {
      DualStatesErrorPersists(nGPUs, duals, n + 1);
      assert duals[..n + 1][..n] == duals[..n];
    } else {
      assert duals[..n] == duals;
    }
  }

  /**
   * A latest file, then a best file with the same content when `is_best`: the
   * pattern `save` follows for the primary and then for the dual models.
   */
  function Writes<V>(dir: string, dataTrain: string, last: int, latest: Kind, best: Kind, isBest: bool,
                     content: Saved<V>): seq<FileWrite<V>>
  {
    [FileWrite(CheckpointPath(dir, dataTrain, latest, last), content)] +
    (if isBest then [FileWrite(CheckpointPath(dir, dataTrain, best, last), content)] else [])
  }

  /**
   * `save(path, is_best)`: the files written, in order, up to the first
   * exception, and whether it finished.  `dataTrain` and `argsScale` are the
   * global `args.data_train` and `args.scale`.
   */
  function SaveAll<V>(nGPUs: int, model: Module<V>, duals: seq<Module<V>>, dir: string, isBest: bool,
                      dataTrain: string, argsScale: seq<int>): (seq<FileWrite<V>>, Outcome<SaveError>)
  {
    match Unwrap(nGPUs, model)
    case Err(e) => ([], Fail(SaveAccessFailed(e)))
    case Ok(target) =>
      if |argsScale| == 0 then ([], Fail(NoScale))
      else
        var last := argsScale[|argsScale| - 1];
        var primary := Writes(dir, dataTrain, last, Latest, Best, isBest, Single(Inner(target).params));
        match DualStates(nGPUs, duals)
        case Err(e) => (primary, Fail(SaveAccessFailed(e)))
        case Ok(states) => (primary + Writes(dir, dataTrain, last, DualLatest, DualBest, isBest, Sequence(states)), Pass)
  }

  /** A save finishes exactly when both accessors work on every slot and a scale is given. */
  lemma SaveOutcome<V>(nGPUs: int, model: Module<V>, duals: seq<Module<V>>, dir: string,
                       isBest: bool, dataTrain: string, argsScale: seq<int>)
    ensures SaveAll(nGPUs, model, duals, dir, isBest, dataTrain, argsScale).1.Pass? <==>
      Unwrap(nGPUs, model).Ok? && |argsScale| > 0 && forall i :: 0 <= i < |duals| ==> Unwrap(nGPUs, duals[i]).Ok?
  {
  }

  /**
   * A finished save writes the primary network's parameters to the latest
   * file, and to the best file, with the same content, only when `is_best`.
   */
  lemma SavePrimaryFiles<V>(nGPUs: int, model: Module<V>, duals: seq<Module<V>>, dir: string,
                            isBest: bool, dataTrain: string, argsScale: seq<int>)
    requires SaveAll(nGPUs, model, duals, dir, isBest, dataTrain, argsScale).1.Pass?
    ensures |argsScale| > 0
    ensures var writes := SaveAll(nGPUs, model, duals, dir, isBest, dataTrain, argsScale).0;
      var last := argsScale[|argsScale| - 1];
      |writes| == (if isBest then 4 else 2) &&
      writes[0] == FileWrite(CheckpointPath(dir, dataTrain, Latest, last), Single(Inner(model).params)) &&
      (isBest ==> writes[1] == FileWrite(CheckpointPath(dir, dataTrain, Best, last), writes[0].content))
  {
    var last := argsScale[|argsScale| - 1];
    var target := Unwrap(nGPUs, model).value;
    var states := DualStates(nGPUs, duals).value;
    var p := Writes(dir, dataTrain, last, Latest, Best, isBest, Single(Inner(target).params));
    var q := Writes(dir, dataTrain, last, DualLatest, DualBest, isBest, Sequence(states));
    assert SaveAll(nGPUs, model, duals, dir, isBest, dataTrain, argsScale).0 == p + q;
  }

  /**
   * A finished save writes the list of every dual network's parameters, in
   * order, to the dual-latest file, and to the dual-best file only when `is_best`.
   */
  lemma SaveDualFiles<V>(nGPUs: int, model: Module<V>, duals: seq<Module<V>>, dir: string,
                         isBest: bool, dataTrain: string, argsScale: seq<int>)
    requires SaveAll(nGPUs, model, duals, dir, isBest, dataTrain, argsScale).1.Pass?
    ensures |argsScale| > 0
    ensures var writes := SaveAll(nGPUs, model, duals, dir, isBest, dataTrain, argsScale).0;
      var last := argsScale[|argsScale| - 1];
      var k := if isBest then 2 else 1;
      |writes| == 2 * k &&
      writes[k].path == CheckpointPath(dir, dataTrain, DualLatest, last) &&
      writes[k].content.Sequence? && |writes[k].content.dicts| == |duals| &&
      (forall i :: 0 <= i < |duals| ==> writes[k].content.dicts[i] == Inner(duals[i]).params) &&
      (isBest ==> writes[3] == FileWrite(CheckpointPath(dir, dataTrain, DualBest, last), writes[2].content))
  {
    var last := argsScale[|argsScale| - 1];
    var target := Unwrap(nGPUs, model).value;
    var states := DualStates(nGPUs, duals).value;
    var p := Writes(dir, dataTrain, last, Latest, Best, isBest, Single(Inner(target).params));
    var q := Writes(dir, dataTrain, last, DualLatest, DualBest, isBest, Sequence(states));
    assert SaveAll(nGPUs, model, duals, dir, isBest, dataTrain, argsScale).0 == p + q;
  }

  /**
   * A save that raises has written the primary files exactly when it got past
   * the primary accessor and the scale, and nothing else.
   */
  lemma SaveFailureWrites<V>(nGPUs: int, model: Module<V>, duals: seq<Module<V>>, dir: string,
                             isBest: bool, dataTrain: string, argsScale: seq<int>)
    requires SaveAll(nGPUs, model, duals, dir, isBest, dataTrain, argsScale).1.Fail?
    ensures var writes := SaveAll(nGPUs, model, duals, dir, isBest, dataTrain, argsScale).0;
      if Unwrap(nGPUs, model).Err? || |argsScale| == 0 then writes == []
      else |writes| == (if isBest then 2 else 1) &&
           writes[0].path == CheckpointPath(dir, dataTrain, Latest, argsScale[|argsScale| - 1])
  {
  }

  /** Different kinds of checkpoint go to different files. */
  lemma KindsApart(dir: string, dataTrain: string, last: int, k1: Kind, k2: Kind)
    requires k1 != k2
    ensures CheckpointPath(dir, dataTrain, k1, last) != CheckpointPath(dir, dataTrain, k2, last)
  {
    if CheckpointPath(dir, dataTrain, k1, last) == CheckpointPath(dir, dataTrain, k2, last) {
      CheckpointPathInjective(dir, dataTrain, k1, last, k2, last);
    }
  }

  /** The latest kind, then the best kind only when `is_best`. */
  function PairKinds(latest: Kind, best: Kind, isBest: bool): seq<Kind>
  {
    [latest] + (if isBest then [best] else [])
  }

  /** The kinds of file a save writes, in order. */
  function SavedKinds(isBest: bool, finished: bool): seq<Kind>
  {
    PairKinds(Latest, Best, isBest) + (if finished then PairKinds(DualLatest, DualBest, isBest) else [])
  }

  lemma KindsDistinct(isBest: bool, finished: bool)
    ensures var kinds := SavedKinds(isBest, finished);
      forall i, j :: 0 <= i < j < |kinds| ==> kinds[i] != kinds[j]
  {
  }

  /** Write i goes to the path of the i-th kind. */
  ghost predicate AtKinds<V>(writes: seq<FileWrite<V>>, kinds: seq<Kind>, dir: string, dataTrain: string, last: int)
  {
    |writes| == |kinds| &&
    forall i :: 0 <= i < |writes| ==> writes[i].path == CheckpointPath(dir, dataTrain, kinds[i], last)
  }

  lemma AtKindsConcat<V>(w1: seq<FileWrite<V>>, k1: seq<Kind>, w2: seq<FileWrite<V>>, k2: seq<Kind>,
                         dir: string, dataTrain: string, last: int)
    requires AtKinds(w1, k1, dir, dataTrain, last) && AtKinds(w2, k2, dir, dataTrain, last)
    ensures AtKinds(w1 + w2, k1 + k2, dir, dataTrain, last)
  {
    forall i | |w1| <= i < |w1 + w2|
      ensures (w1 + w2)[i].path == CheckpointPath(dir, dataTrain, (k1 + k2)[i], last)
    {
      assert (w1 + w2)[i] == w2[i - |w1|] && (k1 + k2)[i] == k2[i - |k1|];
    }
  }

  /** The latest write comes first and the best write follows only when `is_best`, each at its kind's path. */
  lemma WritesPaths<V>(dir: string, dataTrain: string, last: int, latest: Kind, best: Kind, isBest: bool, content: Saved<V>)
    ensures AtKinds(Writes(dir, dataTrain, last, latest, best, isBest, content), PairKinds(latest, best, isBest), dir, dataTrain, last)
  {
  }

  /** Past the primary accessor and the scale, a save writes the primary files, then the dual files if every dual accessor works. */
  lemma SaveAllShape<V>(nGPUs: int, model: Module<V>, duals: seq<Module<V>>, dir: string,
                        isBest: bool, dataTrain: string, argsScale: seq<int>)
    requires Unwrap(nGPUs, model).Ok? && |argsScale| > 0
    ensures var last := argsScale[|argsScale| - 1];
      var p := Writes(dir, dataTrain, last, Latest, Best, isBest, Single(Inner(model).params));
      var states := DualStates(nGPUs, duals);
      SaveAll(nGPUs, model, duals, dir, isBest, dataTrain, argsScale) ==
        if states.Ok? then (p + Writes(dir, dataTrain, last, DualLatest, DualBest, isBest, Sequence(states.value)), Pass)
        else (p, Fail(SaveAccessFailed(states.error)))
  {
    assert Inner(Unwrap(nGPUs, model).value) == Inner(model);
  }

  /** A save writes one file per kind in SavedKinds, at that kind's path. */
  lemma SavePaths<V>(nGPUs: int, model: Module<V>, duals: seq<Module<V>>, dir: string,
                     isBest: bool, dataTrain: string, argsScale: seq<int>)
    requires Unwrap(nGPUs, model).Ok? && |argsScale| > 0
    ensures var (writes, o) := SaveAll(nGPUs, model, duals, dir, isBest, dataTrain, argsScale);
      var kinds := SavedKinds(isBest, o.Pass?);
      |writes| == |kinds| &&
      forall i :: 0 <= i < |writes| ==> writes[i].path == CheckpointPath(dir, dataTrain, kinds[i], argsScale[|argsScale| - 1])
  {
    SaveAllShape(nGPUs, model, duals, dir, isBest, dataTrain, argsScale);
    var last := argsScale[|argsScale| - 1];
    var p := Writes(dir, dataTrain, last, Latest, Best, isBest, Single(Inner(model).params));
    WritesPaths(dir, dataTrain, last, Latest, Best, isBest, Single(Inner(model).params));
    var states := DualStates(nGPUs, duals);
    if states.Ok? {
      var q := Writes(dir, dataTrain, last, DualLatest, DualBest, isBest, Sequence(states.value));
      WritesPaths(dir, dataTrain, last, DualLatest, DualBest, isBest, Sequence(states.value));
      AtKindsConcat(p, PairKinds(Latest, Best, isBest), q, PairKinds(DualLatest, DualBest, isBest), dir, dataTrain, last);
    } else {
      assert SavedKinds(isBest, false) == PairKinds(Latest, Best, isBest);
    }
  }

  /** No save writes the same file twice: the latest, best and dual files never overwrite each other. */
  lemma SavePathsDistinct<V>(nGPUs: int, model: Module<V>, duals: seq<Module<V>>, dir: string,
                             isBest: bool, dataTrain: string, argsScale: seq<int>)
    ensures var writes := SaveAll(nGPUs, model, duals, dir, isBest, dataTrain, argsScale).0;
      forall i, j :: 0 <= i < j < |writes| ==> writes[i].path != writes[j].path
  {
    var (writes, o) := SaveAll(nGPUs, model, duals, dir, isBest, dataTrain, argsScale);
    if Unwrap(nGPUs, model).Ok? && |argsScale| > 0 {
      SavePaths(nGPUs, model, duals, dir, isBest, dataTrain, argsScale);
      var kinds := SavedKinds(isBest, o.Pass?);
      var last := argsScale[|argsScale| - 1];
      KindsDistinct(isBest, o.Pass?);
      forall i, j | 0 <= i < j < |writes|
        ensures writes[i].path != writes[j].path
      {
        KindsApart(dir, dataTrain, last, kinds[i], kinds[j]);
      }
    }
  }

  /** The files on disk after a sequence of `torch.save` calls, later calls overwriting earlier ones. */
  function ApplyWrites<V>(disk: map<string, Saved<V>>, writes: seq<FileWrite<V>>): (d: map<string, Saved<V>>)
    ensures forall p :: p in disk ==> p in d
    ensures forall w :: w in writes ==> w.path in d
    decreases |writes|
  {
    if |writes| == 0 then disk
    else ApplyWrites(disk[writes[0].path := writes[0].content], writes[1..])
  }

  /** A written file that no later write overwrites holds what was written to it. */
  lemma {:induction false} ApplyWritesAt<V>(disk: map<string, Saved<V>>, writes: seq<FileWrite<V>>, k: nat)
    requires k < |writes|
    requires forall j :: k < j < |writes| ==> writes[j].path != writes[k].path
    ensures ApplyWrites(disk, writes)[writes[k].path] == writes[k].content
    decreases |writes|
  {
    var next := disk[writes[0].path := writes[0].content];
    if k == 0 {
      ApplyWritesUntouched(next, writes[1..], writes[0].path);
    } else {
      ApplyWritesAt(next, writes[1..], k - 1);
    }
  }

  /** A path no write touches keeps its file. */
  lemma {:induction false} ApplyWritesUntouched<V>(disk: map<string, Saved<V>>, writes: seq<FileWrite<V>>, p: string)
    requires p in disk
    requires forall j :: 0 <= j < |writes| ==> writes[j].path != p
    ensures ApplyWrites(disk, writes)[p] == disk[p]
    decreases |writes|
  {
    if |writes| > 0 {
      ApplyWritesUntouched(disk[writes[0].path := writes[0].content], writes[1..], p);
    }
  }

  // ---------------------------------------------------------------------
  // load

  /** A path `torch.load` can open: never the sentinel `'.'`, which names a directory. */
  predicate IsFile<V>(disk: map<string, Saved<V>>, path: string)
  {
    path != SKIP && path in disk
  }

  /** `torch.load(path)`. */
  function ReadFile<V>(disk: map<string, Saved<V>>, path: string): (r: Result<Saved<V>, LoadError>)
    ensures r.Ok? <==> IsFile(disk, path)
    ensures r.Ok? ==> r.value == disk[path]
    ensures r.Err? ==> (r.error == IsADirectory(path) <==> path == SKIP) && (r.error == FileNotFound(path) <==> path != SKIP)
  {
    if path == SKIP then Err(IsADirectory(path))
    else if path in disk then Ok(disk[path]) else Err(FileNotFound(path))
  }

  /**
   * The primary branch of `load` (lines 129-166): read the new and the legacy
   * checkpoint, migrate the legacy keys, then load the result non-strictly
   * into the network behind `get_model()`.  A list read as the new checkpoint
   * has no string keys, so every lookup into it fails.
   */
  function LoadPrimary<V>(nGPUs: int, stored: Module<V>, preTrain: string, newPreTrain: string,
                          disk: map<string, Saved<V>>): Result<Module<V>, LoadError>
  {
    match ReadFile(disk, newPreTrain)
    case Err(e) => Err(e)
    case Ok(newFile) =>
      match ReadFile(disk, preTrain)
      case Err(e) => Err(e)
      case Ok(Sequence(_)) => Err(NotAStateDict(preTrain))
      case Ok(Single(legacy)) =>
        var incoming := if newFile.Single? then newFile.dict.values else map[];
        match Migrate(legacy, incoming)
        case Err(e) => Err(MigrationFailed(e))
        case Ok(merged) =>
          match Unwrap(nGPUs, stored)
          case Err(e) => Err(AccessFailed(e))
          case Ok(_) => Ok(LoadInto(stored, merged))
  }

  /**
   * The first n rounds of the dual loop (lines 186-190): dual i takes entry i
   * of the dual checkpoint as it is, until an accessor raises or the entries
   * run out.  The slots from n on are untouched.
   */
  function LoadDuals<V>(nGPUs: int, duals: seq<Module<V>>, entries: seq<StateDict<V>>, n: nat): (r: (seq<Module<V>>, Outcome<LoadError>))
    requires n <= |duals|
    ensures |r.0| == |duals|
    ensures forall j :: n <= j < |duals| ==> r.0[j] == duals[j]
  {
    if n == 0 then (duals, Pass)
    else
      var (loaded, o) := LoadDuals(nGPUs, duals, entries, n - 1);
      if o.Fail? then (loaded, o)
      else
        match Unwrap(nGPUs, duals[n - 1])
        case Err(e) => (loaded, Fail(AccessFailed(e)))
        case Ok(_) =>
          if n - 1 >= |entries| then (loaded, Fail(DualEntryMissing(n - 1)))
          else (loaded[n - 1 := LoadInto(duals[n - 1], entries[n - 1])], Pass)
  }

  /**
   * The dual loop completes exactly when every accessor works and there is an
   * entry for every dual model; dual i then holds entry i loaded non-strictly.
   */
  lemma {:induction false} LoadDualsPass<V>(nGPUs: int, duals: seq<Module<V>>, entries: seq<StateDict<V>>, n: nat)
    requires n <= |duals|
    ensures LoadDuals(nGPUs, duals, entries, n).1.Pass? <==>
      n <= |entries| && forall i :: 0 <= i < n ==> Unwrap(nGPUs, duals[i]).Ok?
    ensures LoadDuals(nGPUs, duals, entries, n).1.Pass? ==>
      forall i :: 0 <= i < n ==> LoadDuals(nGPUs, duals, entries, n).0[i] == LoadInto(duals[i], entries[i])
  {
    if n > 0 {
      LoadDualsPass(nGPUs, duals, entries, n - 1);
    }
  }

  /**
   * The state after the dual loop raised at dual j: the duals before j hold
   * their entries, the others are untouched, and the error is j's accessor
   * error or j's missing entry.
   */
  ghost predicate StoppedAt<V>(nGPUs: int, duals: seq<Module<V>>, entries: seq<StateDict<V>>,
                               loaded: seq<Module<V>>, o: Outcome<LoadError>, j: nat)
  {
    j < |duals| && j <= |entries| && |loaded| == |duals| &&
    (forall i :: 0 <= i < j ==> loaded[i] == LoadInto(duals[i], entries[i])) &&
    (forall i :: j <= i < |duals| ==> loaded[i] == duals[i]) &&
    o == Fail(if Unwrap(nGPUs, duals[j]).Err? then AccessFailed(Unwrap(nGPUs, duals[j]).error)
              else DualEntryMissing(j))
  }

  /** A dual loop that raises has stopped at some dual j it reached. */
  lemma {:induction false} LoadDualsFail<V>(nGPUs: int, duals: seq<Module<V>>, entries: seq<StateDict<V>>, n: nat)
    requires n <= |duals| && LoadDuals(nGPUs, duals, entries, n).1.Fail?
    ensures var (loaded, o) := LoadDuals(nGPUs, duals, entries, n);
      exists j :: 0 <= j < n && StoppedAt(nGPUs, duals, entries, loaded, o, j)
  {
    var (prev, po) := LoadDuals(nGPUs, duals, entries, n - 1);
    if po.Fail? {
      assert LoadDuals(nGPUs, duals, entries, n) == (prev, po);
      LoadDualsFail(nGPUs, duals, entries, n - 1);
    } else {
      var (loaded, o) := LoadDuals(nGPUs, duals, entries, n);
      var j := n - 1;
      assert j <= |entries| && forall i :: 0 <= i < j ==> prev[i] == LoadInto(duals[i], entries[i]) by {
        LoadDualsPass(nGPUs, duals, entries, n - 1);
      }
      assert loaded == prev;
      assert StoppedAt(nGPUs, duals, entries, loaded, o, j);
    }
  }

  /** Once the dual loop has raised, later rounds do not run. */
  lemma {:induction false} LoadDualsErrorPersists<V>(nGPUs: int, duals: seq<Module<V>>, entries: seq<StateDict<V>>, n: nat, m: nat)
    requires n <= m <= |duals| && LoadDuals(nGPUs, duals, entries, n).1.Fail?
    ensures LoadDuals(nGPUs, duals, entries, m) == LoadDuals(nGPUs, duals, entries, n)
    decreases m
  {
    if n < m {
      LoadDualsErrorPersists(nGPUs, duals, entries, n, m - 1);
    }
  }

  /**
   * `load(pre_train, pre_train_dual, new_pre_train, new_pre_train_dual)` on
   * the stored objects: the new primary object, the new dual list, and whether
   * it finished.  The dual branch opens `new_pre_train_dual` but never uses it;
   * a dict where the dual list is expected has no entry 0.
   */
  function LoadAll<V>(nGPUs: int, model: Module<V>, duals: seq<Module<V>>, preTrain: string, preTrainDual: string,
                      newPreTrain: string, newPreTrainDual: string, disk: map<string, Saved<V>>)
    : (Module<V>, seq<Module<V>>, Outcome<LoadError>)
  {
    var primary := if preTrain == SKIP then Ok(model) else LoadPrimary(nGPUs, model, preTrain, newPreTrain, disk);
    match primary
    case Err(e) => (model, duals, Fail(e))
    case Ok(m) =>
      if preTrainDual == SKIP then (m, duals, Pass)
      else
        match ReadFile(disk, newPreTrainDual)
        case Err(e) => (m, duals, Fail(e))
        case Ok(_) =>
          match ReadFile(disk, preTrainDual)
          case Err(e) => (m, duals, Fail(e))
          case Ok(f) =>
            var entries := if f.Sequence? then f.dicts else [];
            var (loaded, o) := LoadDuals(nGPUs, duals, entries, |duals|);
            (m, loaded, o)
  }

  /**
   * The sentinel guards: with `pre_train == '.'` the primary model is left as
   * it is, with `pre_train_dual == '.'` the dual models are, and with both
   * nothing is read and `load` finishes.
   */
  lemma SkipGuards<V>(nGPUs: int, model: Module<V>, duals: seq<Module<V>>, preTrain: string, preTrainDual: string,
                      newPreTrain: string, newPreTrainDual: string, disk: map<string, Saved<V>>)
    ensures preTrain == SKIP ==> LoadAll(nGPUs, model, duals, preTrain, preTrainDual, newPreTrain, newPreTrainDual, disk).0 == model
    ensures preTrainDual == SKIP ==> LoadAll(nGPUs, model, duals, preTrain, preTrainDual, newPreTrain, newPreTrainDual, disk).1 == duals
    ensures preTrain == SKIP && preTrainDual == SKIP ==>
      LoadAll(nGPUs, model, duals, preTrain, preTrainDual, newPreTrain, newPreTrainDual, disk) == (model, duals, Pass)
  {
  }

  /**
   * `load` finishes exactly when each branch it enters gets through: for the
   * primary, both files open, the legacy one holds a dict, the migration
   * succeeds and `get_model()` works; for the duals, both files open, the
   * dual checkpoint has an entry for every dual model and every
   * `get_dual_model(i)` works.
   */
  lemma LoadOutcome<V>(nGPUs: int, model: Module<V>, duals: seq<Module<V>>, preTrain: string, preTrainDual: string,
                       newPreTrain: string, newPreTrainDual: string, disk: map<string, Saved<V>>)
    ensures LoadAll(nGPUs, model, duals, preTrain, preTrainDual, newPreTrain, newPreTrainDual, disk).2.Pass? <==>
      (preTrain == SKIP ||
        (IsFile(disk, newPreTrain) && IsFile(disk, preTrain) && disk[preTrain].Single? &&
         Migrate(disk[preTrain].dict, if disk[newPreTrain].Single? then disk[newPreTrain].dict.values else map[]).Ok? &&
         Unwrap(nGPUs, model).Ok?)) &&
      (preTrainDual == SKIP ||
        (IsFile(disk, newPreTrainDual) && IsFile(disk, preTrainDual) &&
         |duals| <= |if disk[preTrainDual].Sequence? then disk[preTrainDual].dicts else []| &&
         forall i :: 0 <= i < |duals| ==> Unwrap(nGPUs, duals[i]).Ok?))
  {
    if preTrainDual in disk {
      var f := disk[preTrainDual];
      LoadDualsPass(nGPUs, duals, if f.Sequence? then f.dicts else [], |duals|);
    }
  }

  /** Two files agree at a path: both missing, or both present and equal. */
  ghost predicate SameFile<V>(disk1: map<string, Saved<V>>, disk2: map<string, Saved<V>>, p: string)
  {
    (p in disk1 <==> p in disk2) && (p in disk1 ==> disk1[p] == disk2[p])
  }

  /** Only the existence of `new_pre_train_dual` matters, never its content. */
  lemma NewDualCheckpointUnused<V>(nGPUs: int, model: Module<V>, duals: seq<Module<V>>, preTrain: string, preTrainDual: string,
                                   newPreTrain: string, newPreTrainDual: string, disk1: map<string, Saved<V>>, disk2: map<string, Saved<V>>)
    requires SameFile(disk1, disk2, preTrain) && SameFile(disk1, disk2, newPreTrain) && SameFile(disk1, disk2, preTrainDual)
    requires newPreTrainDual in disk1 <==> newPreTrainDual in disk2
    ensures LoadAll(nGPUs, model, duals, preTrain, preTrainDual, newPreTrain, newPreTrainDual, disk1) ==
            LoadAll(nGPUs, model, duals, preTrain, preTrainDual, newPreTrain, newPreTrainDual, disk2)
  {
    assert ReadFile(disk1, preTrain) == ReadFile(disk2, preTrain);
    assert ReadFile(disk1, newPreTrain) == ReadFile(disk2, newPreTrain);
    assert ReadFile(disk1, preTrainDual) == ReadFile(disk2, preTrainDual);
    assert ReadFile(disk1, newPreTrainDual).Ok? == ReadFile(disk2, newPreTrainDual).Ok?;
  }

  /** Loading into a placed slot keeps it placed. */
  lemma LoadIntoPlaced<V>(m: Module<V>, sd: StateDict<V>, parallel: bool, arch: Arch)
    requires Placed(m, parallel, arch)
    ensures Placed(LoadInto(m, sd), parallel, arch)
  {
  }

  lemma {:induction false} LoadDualsPlaced<V>(nGPUs: int, duals: seq<Module<V>>, entries: seq<StateDict<V>>, n: nat,
                                              parallel: bool, arch: Arch)
    requires n <= |duals| && AllPlaced(duals, parallel, arch)
    ensures AllPlaced(LoadDuals(nGPUs, duals, entries, n).0, parallel, arch)
  {
    if n > 0 {
      LoadDualsPlaced(nGPUs, duals, entries, n - 1, parallel, arch);
      var (loaded, o) := LoadDuals(nGPUs, duals, entries, n - 1);
      if o.Pass? && Unwrap(nGPUs, duals[n - 1]).Ok? && n - 1 < |entries| {
        LoadIntoPlaced(duals[n - 1], entries[n - 1], parallel, arch);
      }
    }
  }

  /** Loading the primary checkpoint keeps the primary slot placed and its parameter names. */
  lemma LoadPrimaryPlaced<V>(nGPUs: int, stored: Module<V>, preTrain: string, newPreTrain: string, disk: map<string, Saved<V>>,
                             parallel: bool)
    requires Placed(stored, parallel, Drn) && LoadPrimary(nGPUs, stored, preTrain, newPreTrain, disk).Ok?
    ensures var m := LoadPrimary(nGPUs, stored, preTrain, newPreTrain, disk).value;
      Placed(m, parallel, Drn) && Inner(m).params.keys == Inner(stored).params.keys
  {
    LoadPrimaryValues(nGPUs, stored, preTrain, newPreTrain, disk);
    var legacy := disk[preTrain].dict;
    var incoming := if disk[newPreTrain].Single? then disk[newPreTrain].dict.values else map[];
    LoadIntoPlaced(stored, Migrate(legacy, incoming).value, parallel, Drn);
  }

  /**
   * Whatever it reads, `load` keeps every slot's placement, architecture and
   * parameter names: it only changes parameter values.
   */
  lemma LoadAllPlaced<V>(nGPUs: int, cpu: bool, sf: int, model: Module<V>, duals: seq<Module<V>>, preTrain: string, preTrainDual: string,
                         newPreTrain: string, newPreTrainDual: string, disk: map<string, Saved<V>>)
    requires Placed(model, Parallel(cpu, nGPUs), Drn) && AllPlaced(duals, Parallel(cpu, nGPUs), DownBlock(sf))
    ensures var r := LoadAll(nGPUs, model, duals, preTrain, preTrainDual, newPreTrain, newPreTrainDual, disk);
      Placed(r.0, Parallel(cpu, nGPUs), Drn) && Inner(r.0).params.keys == Inner(model).params.keys &&
      |r.1| == |duals| && AllPlaced(r.1, Parallel(cpu, nGPUs), DownBlock(sf))
  {
    var parallel := Parallel(cpu, nGPUs);
    if preTrain != SKIP && LoadPrimary(nGPUs, model, preTrain, newPreTrain, disk).Ok? {
      LoadPrimaryPlaced(nGPUs, model, preTrain, newPreTrain, disk, parallel);
    }
    if preTrainDual != SKIP && preTrainDual in disk {
      var f := disk[preTrainDual];
      var entries := if f.Sequence? then f.dicts else [];
      LoadDualsPlaced(nGPUs, duals, entries, |duals|, parallel, DownBlock(sf));
    }
  }

  /**
   * Loading a legacy checkpoint updates the primary network's parameters with
   * the migrated checkpoint, non-strictly: parameters it names take its
   * value, the others keep theirs.
   */
  lemma LoadPrimaryValues<V>(nGPUs: int, stored: Module<V>, preTrain: string, newPreTrain: string, disk: map<string, Saved<V>>)
    requires LoadPrimary(nGPUs, stored, preTrain, newPreTrain, disk).Ok?
    ensures preTrain in disk && disk[preTrain].Single? && newPreTrain in disk
    ensures var legacy := disk[preTrain].dict;
      var incoming := if disk[newPreTrain].Single? then disk[newPreTrain].dict.values else map[];
      Migrate(legacy, incoming).Ok? && Unwrap(nGPUs, stored).Ok? &&
      LoadPrimary(nGPUs, stored, preTrain, newPreTrain, disk).value == LoadInto(stored, Migrate(legacy, incoming).value)
  {
  }

  // ---------------------------------------------------------------------
  // save, then load

  /**
   * Saving and then loading the dual-latest file back as `pre_train_dual`
   * (with the primary skipped) restores every dual model exactly.
   */
  lemma DualCheckpointRoundTrip<V>(nGPUs: int, model: Module<V>, duals: seq<Module<V>>, dir: string, isBest: bool,
                                   dataTrain: string, argsScale: seq<int>, disk: map<string, Saved<V>>)
    requires SaveAll(nGPUs, model, duals, dir, isBest, dataTrain, argsScale).1.Pass?
    ensures |argsScale| > 0
    ensures var p := CheckpointPath(dir, dataTrain, DualLatest, argsScale[|argsScale| - 1]);
      var saved := ApplyWrites(disk, SaveAll(nGPUs, model, duals, dir, isBest, dataTrain, argsScale).0);
      LoadAll(nGPUs, model, duals, SKIP, p, SKIP, p, saved) == (model, duals, Pass)
  {
    SaveOutcome(nGPUs, model, duals, dir, isBest, dataTrain, argsScale);
    SaveDualFiles(nGPUs, model, duals, dir, isBest, dataTrain, argsScale);
    SavePathsDistinct(nGPUs, model, duals, dir, isBest, dataTrain, argsScale);
    var writes := SaveAll(nGPUs, model, duals, dir, isBest, dataTrain, argsScale).0;
    var k := if isBest then 2 else 1;
    var p := writes[k].path;
    ApplyWritesAt(disk, writes, k);
    var saved := ApplyWrites(disk, writes);
    var entries := writes[k].content.dicts;
    assert saved[p] == Sequence(entries);
    assert |p| >= 3;
    LoadDualsPass(nGPUs, duals, entries, |duals|);
    var loaded := LoadDuals(nGPUs, duals, entries, |duals|).0;
    forall i | 0 <= i < |duals|
      ensures loaded[i] == duals[i]
    {
      LoadIntoOwn(duals[i]);
    }
    assert loaded == duals;
  }

  /**
   * Saving and reloading the latest file as both `pre_train` and
   * `new_pre_train` does not restore the primary model: every bucket-B
   * parameter takes the saved value of the bucket-A parameter of the same rank.
   */
  lemma ReloadLatestCopiesBucketA<V>(nGPUs: int, model: Module<V>, duals: seq<Module<V>>, dir: string, isBest: bool,
                                     dataTrain: string, argsScale: seq<int>, disk: map<string, Saved<V>>, i: nat)
    requires Inner(model).params.Valid()
    requires SaveAll(nGPUs, model, duals, dir, isBest, dataTrain, argsScale).1.Pass?
    requires var d := Inner(model).params; i < |Select(d.keys, InBucketB)|
    ensures |argsScale| > 0
    ensures var p := CheckpointPath(dir, dataTrain, Latest, argsScale[|argsScale| - 1]);
      var saved := ApplyWrites(disk, SaveAll(nGPUs, model, duals, dir, isBest, dataTrain, argsScale).0);
      var d := Inner(model).params;
      var r := LoadPrimary(nGPUs, model, p, p, saved);
      var names0, names1 := Select(d.keys, InBucketA), Select(d.keys, InBucketB);
      r.Ok? ==> i < |names0| && Inner(r.value).params.values[names1[i]] == d.values[names0[i]]
  {
    SavePrimaryFiles(nGPUs, model, duals, dir, isBest, dataTrain, argsScale);
    SavePathsDistinct(nGPUs, model, duals, dir, isBest, dataTrain, argsScale);
    var writes := SaveAll(nGPUs, model, duals, dir, isBest, dataTrain, argsScale).0;
    var p := writes[0].path;
    ApplyWritesAt(disk, writes, 0);
    var saved := ApplyWrites(disk, writes);
    var d := Inner(model).params;
    assert saved[p] == Single(d);
    var r := LoadPrimary(nGPUs, model, p, p, saved);
    if r.Ok? {
      LoadPrimaryValues(nGPUs, model, p, p, saved);
      MigrateBucketB(d, d.values, i);
      MigrateKeys(d, d.values);
      var names1 := Select(d.keys, InBucketB);
      assert names1[i] in names1;
      assert names1[i] in d.values;
    }
  }

  // ---------------------------------------------------------------------
  // The wrapper object

  class Model<V> {
    const scale: seq<int>
    const nGPUs: int
    const cpu: bool
    const sf: int
    var model: Module<V>
    const dualModels: array<Module<V>>

    /** What `__init__` establishes and `load` keeps. */
    ghost predicate Valid()
      reads this, dualModels
    {
      |scale| > 0 && sf == DownFactor(scale[0]) &&
      Placed(model, Parallel(cpu, nGPUs), Drn) &&
      dualModels.Length == |scale| && AllPlaced(dualModels[..], Parallel(cpu, nGPUs), DownBlock(sf))
    }

    constructor(scale: seq<int>, nGPUs: int, cpu: bool, sf: int, model: Module<V>, dualModels: array<Module<V>>)
      ensures this.scale == scale && this.nGPUs == nGPUs && this.cpu == cpu && this.sf == sf
      ensures this.model == model && this.dualModels == dualModels
    {
      this.scale := scale;
      this.nGPUs := nGPUs;
      this.cpu := cpu;
      this.sf := sf;
      this.model := model;
      this.dualModels := dualModels;
    }

    /** `get_model()`: on a valid model it fails exactly when neither one GPU nor data-parallel, and otherwise gives the primary network. */
    function GetModel(): (r: Result<Module<V>, AccessError>)
      reads this
      ensures Placed(model, Parallel(cpu, nGPUs), Drn) ==>
        (r.Ok? <==> nGPUs == 1 || Parallel(cpu, nGPUs)) && (r.Ok? ==> r.value == Plain(Inner(model)))
      ensures r.Ok? ==> Inner(r.value) == Inner(model)
    {
      Unwrap(nGPUs, model)
    }

    /**
     * `get_dual_model(idx)`: the list is indexed first (negative indices count
     * from the end), then unwrapped like the primary.
     */
    function GetDualModel(idx: int): (r: Result<Module<V>, AccessError>)
      reads this, dualModels
      ensures r == Err(IndexOutOfRange(idx)) <==> !(-dualModels.Length <= idx < dualModels.Length)
      ensures r.Ok? ==> Inner(r.value) == Inner(dualModels[if idx < 0 then idx + dualModels.Length else idx])
      ensures Valid() && -dualModels.Length <= idx < dualModels.Length ==>
        (r.Ok? <==> nGPUs == 1 || Parallel(cpu, nGPUs))
    {
      match PyIndex(dualModels.Length, idx)
      case None => Err(IndexOutOfRange(idx))
      case Some(j) => Unwrap(nGPUs, dualModels[j])
    }

    /** `save(path, is_best)`: the files written and whether it finished. */
    method Save(path: string, isBest: bool, dataTrain: string, argsScale: seq<int>)
      returns (writes: seq<FileWrite<V>>, r: Outcome<SaveError>)
      ensures (writes, r) == SaveAll(nGPUs, model, dualModels[..], path, isBest, dataTrain, argsScale)
    {
      var target := GetModel();
      if target.Err? {
        return [], Fail(SaveAccessFailed(target.error));
      }
      if |argsScale| == 0 {
        return [], Fail(NoScale);
      }
      var last := argsScale[|argsScale| - 1];
      var state := Single(Inner(target.value).params);
      writes := [FileWrite(CheckpointPath(path, dataTrain, Latest, last), state)];
      if isBest {
        writes := writes + [FileWrite(CheckpointPath(path, dataTrain, Best, last), state)];
      }
      ghost var primary := writes;
      assert primary == Writes(path, dataTrain, last, Latest, Best, isBest, state);
      var states: seq<StateDict<V>> := [];
      for i := 0 to dualModels.Length
        invariant DualStates(nGPUs, dualModels[..i]) == Ok(states)
      {
        var dual := GetDualModel(i);
        assert dualModels[..i + 1] == dualModels[..i] + [dualModels[i]];
        if dual.Err? {
          DualStatesErrorPersists(nGPUs, dualModels[..], i + 1);
          return writes, Fail(SaveAccessFailed(dual.error));
        }
        states := states + [Inner(dual.value).params];
      }
      assert dualModels[..dualModels.Length] == dualModels[..];
      var dualState := Sequence(states);
      writes := writes + [FileWrite(CheckpointPath(path, dataTrain, DualLatest, last), dualState)];
      if isBest {
        writes := writes + [FileWrite(CheckpointPath(path, dataTrain, DualBest, last), dualState)];
      }
      assert writes == primary + Writes(path, dataTrain, last, DualLatest, DualBest, isBest, dualState);
      r := Pass;
    }

    /** `load(pre_train, pre_train_dual, new_pre_train, new_pre_train_dual)`. */
    method Load(preTrain: string, preTrainDual: string, newPreTrain: string, newPreTrainDual: string,
                disk: map<string, Saved<V>>) returns (r: Outcome<LoadError>)
      requires Valid()
      modifies this, dualModels
      ensures Valid()
      ensures (model, dualModels[..], r) ==
        LoadAll(nGPUs, old(model), old(dualModels[..]), preTrain, preTrainDual, newPreTrain, newPreTrainDual, disk)
    {
      if preTrain != SKIP {
        r := LoadPrimaryModel(preTrain, newPreTrain, disk);
        if r.Fail? {
          return;
        }
      }
      if preTrainDual != SKIP {
        var newDualFile := ReadFile(disk, newPreTrainDual);
        if newDualFile.Err? {
          return Fail(newDualFile.error);
        }
        var dualFile := ReadFile(disk, preTrainDual);
        if dualFile.Err? {
          return Fail(dualFile.error);
        }
        var entries := if dualFile.value.Sequence? then dualFile.value.dicts else [];
        r := LoadDualModels(entries);
        return;
      }
      r := Pass;
    }

    /** The primary branch of `load`: the model changes only if the whole branch succeeds. */
    method LoadPrimaryModel(preTrain: string, newPreTrain: string, disk: map<string, Saved<V>>) returns (r: Outcome<LoadError>)
      requires Placed(model, Parallel(cpu, nGPUs), Drn)
      modifies this
      ensures Placed(model, Parallel(cpu, nGPUs), Drn)
      ensures var expected := LoadPrimary(nGPUs, old(model), preTrain, newPreTrain, disk);
        if expected.Ok? then r == Pass && model == expected.value
        else r == Fail(expected.error) && model == old(model)
    {
      var newFile := ReadFile(disk, newPreTrain);
      if newFile.Err? {
        return Fail(newFile.error);
      }
      var legacyFile := ReadFile(disk, preTrain);
      if legacyFile.Err? {
        return Fail(legacyFile.error);
      }
      if legacyFile.value.Sequence? {
        return Fail(NotAStateDict(preTrain));
      }
      var incoming := if newFile.value.Single? then newFile.value.dict.values else map[];
      var merged := MigrateLoop(legacyFile.value.dict, incoming);
      if merged.Err? {
        return Fail(MigrationFailed(merged.error));
      }
      var target := GetModel();
      if target.Err? {
        return Fail(AccessFailed(target.error));
      }
      LoadIntoPlaced(model, merged.value, Parallel(cpu, nGPUs), Drn);
      model := LoadInto(model, merged.value);
      r := Pass;
    }

    /** The dual loop of `load`: dual i takes `entries[i]` until an accessor raises or the entries run out. */
    method LoadDualModels(entries: seq<StateDict<V>>) returns (r: Outcome<LoadError>)
      requires AllPlaced(dualModels[..], Parallel(cpu, nGPUs), DownBlock(sf))
      modifies dualModels
      ensures AllPlaced(dualModels[..], Parallel(cpu, nGPUs), DownBlock(sf))
      ensures (dualModels[..], r) == LoadDuals(nGPUs, old(dualModels[..]), entries, dualModels.Length)
    {
      ghost var start := dualModels[..];
      for i := 0 to dualModels.Length
        invariant LoadDuals(nGPUs, start, entries, i) == (dualModels[..], Pass)
        invariant AllPlaced(dualModels[..], Parallel(cpu, nGPUs), DownBlock(sf))
      {
        var target := GetDualModel(i);
        if target.Err? {
          LoadDualsErrorPersists(nGPUs, start, entries, i + 1, |start|);
          return Fail(AccessFailed(target.error));
        }
        if i >= |entries| {
          LoadDualsErrorPersists(nGPUs, start, entries, i + 1, |start|);
          return Fail(DualEntryMissing(i));
        }
        LoadIntoPlaced(dualModels[i], entries[i], Parallel(cpu, nGPUs), DownBlock(sf));
        dualModels[i] := LoadInto(dualModels[i], entries[i]);
      }
      r := Pass;
    }
  }

  /**
   * `Model(opt, ckp)`: choose `sf`, build the primary network and one dual
   * network per scale, wrap them all when data-parallel, then `load` the
   * checkpoints named in the options.  `deviceCount` is
   * `torch.cuda.device_count()`; `drnInit` and `downInit` are the networks'
   * initial parameters.
   */
  method Create<V>(scale: seq<int>, nGPUs: int, cpu: bool, deviceCount: int,
                   drnInit: StateDict<V>, downInit: nat -> StateDict<V>,
                   preTrain: string, preTrainDual: string, newPreTrain: string, newPreTrainDual: string,
                   disk: map<string, Saved<V>>) returns (r: Result<Model<V>, InitError>)
    requires drnInit.Valid() && forall i: nat :: downInit(i).Valid()
    ensures |scale| == 0 ==> r == Err(EmptyScale)
    ensures |scale| > 0 && Parallel(cpu, nGPUs) && deviceCount < nGPUs ==> r == Err(PlacementFailed(TooFewDevices))
    ensures |scale| > 0 && (Parallel(cpu, nGPUs) ==> deviceCount >= nGPUs) ==>
      var ngpus := if Parallel(cpu, nGPUs) then nGPUs else 1;
      var built := LoadAll(nGPUs, Place(Plain(Net(Drn, drnInit)), ngpus),
                           InitialDuals(|scale|, DownFactor(scale[0]), downInit, ngpus),
                           preTrain, preTrainDual, newPreTrain, newPreTrainDual, disk);
      (r.Ok? <==> built.2.Pass?) &&
      (r.Err? ==> r == Err(LoadFailed(built.2.error))) &&
      (r.Ok? ==> r.value.model == built.0 && r.value.dualModels[..] == built.1)
    ensures r.Ok? ==> fresh(r.value) && fresh(r.value.dualModels) && r.value.Valid()
    ensures r.Ok? ==> r.value.scale == scale && r.value.nGPUs == nGPUs && r.value.cpu == cpu
  {
    if |scale| == 0 {
      return Err(EmptyScale);
    }
    var sf := DownFactor(scale[0]);
    var primary := Plain(Net(Drn, drnInit));
    var duals := MakeDualModels(scale, sf, downInit);
    var slots := new Module<V>[|duals|](i requires 0 <= i < |duals| => duals[i]);
    var ngpus := 1;
    if !cpu && nGPUs > 1 {
      ngpus := nGPUs;
      primary := Wrapped(primary);
      var placed := DataParallel(slots, seq(nGPUs, i => i), deviceCount);
      if placed.Fail? {
        return Err(PlacementFailed(placed.error));
      }
    }
    assert slots[..] == InitialDuals(|scale|, sf, downInit, ngpus);
    forall i | 0 <= i < |scale|
      ensures Placed(slots[..][i], Parallel(cpu, nGPUs), DownBlock(sf))
    {
      assert downInit(i).Valid();
    }
    var m := new Model(scale, nGPUs, cpu, sf, primary, slots);
    var loaded := m.Load(preTrain, preTrainDual, newPreTrain, newPreTrainDual, disk);
    if loaded.Fail? {
      return Err(LoadFailed(loaded.error));
    }
    r := Ok(m);
  }
}
