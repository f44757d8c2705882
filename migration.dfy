/**
 * The checkpoint key migration run by `Model.load` before the primary model
 * is loaded (model/__init_2-4.py:133-155).
 *
 * A legacy ("4-branch") checkpoint is walked in insertion order.  Its keys
 * fall into two buckets, judged on the dot-separated segments of the key:
 *   bucket A: up_blocks.0.*
 *   bucket B: up_blocks.1.*, except up_blocks.1.41.*
 * Each bucket-A key takes the value stored under the same key in a "new"
 * ("2-branch") checkpoint; the k-th bucket-B key takes the new value stored
 * under the k-th bucket-A key.  Both patches are then applied to the legacy
 * checkpoint with `dict.update`.
 *
 * The pure functions below are the specification, in the order the source
 * runs the steps; the methods at the end are the source's loops, proved equal
 * to them.
 */
module Migration {
  import opened Wrappers
  import opened StateDicts
  import KeyPath

  datatype Bucket = BucketA | BucketB | Untouched

  /** The exceptions the migration can raise. */
  datatype MigrationError =
    | SegmentMissing(key: string, position: nat)   // IndexError on param_s[position]
    | MissingNewKey(key: string)                    // KeyError on new_weight2[key]
    | NoPartner(position: nat)                      // IndexError on param0_names[position]

  /** `param.split('.')` */
  function Segments(key: string): (s: seq<string>)
    ensures |s| >= 1
  {
    KeyPath.Split(key, '.')
  }

  // Declarative descriptions of the buckets, independent of evaluation order.

  predicate InBucketA(key: string)
  {
    var s := Segments(key);
    |s| >= 2 && s[0] == "up_blocks" && s[1] == "0"
  }

  predicate InBucketB(key: string)
  {
    var s := Segments(key);
    |s| >= 3 && s[0] == "up_blocks" && s[1] == "1" && s[2] != "41"
  }

  /** Keys on which the two bucket tests index past the last segment. */
  predicate Malformed(key: string)
  {
    var s := Segments(key);
    s == ["up_blocks"] || s == ["up_blocks", "1"]
  }

  /**
   * The two tests of lines 138 and 140 on one key, with Python's
   * short-circuit `and`: a segment is only read when the tests before it
   * passed, and reading one that does not exist raises.
   */
  function Classify(key: string): (r: Result<Bucket, MigrationError>)
    ensures r.Err? <==> Malformed(key)
    ensures r.Err? ==> r.error.SegmentMissing? && r.error.key == key
    ensures r == Ok(BucketA) <==> InBucketA(key)
    ensures r == Ok(BucketB) <==> InBucketB(key)
  {
    var s := Segments(key);
    if s[0] != "up_blocks" then Ok(Untouched)
    else if |s| < 2 then Err(SegmentMissing(key, 1))
    else if s[1] == "0" then Ok(BucketA)
    else if s[1] != "1" then Ok(Untouched)
    else if |s| < 3 then Err(SegmentMissing(key, 2))
    else if s[2] != "41" then Ok(BucketB)
    else Ok(Untouched)
  }

  /** Lines 133-141: `param0_names` and `param1_names`, built in key order. */
  function Partition(keys: seq<string>): Result<(seq<string>, seq<string>), MigrationError>
  {
    if |keys| == 0 then Ok(([], []))
    else
      match Partition(keys[..|keys| - 1])
      case Err(e) => Err(e)
      case Ok(names) =>
        var key := keys[|keys| - 1];
        match Classify(key)
        case Err(e) => Err(e)
        case Ok(BucketA) => Ok((names.0 + [key], names.1))
        case Ok(BucketB) => Ok((names.0, names.1 + [key]))
        case Ok(Untouched) => Ok(names)
  }

  /** Lines 143-148: `new_dict0[k] = new_weight2[k]` for each bucket-A key k. */
  function PatchA<V>(incoming: map<string, V>, names0: seq<string>): Result<StateDict<V>, MigrationError>
  {
    if |names0| == 0 then Ok(Empty())
    else
      match PatchA(incoming, names0[..|names0| - 1])
      case Err(e) => Err(e)
      case Ok(d) =>
        var key := names0[|names0| - 1];
        if key !in incoming then Err(MissingNewKey(key))
        else Ok(Assign(d, key, incoming[key]))
  }

  /** Lines 150-152: `new_dict1[names1[i]] = new_weight2[names0[i]]`. */
  function PatchB<V>(incoming: map<string, V>, names0: seq<string>, names1: seq<string>): Result<StateDict<V>, MigrationError>
  {
    if |names1| == 0 then Ok(Empty())
    else
      match PatchB(incoming, names0, names1[..|names1| - 1])
      case Err(e) => Err(e)
      case Ok(d) =>
        var i := |names1| - 1;
        if i >= |names0| then Err(NoPartner(i))
        else if names0[i] !in incoming then Err(MissingNewKey(names0[i]))
        else Ok(Assign(d, names1[i], incoming[names0[i]]))
  }

  /** Lines 133-155: the whole migration of `weight4` against `new_weight2`. */
  function Migrate<V>(legacy: StateDict<V>, incoming: map<string, V>): Result<StateDict<V>, MigrationError>
  {
    match Partition(legacy.keys)
    case Err(e) => Err(e)
    case Ok(names) =>
      match PatchA(incoming, names.0)
      case Err(e) => Err(e)
      case Ok(dict0) =>
        match PatchB(incoming, names.0, names.1)
        case Err(e) => Err(e)
        case Ok(dict1) => Ok(Update(Update(legacy, dict0), dict1))
  }

  // ---------------------------------------------------------------------
  // What each step computes

  /** The bucketing step fails exactly when some legacy key is malformed. */
  lemma {:induction false} PartitionOkIff(keys: seq<string>)
    ensures Partition(keys).Ok? <==> forall i :: 0 <= i < |keys| ==> !Malformed(keys[i])
  {
    if |keys| > 0 {
      var init := keys[..|keys| - 1];
      PartitionOkIff(init);
      assert forall i :: 0 <= i < |init| ==> init[i] == keys[i];
    }
  }

  /** The bucket lists are the legacy keys in each bucket, in iteration order. */
  lemma {:induction false} PartitionBuckets(keys: seq<string>)
    requires Partition(keys).Ok?
    ensures Partition(keys).value.0 == Select(keys, InBucketA)
    ensures Partition(keys).value.1 == Select(keys, InBucketB)
  {
    if |keys| > 0 {
      var init, key := keys[..|keys| - 1], keys[|keys| - 1];
      PartitionBuckets(init);
      var sa, sb := Select(init, InBucketA), Select(init, InBucketB);
      assert Select(keys, InBucketA) == sa + (if InBucketA(key) then [key] else []);
      assert Select(keys, InBucketB) == sb + (if InBucketB(key) then [key] else []);
      var c := Classify(key);
      if c == Ok(BucketA) {
        assert Partition(keys).value == (sa + [key], sb);
      } else if c == Ok(BucketB) {
        assert Partition(keys).value == (sa, sb + [key]);
      } else {
        assert Partition(keys).value == (sa, sb);
      }
    }
  }

  /** When bucketing fails, it fails on the first malformed key. */
  lemma {:induction false} PartitionFirstError(keys: seq<string>)
    requires Partition(keys).Err?
    ensures exists j ::
        0 <= j < |keys| && Malformed(keys[j]) &&
        (forall i :: 0 <= i < j ==> !Malformed(keys[i])) &&
        Partition(keys).error == Classify(keys[j]).error
  {
    var init, key := keys[..|keys| - 1], keys[|keys| - 1];
    if Partition(init).Err? {
      PartitionFirstError(init);
      var j :| 0 <= j < |init| && Malformed(init[j]) &&
        (forall i :: 0 <= i < j ==> !Malformed(init[i])) &&
        Partition(init).error == Classify(init[j]).error;
      assert keys[j] == init[j];
      assert forall i :: 0 <= i < j ==> keys[i] == init[i];
    } else {
      PartitionOkIff(init);
      assert forall i :: 0 <= i < |init| ==> keys[i] == init[i];
      assert Malformed(keys[|keys| - 1]);
    }
  }

  /** `new_dict0` can be built exactly when every bucket-A key is in the new checkpoint. */
  lemma {:induction false} PatchAOkIff<V>(incoming: map<string, V>, names0: seq<string>)
    ensures PatchA(incoming, names0).Ok? <==> forall i :: 0 <= i < |names0| ==> names0[i] in incoming
  {
    if |names0| > 0 {
      var init := names0[..|names0| - 1];
      PatchAOkIff(incoming, init);
      assert forall i :: 0 <= i < |init| ==> init[i] == names0[i];
    }
  }

  /** One step of the loop at lines 143-148: the last bucket-A key is assigned its new value. */
  lemma PatchAStep<V>(incoming: map<string, V>, names0: seq<string>)
    requires |names0| > 0 && PatchA(incoming, names0).Ok?
    ensures PatchA(incoming, names0[..|names0| - 1]).Ok? && names0[|names0| - 1] in incoming
    ensures PatchA(incoming, names0).value ==
      Assign(PatchA(incoming, names0[..|names0| - 1]).value, names0[|names0| - 1], incoming[names0[|names0| - 1]])
  {
  }

  /** `new_dict0` is an ordered dictionary over exactly the bucket-A keys, in order. */
  lemma {:induction false} PatchAKeys<V>(incoming: map<string, V>, names0: seq<string>)
    requires PatchA(incoming, names0).Ok? && Distinct(names0)
    ensures PatchA(incoming, names0).value.Valid()
    ensures PatchA(incoming, names0).value.keys == names0
  {
    if |names0| > 0 {
      var init, key := names0[..|names0| - 1], names0[|names0| - 1];
      PatchAStep(incoming, names0);
      DistinctInit(names0);
      PatchAKeys(incoming, init);
      AssignLast(PatchA(incoming, init).value, names0, incoming[key]);
    }
  }

  /** Every entry of `new_dict0` is the new checkpoint's value at the same key. */
  lemma {:induction false} PatchAValues<V>(incoming: map<string, V>, names0: seq<string>)
    requires PatchA(incoming, names0).Ok?
    ensures forall k :: k in PatchA(incoming, names0).value.values ==>
      k in incoming && PatchA(incoming, names0).value.values[k] == incoming[k]
  {
    if |names0| > 0 {
      var init, key := names0[..|names0| - 1], names0[|names0| - 1];
      PatchAValues(incoming, init);
      var d := PatchA(incoming, init).value;
      var r := Assign(d, key, incoming[key]);
      assert PatchA(incoming, names0) == Ok(r);
      forall k | k in r.values
        ensures k in incoming && r.values[k] == incoming[k]
      {
        if k != key {
          assert k in d.values;
        }
      }
    }
  }

  /** `new_dict0` maps each bucket-A key, in order, to the new checkpoint's value at that key. */
  lemma PatchAContents<V>(incoming: map<string, V>, names0: seq<string>)
    requires PatchA(incoming, names0).Ok? && Distinct(names0)
    ensures PatchA(incoming, names0).value.Valid()
    ensures PatchA(incoming, names0).value.keys == names0
    ensures forall k :: k in PatchA(incoming, names0).value.values ==>
      k in incoming && PatchA(incoming, names0).value.values[k] == incoming[k]
  {
    PatchAKeys(incoming, names0);
    PatchAValues(incoming, names0);
  }

  /** When `new_dict0` cannot be built, the KeyError is for the first missing key. */
  lemma {:induction false} PatchAFirstError<V>(incoming: map<string, V>, names0: seq<string>)
    requires PatchA(incoming, names0).Err?
    ensures exists j ::
        0 <= j < |names0| && names0[j] !in incoming &&
        (forall i :: 0 <= i < j ==> names0[i] in incoming) &&
        PatchA(incoming, names0).error == MissingNewKey(names0[j])
  {
    var init := names0[..|names0| - 1];
    assert forall i :: 0 <= i < |init| ==> init[i] == names0[i];
    if PatchA(incoming, init).Err? {
      PatchAFirstError(incoming, init);
    } else {
      PatchAOkIff(incoming, init);
    }
  }

  /** `new_dict1` can be built exactly when bucket B is no longer than bucket A
    * and each partner bucket-A key is in the new checkpoint. */
  lemma {:induction false} PatchBOkIff<V>(incoming: map<string, V>, names0: seq<string>, names1: seq<string>)
    ensures PatchB(incoming, names0, names1).Ok? <==>
      |names1| <= |names0| && forall i :: 0 <= i < |names1| ==> names0[i] in incoming
  {
    if |names1| > 0 {
      PatchBOkIff(incoming, names0, names1[..|names1| - 1]);
    }
  }

  /** One step of the loop at lines 150-152: the last bucket-B key takes its partner's new value. */
  lemma PatchBStep<V>(incoming: map<string, V>, names0: seq<string>, names1: seq<string>)
    requires |names1| > 0 && PatchB(incoming, names0, names1).Ok?
    ensures PatchB(incoming, names0, names1[..|names1| - 1]).Ok?
    ensures |names1| - 1 < |names0| && names0[|names1| - 1] in incoming
    ensures PatchB(incoming, names0, names1).value ==
      Assign(PatchB(incoming, names0, names1[..|names1| - 1]).value, names1[|names1| - 1], incoming[names0[|names1| - 1]])
  {
  }

  /** The step of PatchBKeys: if `new_dict1` is right for the shorter list, it is right after one more key. */
  lemma PatchBKeysStep<V>(incoming: map<string, V>, names0: seq<string>, names1: seq<string>)
    requires |names1| > 0 && PatchB(incoming, names0, names1).Ok? && Distinct(names1)
    requires PatchB(incoming, names0, names1[..|names1| - 1]).Ok?
    requires PatchB(incoming, names0, names1[..|names1| - 1]).value.Valid()
    requires PatchB(incoming, names0, names1[..|names1| - 1]).value.keys == names1[..|names1| - 1]
    ensures PatchB(incoming, names0, names1).value.Valid()
    ensures PatchB(incoming, names0, names1).value.keys == names1
  {
    var last := |names1| - 1;
    PatchBStep(incoming, names0, names1);
    AssignLast(PatchB(incoming, names0, names1[..last]).value, names1, incoming[names0[last]]);
  }

  /** `new_dict1` is an ordered dictionary over exactly the bucket-B keys. */
  lemma {:induction false} PatchBKeys<V>(incoming: map<string, V>, names0: seq<string>, names1: seq<string>)
    requires PatchB(incoming, names0, names1).Ok? && Distinct(names1)
    ensures PatchB(incoming, names0, names1).value.Valid()
    ensures PatchB(incoming, names0, names1).value.keys == names1
  {
    if |names1| > 0 {
      var init := names1[..|names1| - 1];
      PatchBStep(incoming, names0, names1);
      DistinctInit(names1);
      PatchBKeys(incoming, names0, init);
      PatchBKeysStep(incoming, names0, names1);
    }
  }

  /** `new_dict1` gives the i-th bucket-B key the new value of the i-th bucket-A key. */
  lemma {:induction false} PatchBValues<V>(incoming: map<string, V>, names0: seq<string>, names1: seq<string>)
    requires PatchB(incoming, names0, names1).Ok? && Distinct(names1)
    ensures forall i :: 0 <= i < |names1| ==>
      i < |names0| && names0[i] in incoming && names1[i] in PatchB(incoming, names0, names1).value.values &&
      PatchB(incoming, names0, names1).value.values[names1[i]] == incoming[names0[i]]
  {
    if |names1| > 0 {
      var init, last := names1[..|names1| - 1], |names1| - 1;
      DistinctInit(names1);
      PatchBStep(incoming, names0, names1);
      PatchBValues(incoming, names0, init);
      var d := PatchB(incoming, names0, init).value;
      var r := PatchB(incoming, names0, names1).value;
      forall i | 0 <= i < |names1|
        ensures i < |names0| && names0[i] in incoming && names1[i] in r.values
        ensures r.values[names1[i]] == incoming[names0[i]]
      {
        if i < last {
          assert names1[i] == init[i] && names1[i] != names1[last];
        }
      }
    }
  }

  /** When `new_dict1` cannot be built, the error is at the first index with no
    * partner (IndexError) or whose partner is missing (KeyError). */
  lemma {:induction false} PatchBFirstError<V>(incoming: map<string, V>, names0: seq<string>, names1: seq<string>)
    requires PatchB(incoming, names0, names1).Err?
    ensures exists j ::
        0 <= j < |names1| && j <= |names0| &&
        (forall i :: 0 <= i < j ==> names0[i] in incoming) &&
        (j < |names0| ==> names0[j] !in incoming) &&
        PatchB(incoming, names0, names1).error ==
          (if j == |names0| then NoPartner(j) else MissingNewKey(names0[j]))
  {
    var init := names1[..|names1| - 1];
    if PatchB(incoming, names0, init).Err? {
      PatchBFirstError(incoming, names0, init);
    } else {
      PatchBOkIff(incoming, names0, init);
    }
  }

  // ---------------------------------------------------------------------
  // What the migration as a whole does

  /** A key is never in both buckets: their second segments differ. */
  lemma BucketsDisjoint(names0: seq<string>, names1: seq<string>, keys: seq<string>)
    requires names0 == Select(keys, InBucketA) && names1 == Select(keys, InBucketB)
    ensures forall k :: k in names0 ==> k !in names1
  {
  }

  /** The intermediate results of a successful migration, as the step lemmas describe them. */
  lemma MigrateSteps<V>(legacy: StateDict<V>, incoming: map<string, V>)
    requires legacy.Valid() && Migrate(legacy, incoming).Ok?
    ensures var names0, names1 := Select(legacy.keys, InBucketA), Select(legacy.keys, InBucketB);
      Partition(legacy.keys) == Ok((names0, names1)) &&
      PatchA(incoming, names0).Ok? && PatchB(incoming, names0, names1).Ok? &&
      var dict0, dict1 := PatchA(incoming, names0).value, PatchB(incoming, names0, names1).value;
      dict0.Valid() && dict0.keys == names0 && dict1.Valid() && dict1.keys == names1 &&
      (forall k :: k in dict0.values ==> k in incoming && dict0.values[k] == incoming[k]) &&
      Migrate(legacy, incoming) == Ok(Update(Update(legacy, dict0), dict1))
  {
    PartitionBuckets(legacy.keys);
    var names0, names1 := Select(legacy.keys, InBucketA), Select(legacy.keys, InBucketB);
    PatchAContents(incoming, names0);
    PatchBKeys(incoming, names0, names1);
  }

  /**
   * The migration succeeds exactly when no key is malformed, every bucket-A
   * key is in the new checkpoint, and bucket B is no longer than bucket A.
   */
  lemma MigrateOkIff<V>(legacy: StateDict<V>, incoming: map<string, V>)
    requires legacy.Valid()
    ensures Migrate(legacy, incoming).Ok? <==>
      (forall i :: 0 <= i < |legacy.keys| ==> !Malformed(legacy.keys[i])) &&
      (forall k :: k in legacy.values && InBucketA(k) ==> k in incoming) &&
      |Select(legacy.keys, InBucketB)| <= |Select(legacy.keys, InBucketA)|
  {
    var keys := legacy.keys;
    PartitionOkIff(keys);
    if Partition(keys).Ok? {
      PartitionBuckets(keys);
      var names0, names1 := Select(keys, InBucketA), Select(keys, InBucketB);
      PatchAOkIff(incoming, names0);
      PatchBOkIff(incoming, names0, names1);
      assert (forall k :: k in legacy.values && InBucketA(k) ==> k in incoming) <==>
             (forall i :: 0 <= i < |names0| ==> names0[i] in incoming);
    }
  }

  /** A migration that fails while bucketing fails on a malformed legacy key. */
  lemma BucketingError<V>(legacy: StateDict<V>, incoming: map<string, V>)
    requires legacy.Valid() && Partition(legacy.keys).Err?
    ensures var e := Migrate(legacy, incoming).error;
      e.SegmentMissing? && e.key in legacy.values && Malformed(e.key)
  {
    var keys := legacy.keys;
    PartitionFirstError(keys);
    var j :| 0 <= j < |keys| && Malformed(keys[j]) && Partition(keys).error == Classify(keys[j]).error;
    assert keys[j] in legacy.values;
  }

  /** A migration that fails while building `new_dict0` fails on a bucket-A key missing from the new checkpoint. */
  lemma PatchAError<V>(legacy: StateDict<V>, incoming: map<string, V>, names0: seq<string>, names1: seq<string>)
    requires legacy.Valid() && Partition(legacy.keys) == Ok((names0, names1))
    requires PatchA(incoming, names0).Err?
    ensures var e := Migrate(legacy, incoming).error;
      e.MissingNewKey? && e.key in legacy.values && InBucketA(e.key) && e.key !in incoming
  {
    PartitionBuckets(legacy.keys);
    PatchAFirstError(incoming, names0);
    var j :| 0 <= j < |names0| && names0[j] !in incoming && PatchA(incoming, names0).error == MissingNewKey(names0[j]);
    assert names0[j] in names0;
  }

  /** A migration that fails while building `new_dict1` fails because bucket B outruns bucket A. */
  lemma PatchBError<V>(legacy: StateDict<V>, incoming: map<string, V>, names0: seq<string>, names1: seq<string>)
    requires legacy.Valid() && Partition(legacy.keys) == Ok((names0, names1))
    requires PatchA(incoming, names0).Ok? && PatchB(incoming, names0, names1).Err?
    ensures var e := Migrate(legacy, incoming).error;
      e.NoPartner? && e.position == |names0| < |names1|
  {
    PatchBFirstError(incoming, names0, names1);
    var j :| 0 <= j < |names1| && j <= |names0| &&
      (j < |names0| ==> names0[j] !in incoming) &&
      PatchB(incoming, names0, names1).error == (if j == |names0| then NoPartner(j) else MissingNewKey(names0[j]));
    PatchAOkIff(incoming, names0);
    assert j == |names0|;
  }

  /** Which exception a failed migration raises, in the order the source runs its steps. */
  lemma MigrateError<V>(legacy: StateDict<V>, incoming: map<string, V>)
    requires legacy.Valid() && Migrate(legacy, incoming).Err?
    ensures var e := Migrate(legacy, incoming).error;
      || (e.SegmentMissing? && e.key in legacy.values && Malformed(e.key))
      || (e.MissingNewKey? && e.key in legacy.values && InBucketA(e.key) && e.key !in incoming)
      || (e.NoPartner? && e.position == |Select(legacy.keys, InBucketA)| < |Select(legacy.keys, InBucketB)|)
  {
    if Partition(legacy.keys).Err? {
      BucketingError(legacy, incoming);
    } else {
      PartitionBuckets(legacy.keys);
      var names0, names1 := Select(legacy.keys, InBucketA), Select(legacy.keys, InBucketB);
      if PatchA(incoming, names0).Err? {
        PatchAError(legacy, incoming, names0, names1);
      } else {
        PatchBError(legacy, incoming, names0, names1);
      }
    }
  }

  /** The merged checkpoint has exactly the legacy keys, in the legacy order. */
  lemma MigrateKeys<V>(legacy: StateDict<V>, incoming: map<string, V>)
    requires legacy.Valid() && Migrate(legacy, incoming).Ok?
    ensures Migrate(legacy, incoming).value.Valid()
    ensures Migrate(legacy, incoming).value.keys == legacy.keys
    ensures Migrate(legacy, incoming).value.values.Keys == legacy.values.Keys
  {
    MigrateSteps(legacy, incoming);
  }

  /** Every bucket-A key takes the new checkpoint's value at that same key. */
  lemma MigrateBucketA<V>(legacy: StateDict<V>, incoming: map<string, V>, key: string)
    requires legacy.Valid() && Migrate(legacy, incoming).Ok?
    requires key in legacy.values && InBucketA(key)
    ensures key in incoming && Migrate(legacy, incoming).value.values[key] == incoming[key]
  {
    MigrateSteps(legacy, incoming);
  }

  /**
   * The i-th bucket-B key, in legacy order, takes the new checkpoint's value
   * at the i-th bucket-A key, not at its own key.
   */
  lemma MigrateBucketB<V>(legacy: StateDict<V>, incoming: map<string, V>, i: nat)
    requires legacy.Valid() && Migrate(legacy, incoming).Ok?
    requires i < |Select(legacy.keys, InBucketB)|
    ensures var names0, names1 := Select(legacy.keys, InBucketA), Select(legacy.keys, InBucketB);
      i < |names0| && names0[i] in incoming &&
      Migrate(legacy, incoming).value.values[names1[i]] == incoming[names0[i]]
  {
    MigrateSteps(legacy, incoming);
    var names0, names1 := Select(legacy.keys, InBucketA), Select(legacy.keys, InBucketB);
    PatchBValues(incoming, names0, names1);
  }

  /**
   * Every other key keeps its legacy value: up_blocks.1.41.*, keys outside
   * up_blocks, and up_blocks.N.* for N other than 0 and 1.
   */
  lemma MigrateFrame<V>(legacy: StateDict<V>, incoming: map<string, V>, key: string)
    requires legacy.Valid() && Migrate(legacy, incoming).Ok?
    requires key in legacy.values && !InBucketA(key) && !InBucketB(key)
    ensures Migrate(legacy, incoming).value.values[key] == legacy.values[key]
  {
    MigrateSteps(legacy, incoming);
  }

  /** Since the buckets are disjoint, applying the two patches in the other order gives the same checkpoint. */
  lemma MigrateEitherOrder<V>(legacy: StateDict<V>, incoming: map<string, V>)
    requires legacy.Valid() && Migrate(legacy, incoming).Ok?
    ensures var names0, names1 := Select(legacy.keys, InBucketA), Select(legacy.keys, InBucketB);
      PatchA(incoming, names0).Ok? && PatchB(incoming, names0, names1).Ok? &&
      Migrate(legacy, incoming).value ==
        Update(Update(legacy, PatchB(incoming, names0, names1).value), PatchA(incoming, names0).value)
  {
    MigrateSteps(legacy, incoming);
    var names0, names1 := Select(legacy.keys, InBucketA), Select(legacy.keys, InBucketB);
    var dict0, dict1 := PatchA(incoming, names0).value, PatchB(incoming, names0, names1).value;
    BucketsDisjoint(names0, names1, legacy.keys);
    assert dict0.values.Keys <= legacy.values.Keys && dict1.values.Keys <= legacy.values.Keys;
    assert dict0.values.Keys !! dict1.values.Keys;
    UpdateCommutes(legacy, dict0, dict1);
  }

  // ---------------------------------------------------------------------
  // The source's loops

  /** Once a prefix of the keys fails to bucket, the whole pass fails the same way. */
  lemma {:induction false} PartitionErrorPersists(keys: seq<string>, n: nat)
    requires n <= |keys| && Partition(keys[..n]).Err?
    ensures Partition(keys) == Partition(keys[..n])
    decreases |keys| - n
  {
    if n < |keys| {
      var init := keys[..|keys| - 1];
      assert init[..n] == keys[..n];
      PartitionErrorPersists(init, n);
    } else {
      assert keys[..n] == keys;
    }
  }

  lemma {:induction false} PatchAErrorPersists<V>(incoming: map<string, V>, names0: seq<string>, n: nat)
    requires n <= |names0| && PatchA(incoming, names0[..n]).Err?
    ensures PatchA(incoming, names0) == PatchA(incoming, names0[..n])
    decreases |names0| - n
  {
    if n < |names0| {
      var init := names0[..|names0| - 1];
      assert init[..n] == names0[..n];
      PatchAErrorPersists(incoming, init, n);
    } else {
      assert names0[..n] == names0;
    }
  }

  lemma {:induction false} PatchBErrorPersists<V>(incoming: map<string, V>, names0: seq<string>, names1: seq<string>, n: nat)
    requires n <= |names1| && PatchB(incoming, names0, names1[..n]).Err?
    ensures PatchB(incoming, names0, names1) == PatchB(incoming, names0, names1[..n])
    decreases |names1| - n
  {
    if n < |names1| {
      var init := names1[..|names1| - 1];
      assert init[..n] == names1[..n];
      PatchBErrorPersists(incoming, names0, init, n);
    } else {
      assert names1[..n] == names1;
    }
  }

  /** Lines 133-141: one pass over the legacy keys, appending to `param0_names` and `param1_names`. */
  method CollectBuckets(keys: seq<string>) returns (r: Result<(seq<string>, seq<string>), MigrationError>)
    ensures r == Partition(keys)
  {
    var param0Names: seq<string> := [];
    var param1Names: seq<string> := [];
    for i := 0 to |keys|
      invariant Partition(keys[..i]) == Ok((param0Names, param1Names))
    {
      var param := keys[i];
      assert keys[..i + 1][..i] == keys[..i];
      match Classify(param)
      case Err(e) =>
        PartitionErrorPersists(keys, i + 1);
        return Err(e);
      case Ok(BucketA) =>
        param0Names := param0Names + [param];
      case Ok(BucketB) =>
        param1Names := param1Names + [param];
      case Ok(Untouched) =>
    }
    assert keys[..|keys|] == keys;
    r := Ok((param0Names, param1Names));
  }

  /** Lines 143-148: the indexed loop filling `new_dict0`. */
  method BuildPatchA<V>(newWeight2: map<string, V>, param0Names: seq<string>) returns (r: Result<StateDict<V>, MigrationError>)
    ensures r == PatchA(newWeight2, param0Names)
  {
    var newDict0 := Empty();
    for idx := 0 to |param0Names|
      invariant PatchA(newWeight2, param0Names[..idx]) == Ok(newDict0)
    {
      assert param0Names[..idx + 1][..idx] == param0Names[..idx];
      var key := param0Names[idx];
      if key !in newWeight2 {
        PatchAErrorPersists(newWeight2, param0Names, idx + 1);
        return Err(MissingNewKey(key));
      }
      newDict0 := Assign(newDict0, key, newWeight2[key]);
    }
    assert param0Names[..|param0Names|] == param0Names;
    r := Ok(newDict0);
  }

  /** Lines 150-152: the indexed loop filling `new_dict1` from the bucket-A names. */
  method BuildPatchB<V>(newWeight2: map<string, V>, param0Names: seq<string>, param1Names: seq<string>)
    returns (r: Result<StateDict<V>, MigrationError>)
    ensures r == PatchB(newWeight2, param0Names, param1Names)
  {
    var newDict1 := Empty();
    for idx := 0 to |param1Names|
      invariant PatchB(newWeight2, param0Names, param1Names[..idx]) == Ok(newDict1)
    {
      assert param1Names[..idx + 1][..idx] == param1Names[..idx];
      if idx >= |param0Names| {
        PatchBErrorPersists(newWeight2, param0Names, param1Names, idx + 1);
        return Err(NoPartner(idx));
      }
      var source := param0Names[idx];
      if source !in newWeight2 {
        PatchBErrorPersists(newWeight2, param0Names, param1Names, idx + 1);
        return Err(MissingNewKey(source));
      }
      newDict1 := Assign(newDict1, param1Names[idx], newWeight2[source]);
    }
    assert param1Names[..|param1Names|] == param1Names;
    r := Ok(newDict1);
  }

  /** Lines 133-155: the migration as the source runs it, `weight4` updated in place at the end. */
  method MigrateLoop<V>(weight4: StateDict<V>, newWeight2: map<string, V>) returns (r: Result<StateDict<V>, MigrationError>)
    ensures r == Migrate(weight4, newWeight2)
  {
    var names := CollectBuckets(weight4.keys);
    if names.Err? {
      return Err(names.error);
    }
    var param0Names, param1Names := names.value.0, names.value.1;
    var newDict0 := BuildPatchA(newWeight2, param0Names);
    if newDict0.Err? {
      return Err(newDict0.error);
    }
    var newDict1 := BuildPatchB(newWeight2, param0Names, param1Names);
    if newDict1.Err? {
      return Err(newDict1.error);
    }
    var merged := weight4;
    merged := Update(merged, newDict0.value);
    merged := Update(merged, newDict1.value);
    r := Ok(merged);
  }
}
