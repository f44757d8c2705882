/**
 * A checkpoint ("state dict") is an insertion-ordered dictionary from dotted
 * parameter names to parameter values.  The value type V is left abstract:
 * nothing here looks inside a tensor.
 */
module StateDicts {

  predicate Distinct(s: seq<string>)
  {
    forall i, j :: 0 <= i < j < |s| ==> s[i] != s[j]
  }

  lemma DistinctConcat(a: seq<string>, b: seq<string>)
    requires Distinct(a) && Distinct(b)
    requires forall x :: x in a ==> x !in b
    ensures Distinct(a + b)
  {
    forall i, j | 0 <= i < j < |a + b| ensures (a + b)[i] != (a + b)[j] {
      if j < |a| {
      } else if i < |a| {
        assert (a + b)[i] in a && (a + b)[j] in b;
      } else {
        assert (a + b)[i] == b[i - |a|] && (a + b)[j] == b[j - |a|];
      }
    }
  }

  /** Dropping the last name of a list without repeats leaves a list without repeats that lacks it. */
  lemma DistinctInit(s: seq<string>)
    requires Distinct(s) && |s| > 0
    ensures Distinct(s[..|s| - 1]) && s[|s| - 1] !in s[..|s| - 1]
  {
    var init := s[..|s| - 1];
    forall i, j | 0 <= i < j < |init| ensures init[i] != init[j] {
      assert init[i] == s[i] && init[j] == s[j];
    }
    forall i | 0 <= i < |init| ensures init[i] != s[|s| - 1] {
      assert init[i] == s[i];
    }
  }

  /** A non-empty list is its initial part followed by its last name. */
  lemma InitLast(s: seq<string>)
    requires |s| > 0
    ensures s == s[..|s| - 1] + [s[|s| - 1]]
  {
  }

  /** The names of `s` that satisfy `p`, in their original order. */
  function Select(s: seq<string>, p: string -> bool): (r: seq<string>)
    ensures forall x :: x in r <==> x in s && p(x)
    ensures Distinct(s) ==> Distinct(r)
    ensures (forall x :: x in s ==> !p(x)) ==> r == []
  {
    if |s| == 0 then []
    else
      var init, last := s[..|s| - 1], s[|s| - 1];
      assert s == init + [last];
      Select(init, p) + (if p(last) then [last] else [])
  }

  /**
   * An ordered dictionary: `keys` is the iteration order, `values` the lookup.
   * A Python dict keeps each key once, in the order of first insertion.
   */
  datatype StateDict<V> = StateDict(keys: seq<string>, values: map<string, V>)
  {
    predicate Valid()
    {
      Distinct(keys) && values.Keys == set k | k in keys
    }
  }

  function Empty<V>(): StateDict<V>
  {
    StateDict([], map[])
  }

  /**
   * `d[k] = v`: a key already present keeps its position, a new key goes last.
   */
  function Assign<V>(d: StateDict<V>, k: string, v: V): (r: StateDict<V>)
    ensures d.Valid() ==> r.Valid()
    ensures r.values.Keys == d.values.Keys + {k} && r.values[k] == v
    ensures forall j :: j in d.values && j != k ==> r.values[j] == d.values[j]
    ensures d.Valid() && k in d.values ==> r.keys == d.keys
    ensures d.Valid() && k !in d.values ==> r.keys == d.keys + [k]
  {
    StateDict(if k in d.values then d.keys else d.keys + [k], d.values[k := v])
  }

  /**
   * Assigning the last name of a list without repeats to a dictionary over the
   * names before it gives a dictionary over the whole list, in order.
   */
  lemma AssignLast<V>(d: StateDict<V>, names: seq<string>, v: V)
    requires Distinct(names) && |names| > 0
    requires d.Valid() && d.keys == names[..|names| - 1]
    ensures Assign(d, names[|names| - 1], v).Valid() && Assign(d, names[|names| - 1], v).keys == names
  {
    DistinctInit(names);
    InitLast(names);
  }

  /**
   * `d.update(p)`: every entry of p overwrites or is appended to d, in p's order.
   */
  function Update<V>(d: StateDict<V>, p: StateDict<V>): (r: StateDict<V>)
    ensures d.Valid() && p.Valid() ==> r.Valid()
    ensures r.values.Keys == d.values.Keys + p.values.Keys
    ensures forall k :: k in p.values ==> r.values[k] == p.values[k]
    ensures forall k :: k in d.values && k !in p.values ==> r.values[k] == d.values[k]
    ensures p.Valid() && p.values.Keys <= d.values.Keys ==> r.keys == d.keys
  {
    var added := Select(p.keys, k => k !in d.values);
    assert d.Valid() && p.Valid() ==> Distinct(d.keys + added) by {
      if d.Valid() && p.Valid() {
        DistinctConcat(d.keys, added);
      }
    }
    StateDict(d.keys + added, d.values + p.values)
  }

  /** Overriding a map with two maps over disjoint keys gives the same map in either order. */
  lemma OverrideCommutes<V>(a: map<string, V>, p: map<string, V>, q: map<string, V>)
    requires p.Keys !! q.Keys
    ensures a + p + q == a + q + p
  {
    var l, r := a + p + q, a + q + p;
    forall k | k in l
      ensures k in r && l[k] == r[k]
    {
      if k in p {
        assert k !in q;
      }
    }
  }

  /**
   * Updating with two patches whose keys are disjoint and already present
   * gives the same dictionary in either order.
   */
  lemma UpdateCommutes<V>(d: StateDict<V>, p: StateDict<V>, q: StateDict<V>)
    requires d.Valid() && p.Valid() && q.Valid()
    requires p.values.Keys <= d.values.Keys && q.values.Keys <= d.values.Keys
    requires p.values.Keys !! q.values.Keys
    ensures Update(Update(d, p), q) == Update(Update(d, q), p)
  {
    var dp, dq := Update(d, p), Update(d, q);
    assert dp.Valid() && dp.keys == d.keys && dp.values.Keys == d.values.Keys;
    assert dq.Valid() && dq.keys == d.keys && dq.values.Keys == d.values.Keys;
    OverrideCommutes(d.values, p.values, q.values);
    assert Update(dp, q).values == Update(dq, p).values;
  }

  /**
   * `model.load_state_dict(sd, strict=False)` seen on the model's own
   * parameters: the model keeps its own names in its own order; a name that
   * `sd` also holds takes `sd`'s value; names only in `sd` are ignored.
   */
  function LoadNonStrict<V>(own: StateDict<V>, sd: StateDict<V>): (r: StateDict<V>)
    ensures r.keys == own.keys && r.values.Keys == own.values.Keys
    ensures own.Valid() ==> r.Valid()
    ensures forall k :: k in own.values && k in sd.values ==> r.values[k] == sd.values[k]
    ensures forall k :: k in own.values && k !in sd.values ==> r.values[k] == own.values[k]
  {
    StateDict(own.keys, map k | k in own.values :: if k in sd.values then sd.values[k] else own.values[k])
  }

  /** Loading a model's own state dict back into it changes nothing. */
  lemma LoadOwnState<V>(d: StateDict<V>)
    ensures LoadNonStrict(d, d) == d
  {
    assert LoadNonStrict(d, d).values == d.values;
  }
}
