/**
 * Python's insertion-ordered `dict`, as the roxie and tvpass adapters use
 * it: assigning a new key appends it to the iteration order, assigning an
 * existing key replaces its value and keeps its place.
 */
module Dicts {
  import opened Outcomes

  datatype Dict<V> = Dict(order: seq<string>, vals: map<string, V>)

  /** The order lists every key exactly once. */
  ghost predicate Valid<V>(d: Dict<V>)
  {
    && (forall i, j :: 0 <= i < j < |d.order| ==> d.order[i] != d.order[j])
    && (forall k :: k in d.vals <==> k in d.order)
  }

  function Empty<V>(): (d: Dict<V>)
    ensures Valid(d) && d.vals == map[]
  {
    Dict([], map[])
  }

  /** `d[k] = v` */
  function Set<V>(d: Dict<V>, k: string, v: V): (r: Dict<V>)
    requires Valid(d)
    ensures Valid(r)
  {
    if k in d.vals then Dict(d.order, d.vals[k := v]) else Dict(d.order + [k], d.vals[k := v])
  }

  /** Assigning keeps every earlier key in its place and adds the new one last. */
  lemma SetOrder<V>(d: Dict<V>, k: string, v: V)
    requires Valid(d)
    ensures Set(d, k, v).vals == d.vals[k := v]
    ensures Set(d, k, v).order[..|d.order|] == d.order
    ensures k !in d.vals ==> Set(d, k, v).order == d.order + [k]
    ensures k in d.vals ==> |Set(d, k, v).order| == |d.order|
  {
  }

  /** The last value paired with `k`, if any. */
  function LastFor<V>(pairs: seq<(string, V)>, k: string): Option<V>
    decreases |pairs|
  {
    if pairs == [] then None
    else if pairs[|pairs| - 1].0 == k then Some(pairs[|pairs| - 1].1)
    else LastFor(pairs[..|pairs| - 1], k)
  }

  /** Each pair assigned in turn. */
  function SetAll<V>(d: Dict<V>, pairs: seq<(string, V)>): (r: Dict<V>)
    requires Valid(d)
    ensures Valid(r)
    decreases |pairs|
  {
    if pairs == [] then d
    else
      var p := pairs[|pairs| - 1];
      Set(SetAll(d, pairs[..|pairs| - 1]), p.0, p.1)
  }

  /**
   * The keys after assigning `pairs` are the old keys and the assigned ones;
   * each key holds the last value assigned to it, or its old value.
   */
  lemma {:induction false} SetAllMeaning<V>(d: Dict<V>, pairs: seq<(string, V)>)
    requires Valid(d)
    ensures forall k :: k in SetAll(d, pairs).vals <==> k in d.vals || LastFor(pairs, k).Some?
    ensures forall k :: k in SetAll(d, pairs).vals ==>
      SetAll(d, pairs).vals[k] == if LastFor(pairs, k).Some? then LastFor(pairs, k).value else d.vals[k]
    decreases |pairs|
  {
    if pairs != [] {
      SetAllMeaning(d, pairs[..|pairs| - 1]);
    }
  }

  /** A pair's key has a last value. */
  lemma {:induction false} LastForSome<V>(pairs: seq<(string, V)>, i: nat)
    requires i < |pairs|
    ensures LastFor(pairs, pairs[i].0).Some?
    decreases |pairs|
  {
    if i < |pairs| - 1 && pairs[|pairs| - 1].0 != pairs[i].0 {
      LastForSome(pairs[..|pairs| - 1], i);
    }
  }

  /** The last value for a key is one paired with it. */
  lemma {:induction false} LastForIn<V>(pairs: seq<(string, V)>, k: string)
    requires LastFor(pairs, k).Some?
    ensures exists i :: 0 <= i < |pairs| && pairs[i] == (k, LastFor(pairs, k).value)
    decreases |pairs|
  {
    if pairs[|pairs| - 1].0 != k {
      LastForIn(pairs[..|pairs| - 1], k);
      var i :| 0 <= i < |pairs| - 1 && pairs[..|pairs| - 1][i] == (k, LastFor(pairs[..|pairs| - 1], k).value);
      assert pairs[i] == pairs[..|pairs| - 1][i];
    }
  }

  /** `d.items()`, in iteration order. */
  function Items<V>(d: Dict<V>): (r: seq<(string, V)>)
    requires Valid(d)
    ensures |r| == |d.order|
    ensures forall i :: 0 <= i < |r| ==> r[i] == (d.order[i], d.vals[d.order[i]])
  {
    seq(|d.order|, i requires 0 <= i < |d.order| => (d.order[i], d.vals[d.order[i]]))
  }

  /**
   * Copying a dict's items into another (`{k: v for data in ... for k, v in
   * data.items()}`) gives each of its keys its value from the copied dict.
   */
  lemma CopyItems<V>(d: Dict<V>, e: Dict<V>)
    requires Valid(d) && Valid(e)
    ensures var r := SetAll(d, Items(e));
      && (forall k :: k in r.vals <==> k in d.vals || k in e.vals)
      && (forall k :: k in e.vals ==> r.vals[k] == e.vals[k])
      && (forall k :: k in d.vals && k !in e.vals ==> r.vals[k] == d.vals[k])
  {
    var items := Items(e);
    SetAllMeaning(d, items);
    forall k | k in e.vals ensures LastFor(items, k) == Some(e.vals[k]) {
      var i :| 0 <= i < |e.order| && e.order[i] == k;
      LastForSome(items, i);
      LastForIn(items, k);
    }
    forall k | LastFor(items, k).Some? ensures k in e.vals {
      LastForIn(items, k);
    }
  }
}
