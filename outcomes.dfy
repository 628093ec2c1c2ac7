/**
 * Optional values, the Python exceptions that can escape an adapter, and the
 * "first failure wins" collection of per-item outcomes that every discovery
 * and resolution loop of the adapters performs.
 */
module Outcomes {

  datatype Option<+T> = None | Some(value: T)

  /** The Python exceptions that the modelled code can let escape. */
  datatype Exc = KeyError | IndexError | ValueError | TypeError | AttributeError

  /** A value, or the exception raised while computing it. */
  datatype Result<+T> = Ok(value: T) | Err(error: Exc)

  /**
   * Collects the kept items of a run of per-item outcomes, in order.
   * `Ok(None)` is an item that was skipped (`continue`), `Ok(Some(x))` an item
   * that was kept, and `Err(e)` an item whose processing raised: the first such
   * item aborts the whole loop, as an uncaught exception does.
   */
  function Keep<T>(rs: seq<Result<Option<T>>>): (r: Result<seq<T>>)
    decreases |rs|
  {
    if rs == [] then Ok([])
    else
      match Keep(rs[..|rs| - 1])
      case Err(e) => Err(e)
      case Ok(kept) =>
        match rs[|rs| - 1]
        case Err(e) => Err(e)
        case Ok(None) => Ok(kept)
        case Ok(Some(x)) => Ok(kept + [x])
  }

  /** The items of `rs` that were kept, read off without regard to failures. */
  function Kept<T>(rs: seq<Result<Option<T>>>): seq<T>
  {
    if rs == [] then []
    else
      var last := rs[|rs| - 1];
      Kept(rs[..|rs| - 1]) + (if last.Ok? && last.value.Some? then [last.value.value] else [])
  }

  predicate NoFailure<T>(rs: seq<Result<Option<T>>>)
  {
    forall i :: 0 <= i < |rs| ==> rs[i].Ok?
  }

  /**
   * `idx` is a strictly increasing list of positions below `n`: the positions
   * a filter kept, in the order it kept them.
   */
  predicate Ascending(idx: seq<int>, n: int)
  {
    && (forall j :: 0 <= j < |idx| ==> 0 <= idx[j] < n)
    && (forall j, k :: 0 <= j < k < |idx| ==> idx[j] < idx[k])
  }

  /** The items of `xs` that `keep` accepts, in order. */
  function Filter<T>(xs: seq<T>, keep: T -> bool): seq<T>
    decreases |xs|
  {
    if xs == [] then []
    else Filter(xs[..|xs| - 1], keep) + (if keep(xs[|xs| - 1]) then [xs[|xs| - 1]] else [])
  }

  /** The positions of the items `keep` accepts, in increasing order. */
  function Positions<T>(xs: seq<T>, keep: T -> bool): seq<int>
    decreases |xs|
  {
    if xs == [] then []
    else Positions(xs[..|xs| - 1], keep) + (if keep(xs[|xs| - 1]) then [|xs| - 1] else [])
  }

  lemma {:induction false} PositionsAscending<T>(xs: seq<T>, keep: T -> bool)
    ensures Ascending(Positions(xs, keep), |xs|)
    decreases |xs|
  {
    if xs != [] {
      PositionsAscending(xs[..|xs| - 1], keep);
    }
  }

  lemma {:induction false} PositionsPick<T>(xs: seq<T>, keep: T -> bool)
    ensures var p, ys := Positions(xs, keep), Filter(xs, keep);
      |p| == |ys| && forall j :: 0 <= j < |p| ==> 0 <= p[j] < |xs| && ys[j] == xs[p[j]]
    decreases |xs|
  {
    if xs != [] {
      var init := xs[..|xs| - 1];
      PositionsPick(init, keep);
      assert forall i :: 0 <= i < |init| ==> xs[i] == init[i];
    }
  }

  lemma {:induction false} PositionsMembers<T>(xs: seq<T>, keep: T -> bool)
    ensures forall i :: 0 <= i < |xs| ==> (keep(xs[i]) <==> i in Positions(xs, keep))
    decreases |xs|
  {
    if xs != [] {
      var init := xs[..|xs| - 1];
      PositionsMembers(init, keep);
      PositionsAscending(init, keep);
      assert forall i :: 0 <= i < |init| ==> xs[i] == init[i];
    }
  }

  lemma FilterPositions<T>(xs: seq<T>, keep: T -> bool)
    ensures var p, ys := Positions(xs, keep), Filter(xs, keep);
      && Ascending(p, |xs|) && |p| == |ys|
      && (forall j :: 0 <= j < |p| ==> ys[j] == xs[p[j]])
      && (forall i :: 0 <= i < |xs| ==> (keep(xs[i]) <==> i in p))
  {
    PositionsAscending(xs, keep);
    PositionsPick(xs, keep);
    PositionsMembers(xs, keep);
  }

  /**
   * The filter keeps exactly the accepted items, each once and in their
   * original order: its result is `xs` read at an increasing list of positions
   * that holds precisely the positions of accepted items.
   */
  lemma FilterMeaning<T>(xs: seq<T>, keep: T -> bool)
    ensures forall u :: u in Filter(xs, keep) ==> u in xs && keep(u)
    ensures forall i :: 0 <= i < |xs| && keep(xs[i]) ==> xs[i] in Filter(xs, keep)
    ensures Filter(xs, keep) == [] <==> forall i :: 0 <= i < |xs| ==> !keep(xs[i])
    ensures exists idx :: (var ys := Filter(xs, keep);
      && Ascending(idx, |xs|) && |idx| == |ys|
      && (forall j :: 0 <= j < |idx| ==> ys[j] == xs[idx[j]])
      && (forall i :: 0 <= i < |xs| ==> (keep(xs[i]) <==> i in idx)))
  {
    FilterSound(xs, keep);
    FilterComplete(xs, keep);
    FilterPositions(xs, keep);
    if Filter(xs, keep) != [] {
      assert Positions(xs, keep)[0] in Positions(xs, keep);
    }
  }

  lemma FilterSound<T>(xs: seq<T>, keep: T -> bool)
    ensures forall u :: u in Filter(xs, keep) ==> u in xs && keep(u)
  {
    var ys, idx := Filter(xs, keep), Positions(xs, keep);
    PositionsPick(xs, keep);
    PositionsMembers(xs, keep);
    forall u | u in ys ensures u in xs && keep(u) {
      var j :| 0 <= j < |ys| && ys[j] == u;
      assert idx[j] in idx;
    }
  }

  lemma FilterComplete<T>(xs: seq<T>, keep: T -> bool)
    ensures forall i :: 0 <= i < |xs| && keep(xs[i]) ==> xs[i] in Filter(xs, keep)
  {
    var ys, idx := Filter(xs, keep), Positions(xs, keep);
    PositionsPick(xs, keep);
    PositionsMembers(xs, keep);
    forall i | 0 <= i < |xs| && keep(xs[i]) ensures xs[i] in ys {
      var j :| 0 <= j < |idx| && idx[j] == i;
      assert ys[j] == xs[i];
    }
  }

  /** A filter that accepts every item keeps the whole sequence. */
  /** Filtering a concatenation filters each part. */
  lemma {:induction false} FilterAppend<T>(a: seq<T>, b: seq<T>, keep: T -> bool)
    ensures Filter(a + b, keep) == Filter(a, keep) + Filter(b, keep)
    decreases |b|
  {
    if b == [] {
      assert a + b == a;
    } else {
      var init := b[..|b| - 1];
      FilterAppend(a, init, keep);
      assert (a + b)[..|a + b| - 1] == a + init;
      assert (a + b)[|a + b| - 1] == b[|b| - 1];
    }
  }

  lemma {:induction false} FilterAll<T>(xs: seq<T>, keep: T -> bool)
    requires forall i :: 0 <= i < |xs| ==> keep(xs[i])
    ensures Filter(xs, keep) == xs
    decreases |xs|
  {
    if xs != [] {
      var init := xs[..|xs| - 1];
      assert forall i :: 0 <= i < |init| ==> init[i] == xs[i];
      FilterAll(init, keep);
    }
  }

  /** The first item kept is the earliest accepted one. */
  lemma FilterFirst<T>(xs: seq<T>, keep: T -> bool)
    requires Filter(xs, keep) != []
    ensures exists i :: (0 <= i < |xs| && keep(xs[i]) && Filter(xs, keep)[0] == xs[i] &&
      forall j :: 0 <= j < i ==> !keep(xs[j]))
  {
    var idx := Positions(xs, keep);
    FilterPositions(xs, keep);
    var i := idx[0];
    assert i in idx;
    forall j | 0 <= j < i ensures !keep(xs[j]) {
      forall k | 0 <= k < |idx| ensures idx[k] != j {
        if k > 0 {
          assert idx[0] < idx[k];
        }
      }
    }
  }

  /** The last item kept is the latest accepted one. */
  lemma FilterLast<T>(xs: seq<T>, keep: T -> bool)
    requires Filter(xs, keep) != []
    ensures exists i :: (0 <= i < |xs| && keep(xs[i]) && Filter(xs, keep)[|Filter(xs, keep)| - 1] == xs[i] &&
      forall j :: i < j < |xs| ==> !keep(xs[j]))
  {
    var idx := Positions(xs, keep);
    FilterPositions(xs, keep);
    var last := |idx| - 1;
    var i := idx[last];
    assert i in idx;
    forall j | i < j < |xs| ensures !keep(xs[j]) {
      forall k | 0 <= k < |idx| ensures idx[k] != j {
        if k < last {
          assert idx[k] < idx[last];
        }
      }
    }
  }

  /**
   * `Keep` fails exactly when some item failed, the error is that of the first
   * failing item, and otherwise the result is the kept items in order.
   */
  lemma {:induction false} KeepMeaning<T>(rs: seq<Result<Option<T>>>)
    ensures Keep(rs).Ok? <==> NoFailure(rs)
    ensures Keep(rs).Ok? ==> Keep(rs).value == Kept(rs)
    ensures Keep(rs).Err? ==>
      exists i :: 0 <= i < |rs| && rs[i] == Err(Keep(rs).error) &&
        forall j :: 0 <= j < i ==> rs[j].Ok?
  {
    KeepOkMeaning(rs);
    KeepErrMeaning(rs);
  }

  lemma {:induction false} KeepOkMeaning<T>(rs: seq<Result<Option<T>>>)
    ensures Keep(rs).Ok? <==> NoFailure(rs)
    ensures Keep(rs).Ok? ==> Keep(rs).value == Kept(rs)
    decreases |rs|
  {
    if rs != [] {
      var init := rs[..|rs| - 1];
      KeepOkMeaning(init);
      assert forall j :: 0 <= j < |init| ==> init[j] == rs[j];
    }
  }

  lemma {:induction false} KeepErrMeaning<T>(rs: seq<Result<Option<T>>>)
    ensures Keep(rs).Err? ==>
      exists i :: 0 <= i < |rs| && rs[i] == Err(Keep(rs).error) &&
        forall j :: 0 <= j < i ==> rs[j].Ok?
    decreases |rs|
  {
    if rs != [] {
      var init := rs[..|rs| - 1];
      if Keep(init).Err? {
        KeepErrMeaning(init);
        var i :| 0 <= i < |init| && init[i] == Err(Keep(init).error) &&
          forall j :: 0 <= j < i ==> init[j].Ok?;
        assert Keep(rs) == Keep(init);
        assert forall j :: 0 <= j <= i ==> rs[j] == init[j];
      } else {
        KeepOkMeaning(init);
        var i := |rs| - 1;
        assert forall j :: 0 <= j < i ==> rs[j] == init[j];
        assert Keep(rs).Err? ==> rs[i] == Err(Keep(rs).error);
      }
    }
  }

  /** One step of a loop over `rs`: the prefix up to and including item i. */
  lemma KeepStep<T>(rs: seq<Result<Option<T>>>, i: nat)
    requires i < |rs|
    ensures Keep(rs[..i + 1]) ==
      match Keep(rs[..i])
      case Err(e) => Err(e)
      case Ok(kept) =>
        match rs[i]
        case Err(e) => Err(e)
        case Ok(None) => Ok(kept)
        case Ok(Some(x)) => Ok(kept + [x])
  {
    assert rs[..i + 1][..i] == rs[..i];
  }

  /** Once a prefix has failed, every longer prefix fails with the same error. */
  lemma {:induction false} KeepErrPersists<T>(rs: seq<Result<Option<T>>>, i: nat, j: nat)
    requires i <= j <= |rs|
    requires Keep(rs[..i]).Err?
    ensures Keep(rs[..j]) == Keep(rs[..i])
    decreases j - i
  {
    if i < j {
      KeepErrPersists(rs, i, j - 1);
      KeepStep(rs, j - 1);
    }
  }

  /** Keep over a concatenation, for nested loops. */
  lemma {:induction false} KeepAppend<T>(a: seq<Result<Option<T>>>, b: seq<Result<Option<T>>>)
    ensures Keep(a + b) ==
      match Keep(a)
      case Err(e) => Err(e)
      case Ok(x) =>
        match Keep(b)
        case Err(e) => Err(e)
        case Ok(y) => Ok(x + y)
    decreases |b|
  {
    if b == [] {
      assert a + b == a;
      if Keep(a).Ok? {
        assert Keep(a).value + [] == Keep(a).value;
      }
    } else {
      var b' := b[..|b| - 1];
      KeepAppend(a, b');
      assert (a + b)[..|a + b| - 1] == a + b';
      var last := b[|b| - 1];
      if Keep(a).Ok? && Keep(b').Ok? && last.Ok? && last.value.Some? {
        assert Keep(a).value + Keep(b').value + [b[|b| - 1].value.value] ==
          Keep(a).value + (Keep(b').value + [b[|b| - 1].value.value]);
      }
    }
  }

  /** Whatever every kept item satisfies, every item of a successful `Keep` satisfies. */
  lemma {:induction false} KeepAll<T>(rs: seq<Result<Option<T>>>, P: T -> bool)
    requires forall i :: 0 <= i < |rs| && rs[i].Ok? && rs[i].value.Some? ==> P(rs[i].value.value)
    ensures Keep(rs).Ok? ==> forall x :: x in Keep(rs).value ==> P(x)
    decreases |rs|
  {
    if rs != [] {
      var init := rs[..|rs| - 1];
      assert forall i :: 0 <= i < |init| ==> init[i] == rs[i];
      KeepAll(init, P);
    }
  }

  /** A successful `Keep` keeps every item that was kept, in order. */
  lemma {:induction false} KeepComplete<T>(rs: seq<Result<Option<T>>>, i: nat)
    requires i < |rs| && Keep(rs).Ok? && rs[i].Ok? && rs[i].value.Some?
    ensures rs[i].value.value in Keep(rs).value
    decreases |rs|
  {
    var init := rs[..|rs| - 1];
    if i < |rs| - 1 {
      assert init[i] == rs[i];
      KeepComplete(init, i);
    }
  }

  /** The first `Some` of `f` at positions `p`, `p + 1`, ..., `end`: a leftmost search. */
  function FirstFrom<T>(f: nat -> Option<T>, p: nat, end: nat): Option<T>
    decreases end + 1 - p
  {
    if p > end then None
    else if f(p).Some? then f(p)
    else FirstFrom(f, p + 1, end)
  }

  /**
   * The search finds something exactly when `f` has a `Some` in range, and then
   * it returns the one at the least such position.
   */
  lemma {:induction false} FirstFromMeaning<T>(f: nat -> Option<T>, p: nat, end: nat)
    ensures FirstFrom(f, p, end).Some? <==> exists q :: p <= q <= end && f(q).Some?
    ensures FirstFrom(f, p, end).Some? ==> exists q :: (p <= q <= end && FirstFrom(f, p, end) == f(q) &&
      forall q' :: p <= q' < q ==> f(q').None?)
    decreases end + 1 - p
  {
    if p <= end && f(p).None? {
      FirstFromMeaning(f, p + 1, end);
      if FirstFrom(f, p, end).Some? {
        var q :| p + 1 <= q <= end && FirstFrom(f, p + 1, end) == f(q) &&
          forall q' :: p + 1 <= q' < q ==> f(q').None?;
        assert forall q' :: p <= q' < q ==> f(q').None?;
      }
      if exists q :: p <= q <= end && f(q).Some? {
        var q :| p <= q <= end && f(q).Some?;
        assert q != p;
      }
    }
  }

  /** The items of the inner sequences in order: the flattening of a nested loop. */
  function Concat<T>(xss: seq<seq<T>>): seq<T>
    decreases |xss|
  {
    if xss == [] then [] else Concat(xss[..|xss| - 1]) + xss[|xss| - 1]
  }

  lemma {:induction false} ConcatAppend<T>(a: seq<seq<T>>, b: seq<seq<T>>)
    ensures Concat(a + b) == Concat(a) + Concat(b)
    decreases |b|
  {
    if b == [] {
      assert a + b == a;
    } else {
      var b', last := b[..|b| - 1], b[|b| - 1];
      var ab := a + b;
      assert ab[..|ab| - 1] == a + b' && ab[|ab| - 1] == last;
      assert Concat(ab) == Concat(a + b') + last;
      ConcatAppend(a, b');
      assert Concat(b) == Concat(b') + last;
    }
  }

  /** The flattening splits at any inner position. */
  lemma ConcatSplitAt<T>(xss: seq<seq<T>>, s: nat, c: nat)
    requires s < |xss| && c <= |xss[s]|
    ensures Concat(xss[..s + 1]) == Concat(xss[..s]) + xss[s]
    ensures Concat(xss) == (Concat(xss[..s]) + xss[s][..c]) + (xss[s][c..] + Concat(xss[s + 1..]))
  {
    assert xss[..s + 1] == xss[..s] + [xss[s]];
    ConcatAppend(xss[..s], [xss[s]]);
    assert Concat([xss[s]]) == xss[s] by {
      assert [xss[s]][..0] == [];
    }
    assert xss == xss[..s + 1] + xss[s + 1..];
    ConcatAppend(xss[..s + 1], xss[s + 1..]);
    Regroup(Concat(xss[..s]), xss[s], c, Concat(xss[s + 1..]));
  }

  /** Cutting the middle part of a + b + c at c0, regrouped. */
  lemma Regroup<T>(a: seq<T>, b: seq<T>, c0: nat, c: seq<T>)
    requires c0 <= |b|
    ensures (a + b) + c == (a + b[..c0]) + (b[c0..] + c)
  {
    assert b == b[..c0] + b[c0..];
  }

  /** Flattening inner sequences of one width `w`. */
  lemma {:induction false} ChunksLength<T>(xss: seq<seq<T>>, w: nat)
    requires forall i :: 0 <= i < |xss| ==> |xss[i]| == w
    ensures |Concat(xss)| == w * |xss|
    decreases |xss|
  {
    if xss != [] {
      var n := |xss|;
      ChunksLength(xss[..n - 1], w);
      assert w * (n - 1) + w == w * n;
    }
  }

  /** The first index in [k, n) that `ok` accepts, trying them upwards. */
  function FirstWhere(n: nat, k: nat, ok: nat -> bool): (r: Option<nat>)
    requires k <= n
    ensures r.Some? ==> k <= r.value < n && ok(r.value)
    ensures r.Some? ==> forall p :: k <= p < r.value ==> !ok(p)
    ensures r.None? ==> forall p :: k <= p < n ==> !ok(p)
    decreases n - k
  {
    if k == n then None
    else if ok(k) then Some(k)
    else FirstWhere(n, k + 1, ok)
  }

  /** The chunk at `i` of equal-width chunks, named. */
  lemma ChunkIs<T>(xss: seq<seq<T>>, w: nat, i: nat, x: seq<T>)
    requires forall j :: 0 <= j < |xss| ==> |xss[j]| == w
    requires i < |xss| && xss[i] == x
    ensures w * i + w <= |Concat(xss)| && Concat(xss)[w * i..w * i + w] == x
  {
    ChunkAt(xss, w, i);
  }

  lemma ChunkAt<T>(xss: seq<seq<T>>, w: nat, i: nat)
    requires forall j :: 0 <= j < |xss| ==> |xss[j]| == w
    requires i < |xss|
    ensures |Concat(xss[..i])| == w * i && w * i + w <= |Concat(xss)|
    ensures Concat(xss)[w * i..w * i + w] == xss[i]
  {
    ChunksLength(xss[..i], w);
    ConcatSplitAt(xss, i, 0);
    var front, rest := Concat(xss[..i]), Concat(xss[i + 1..]);
    assert xss[i][..0] == [] && xss[i][0..] == xss[i];
    assert Concat(xss) == front + xss[i] + rest;
    assert |front| == w * i;
    assert (front + xss[i] + rest)[|front|..|front| + w] == xss[i];
  }

  /** Item r of inner sequence i of a flattening of width `w`. */
  lemma ChunkItem<T>(xss: seq<seq<T>>, w: nat, i: nat, r: nat)
    requires forall j :: 0 <= j < |xss| ==> |xss[j]| == w
    requires i < |xss| && r < w
    ensures w * i + r < |Concat(xss)| && Concat(xss)[w * i + r] == xss[i][r]
  {
    ChunkAt(xss, w, i);
    var all := Concat(xss);
    assert all[w * i..w * i + w][r] == all[w * i + r];
  }

  /** An item of the flattening comes from one of the inner sequences. */
  lemma {:induction false} ConcatMember<T>(xss: seq<seq<T>>, x: T)
    requires x in Concat(xss)
    ensures exists s :: 0 <= s < |xss| && x in xss[s]
    decreases |xss|
  {
    var init := xss[..|xss| - 1];
    if x !in xss[|xss| - 1] {
      ConcatMember(init, x);
      var s :| 0 <= s < |init| && x in init[s];
      assert init[s] == xss[s];
    }
  }

  /**
   * A nested loop that failed part-way through the inner sequence `s` fails
   * the whole flattened run the same way.
   */
  lemma KeepErrNested<T>(xss: seq<seq<Result<Option<T>>>>, s: nat, c: nat)
    requires s < |xss| && c <= |xss[s]|
    requires Keep(Concat(xss[..s]) + xss[s][..c]).Err?
    ensures Keep(Concat(xss)) == Keep(Concat(xss[..s]) + xss[s][..c])
  {
    ConcatSplitAt(xss, s, c);
    KeepAppend(Concat(xss[..s]) + xss[s][..c], xss[s][c..] + Concat(xss[s + 1..]));
  }

  /**
   * One outer step of a nested loop whose inner loop is run as a whole: the
   * prefix grows by the inner sequence's outcome, and a failure there is the
   * failure of the whole run.
   */
  lemma KeepOuterStep<T>(xss: seq<seq<Result<Option<T>>>>, s: nat)
    requires s < |xss|
    ensures Keep(Concat(xss[..s + 1])) ==
      match Keep(Concat(xss[..s]))
      case Err(e) => Err(e)
      case Ok(x) =>
        match Keep(xss[s])
        case Err(e) => Err(e)
        case Ok(y) => Ok(x + y)
    ensures Keep(Concat(xss[..s + 1])).Err? ==> Keep(Concat(xss)) == Keep(Concat(xss[..s + 1]))
  {
    ConcatSplitAt(xss, s, 0);
    KeepAppend(Concat(xss[..s]), xss[s]);
    if Keep(Concat(xss[..s + 1])).Err? {
      assert xss[s][..|xss[s]|] == xss[s];
      KeepErrNested(xss, s, |xss[s]|);
    }
  }

  /** A failed nested run failed at some item of some inner sequence, with that item's error. */
  lemma KeepNestedErr<T>(xss: seq<seq<Result<Option<T>>>>)
    requires Keep(Concat(xss)).Err?
    ensures exists s, c :: 0 <= s < |xss| && 0 <= c < |xss[s]| && xss[s][c] == Err(Keep(Concat(xss)).error)
  {
    var rs := Concat(xss);
    KeepMeaning(rs);
    var i :| 0 <= i < |rs| && rs[i] == Err(Keep(rs).error) && forall j :: 0 <= j < i ==> rs[j].Ok?;
    ConcatMember(xss, rs[i]);
    var s :| 0 <= s < |xss| && rs[i] in xss[s];
    var c :| 0 <= c < |xss[s]| && xss[s][c] == rs[i];
  }

  /**
   * A failed nested run failed in an inner sequence that fails on its own,
   * with that sequence's error, after every earlier one ran through.
   */
  lemma {:induction false} KeepNestedFirst<T>(xss: seq<seq<Result<Option<T>>>>, n: nat)
    requires 0 < n <= |xss| && Keep(Concat(xss[..n])).Err?
    ensures exists s :: (0 <= s < n && Keep(Concat(xss[..s])).Ok? &&
      Keep(xss[s]) == Err(Keep(Concat(xss[..n])).error))
    decreases n
  {
    KeepOuterStep(xss, n - 1);
    if Keep(Concat(xss[..n - 1])).Err? {
      assert n - 1 != 0 by {
        assert xss[..0] == [];
      }
      KeepNestedFirst(xss, n - 1);
    }
  }

  /** Every item of the inner sequences before a successful prefix ends ran through. */
  lemma KeepPrefixGroups<T>(xss: seq<seq<Result<Option<T>>>>, s: nat, h: nat, c: nat)
    requires s <= |xss| && h < s && c < |xss[h]| && Keep(Concat(xss[..s])).Ok?
    ensures xss[h][c].Ok?
  {
    var p := xss[..s];
    assert p[h] == xss[h];
    ConcatSplitAt(p, h, c);
    var pos := |Concat(p[..h])| + c;
    assert Concat(p)[pos] == xss[h][c];
    KeepMeaning(Concat(p));
  }

  /** One failing item of any inner sequence fails the whole nested run. */
  lemma KeepNestedFails<T>(xss: seq<seq<Result<Option<T>>>>, s: nat, c: nat)
    requires s < |xss| && c < |xss[s]| && xss[s][c].Err?
    ensures Keep(Concat(xss)).Err?
  {
    ConcatSplitAt(xss, s, c);
    var rs := Concat(xss);
    var pos := |Concat(xss[..s])| + c;
    assert rs[pos] == xss[s][c];
    KeepMeaning(rs);
  }

  /** A successful nested run keeps every item any inner sequence kept. */
  lemma KeepNestedComplete<T>(xss: seq<seq<Result<Option<T>>>>, s: nat, c: nat)
    requires s < |xss| && c < |xss[s]|
    requires Keep(Concat(xss)).Ok? && xss[s][c].Ok? && xss[s][c].value.Some?
    ensures xss[s][c].value.value in Keep(Concat(xss)).value
  {
    ConcatSplitAt(xss, s, c);
    var pos := |Concat(xss[..s])| + c;
    assert Concat(xss)[pos] == xss[s][c];
    KeepComplete(Concat(xss), pos);
  }
}
