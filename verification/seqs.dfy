/** Sequence combinators for the list-building loops of the scraper:
    order-preserving filtering, filter-mapping, bounded prefixes and
    concatenation of pages, with the facts that relate them. */
module Seqs {
  import opened Options

  /** The elements of `xs` satisfying `p`, in order. */
  function Filter<T>(p: T -> bool, xs: seq<T>): (r: seq<T>)
    ensures |r| <= |xs|
    ensures forall i :: 0 <= i < |r| ==> p(r[i])
    decreases |xs|
  {
    if xs == [] then [] else (if p(xs[0]) then [xs[0]] else []) + Filter(p, xs[1..])
  }

  lemma {:induction false} FilterAppend<T>(p: T -> bool, xs: seq<T>, ys: seq<T>)
    ensures Filter(p, xs + ys) == Filter(p, xs) + Filter(p, ys)
    decreases |xs|
  {
    if xs != [] {
      var head := if p(xs[0]) then [xs[0]] else [];
      assert (xs + ys)[0] == xs[0];
      assert (xs + ys)[1..] == xs[1..] + ys;
      assert Filter(p, xs + ys) == head + Filter(p, xs[1..] + ys);
      FilterAppend(p, xs[1..], ys);
      assert head + (Filter(p, xs[1..]) + Filter(p, ys)) == (head + Filter(p, xs[1..])) + Filter(p, ys);
    } else {
      assert xs + ys == ys;
    }
  }

  /** The images under `f` of the elements of `xs` that `f` maps to a value,
      in order; the elements mapped to `None` are dropped. */
  function FilterMap<A, B>(f: A -> Option<B>, xs: seq<A>): (r: seq<B>)
    ensures |r| <= |xs|
    decreases |xs|
  {
    if xs == [] then []
    else (match f(xs[0]) case Some(y) => [y] case None => []) + FilterMap(f, xs[1..])
  }

  lemma {:induction false} FilterMapAppend<A, B>(f: A -> Option<B>, xs: seq<A>, ys: seq<A>)
    ensures FilterMap(f, xs + ys) == FilterMap(f, xs) + FilterMap(f, ys)
    decreases |xs|
  {
    if xs != [] {
      assert (xs + ys)[0] == xs[0];
      assert (xs + ys)[1..] == xs[1..] + ys;
      FilterMapAppend(f, xs[1..], ys);
    } else {
      assert xs + ys == ys;
    }
  }

  /** `ys` is obtained from `xs` by keeping, in increasing position order,
      exactly the positions `idx` where `f` yields a value. */
  ghost predicate FilterMapWitness<A, B>(f: A -> Option<B>, xs: seq<A>, ys: seq<B>, idx: seq<nat>)
  {
    && |idx| == |ys|
    && (forall j :: 0 <= j < |idx| ==> idx[j] < |xs| && f(xs[idx[j]]) == Some(ys[j]))
    && (forall j, k :: 0 <= j < k < |idx| ==> idx[j] < idx[k])
    && (forall i :: 0 <= i < |xs| && f(xs[i]).Some? ==> i in idx)
  }

  lemma {:induction false} FilterMapIndices<A, B>(f: A -> Option<B>, xs: seq<A>) returns (idx: seq<nat>)
    ensures FilterMapWitness(f, xs, FilterMap(f, xs), idx)
    decreases |xs|
  {
    if xs == [] {
      idx := [];
    } else {
      var tail := FilterMap(f, xs[1..]);
      var rest := FilterMapIndices(f, xs[1..]);
      var shifted := ShiftIndices(f, xs, tail, rest);
      if f(xs[0]).None? {
        assert FilterMap(f, xs) == tail;
        idx := shifted;
      } else {
        idx := ConsIndex(f, xs, tail, shifted);
      }
    }
  }

  /** Puts position 0 in front of a shifted witness when `f` keeps `xs[0]`. */
  lemma ConsIndex<A, B>(f: A -> Option<B>, xs: seq<A>, tail: seq<B>, shifted: seq<nat>) returns (idx: seq<nat>)
    requires xs != [] && f(xs[0]).Some?
    requires tail == FilterMap(f, xs[1..])
    requires |shifted| == |tail|
    requires forall j :: 0 <= j < |shifted| ==> 1 <= shifted[j] < |xs| && f(xs[shifted[j]]) == Some(tail[j])
    requires forall j, k :: 0 <= j < k < |shifted| ==> shifted[j] < shifted[k]
    requires forall i :: 1 <= i < |xs| && f(xs[i]).Some? ==> i in shifted
    ensures FilterMapWitness(f, xs, FilterMap(f, xs), idx)
  {
    var ys := [f(xs[0]).value] + tail;
    assert FilterMap(f, xs) == ys;
    idx := [0] + shifted;
    forall j | 0 <= j < |idx|
      ensures idx[j] < |xs| && f(xs[idx[j]]) == Some(ys[j])
    {
      if j > 0 {
        assert idx[j] == shifted[j - 1] && ys[j] == tail[j - 1];
      }
    }
    forall j, k | 0 <= j < k < |idx|
      ensures idx[j] < idx[k]
    {
      if j > 0 {
        assert idx[j] == shifted[j - 1] && idx[k] == shifted[k - 1];
      } else {
        assert idx[k] == shifted[k - 1];
      }
    }
    forall i | 0 <= i < |xs| && f(xs[i]).Some?
      ensures i in idx
    {
      if i > 0 {
        assert i in shifted;
      }
    }
  }

  /** Every index one higher. */
  function Shift(rest: seq<nat>): (r: seq<nat>)
    ensures |r| == |rest|
    ensures forall j :: 0 <= j < |rest| ==> r[j] == rest[j] + 1
  {
    seq(|rest|, j requires 0 <= j < |rest| => rest[j] + 1)
  }

  /** Moves a witness for `xs[1..]` to positions of `xs`. */
  lemma ShiftIndices<A, B>(f: A -> Option<B>, xs: seq<A>, tail: seq<B>, rest: seq<nat>) returns (shifted: seq<nat>)
    requires xs != []
    requires FilterMapWitness(f, xs[1..], tail, rest)
    ensures |shifted| == |tail|
    ensures forall j :: 0 <= j < |shifted| ==> 1 <= shifted[j] < |xs| && f(xs[shifted[j]]) == Some(tail[j])
    ensures forall j, k :: 0 <= j < k < |shifted| ==> shifted[j] < shifted[k]
    ensures forall i :: 1 <= i < |xs| && f(xs[i]).Some? ==> i in shifted
  {
    shifted := Shift(rest);
    forall j | 0 <= j < |shifted|
      ensures 1 <= shifted[j] < |xs| && f(xs[shifted[j]]) == Some(tail[j])
    {
      assert xs[shifted[j]] == xs[1..][rest[j]];
    }
    ShiftCovers(f, xs, rest);
  }

  lemma ShiftCovers<A, B>(f: A -> Option<B>, xs: seq<A>, rest: seq<nat>)
    requires xs != []
    requires forall i :: 0 <= i < |xs[1..]| && f(xs[1..][i]).Some? ==> i in rest
    ensures forall i :: 1 <= i < |xs| && f(xs[i]).Some? ==> i in Shift(rest)
  {
    var shifted := Shift(rest);
    forall i | 1 <= i < |xs| && f(xs[i]).Some?
      ensures i in shifted
    {
      assert xs[1..][i - 1] == xs[i];
      var j :| 0 <= j < |rest| && rest[j] == i - 1;
      assert shifted[j] == i;
    }
  }

  /** The number of elements that `FilterMap` drops. */
  lemma {:induction false} FilterMapLength<A, B>(f: A -> Option<B>, dropped: A -> bool, xs: seq<A>)
    requires forall x :: dropped(x) <==> f(x).None?
    ensures |FilterMap(f, xs)| + |Filter(dropped, xs)| == |xs|
    decreases |xs|
  {
    if xs != [] {
      FilterMapLength(f, dropped, xs[1..]);
    }
  }

  /** The number of elements a bound of `n` allows: negative bounds allow none. */
  function Room(n: int): nat
  {
    if n < 0 then 0 else n
  }

  /** The first `n` elements of `xs` (all of them when `n >= |xs|`, none when `n <= 0`). */
  function Take<T>(xs: seq<T>, n: int): (r: seq<T>)
    ensures |r| == if Room(n) < |xs| then Room(n) else |xs|
    ensures |r| <= |xs| && r == xs[..|r|]
  {
    if n <= 0 then [] else if n >= |xs| then xs else xs[..n]
  }

  /** Python's slice `xs[:k]`, where a negative `k` counts from the end. */
  function SlicePrefix<T>(xs: seq<T>, k: int): (r: seq<T>)
    ensures |r| <= |xs| && r == xs[..|r|]
    ensures 0 <= k ==> r == Take(xs, k)
    ensures k < 0 ==> |r| == Room(|xs| + k)
  {
    if k >= 0 then Take(xs, k) else Take(xs, |xs| + k)
  }

  /** Once `xs` alone fills the bound, appending changes nothing. */
  lemma TakeAppendFull<T>(xs: seq<T>, ys: seq<T>, n: int)
    requires |xs| >= n
    ensures Take(xs + ys, n) == Take(xs, n)
  {
  }

  /** While `xs` is under the bound, the next element is kept. */
  lemma TakeAppendOne<T>(xs: seq<T>, y: T, n: int)
    requires |xs| < n
    ensures Take(xs + [y], n) == Take(xs, n) + [y]
  {
  }

  /** The concatenation of a sequence of pages. */
  function Flatten<T>(xss: seq<seq<T>>): (r: seq<T>)
    decreases |xss|
  {
    if xss == [] then [] else xss[0] + Flatten(xss[1..])
  }

  /** `xs` can be obtained from `ys` by deleting elements (greedy matching). */
  predicate IsSubsequence<T(==)>(xs: seq<T>, ys: seq<T>)
    decreases |ys|
  {
    if xs == [] then true
    else if ys == [] then false
    else if xs[0] == ys[0] then IsSubsequence(xs[1..], ys[1..])
    else IsSubsequence(xs, ys[1..])
  }

  /** A bounded prefix of a filtered sequence keeps the original order. */
  lemma {:induction false} TakeFilterIsSubsequence<T>(p: T -> bool, ys: seq<T>, n: int)
    ensures IsSubsequence(Take(Filter(p, ys), n), ys)
    decreases |ys|
  {
    var t := Take(Filter(p, ys), n);
    if t != [] {
      var rest := Filter(p, ys[1..]);
      if p(ys[0]) {
        assert Filter(p, ys) == [ys[0]] + rest;
        assert t[0] == ys[0];
        assert t[1..] == Take(rest, n - 1);
        TakeFilterIsSubsequence(p, ys[1..], n - 1);
      } else {
        assert Filter(p, ys) == rest;
        assert p(t[0]);
        assert t[0] != ys[0];
        TakeFilterIsSubsequence(p, ys[1..], n);
      }
    }
  }

  /** `[f(x) for x in xs]`. */
  function MapSeq<A, B>(f: A -> B, xs: seq<A>): (r: seq<B>)
    ensures |r| == |xs|
    ensures forall i :: 0 <= i < |xs| ==> r[i] == f(xs[i])
  {
    seq(|xs|, i requires 0 <= i < |xs| => f(xs[i]))
  }

  /** Dropping the first element of a subsequence leaves a subsequence. */
  lemma {:induction false} SubsequenceDropFirst<T>(xs: seq<T>, ys: seq<T>)
    requires xs != [] && IsSubsequence(xs, ys)
    ensures IsSubsequence(xs[1..], ys)
    decreases |ys|, 1
  {
    if xs[0] != ys[0] {
      SubsequenceDropFirst(xs, ys[1..]);
    }
    SubsequenceSkip(xs[1..], ys);
  }

  /** A subsequence of the tail is a subsequence of the whole. */
  lemma {:induction false} SubsequenceSkip<T>(xs: seq<T>, ys: seq<T>)
    requires ys != [] && IsSubsequence(xs, ys[1..])
    ensures IsSubsequence(xs, ys)
    decreases |ys|, 0
  {
    if xs != [] && xs[0] == ys[0] {
      SubsequenceDropFirst(xs, ys[1..]);
    }
  }

  /** Mapping both sides keeps the subsequence relation. */
  lemma {:induction false} MapSubsequence<A, B>(f: A -> B, xs: seq<A>, ys: seq<A>)
    requires IsSubsequence(xs, ys)
    ensures IsSubsequence(MapSeq(f, xs), MapSeq(f, ys))
    decreases |ys|
  {
    var mx, my := MapSeq(f, xs), MapSeq(f, ys);
    if xs != [] {
      assert my[1..] == MapSeq(f, ys[1..]);
      assert mx[1..] == MapSeq(f, xs[1..]);
      if xs[0] == ys[0] {
        MapSubsequence(f, xs[1..], ys[1..]);
      } else if mx[0] == my[0] {
        SubsequenceDropFirst(xs, ys[1..]);
        MapSubsequence(f, xs[1..], ys[1..]);
      } else {
        MapSubsequence(f, xs, ys[1..]);
      }
    }
  }
}
