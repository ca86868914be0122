/**
 A vector with repeated elements, stored as runs.  Each item holds the logical position where
 its run starts; a run ends where the next one starts.
 */
module RepeatVecs {
  import opened Options

  // ---------------------------------------------------------------- logical contents

  function Repeat<T>(x: T, n: nat): (r: seq<T>)
    ensures |r| == n && forall i :: 0 <= i < n ==> r[i] == x
  {
    seq(n, _ => x)
  }

  /** Starts increase strictly from 0, and the last run is not empty. */
  predicate WellFormed<T>(items: seq<(nat, T)>, len: nat) {
    if items == [] then len == 0
    else
      var n := |items| - 1;
      items[n].0 < len && WellFormed(items[..n], items[n].0)
  }

  /** The logical sequence. */
  function Expand<T>(items: seq<(nat, T)>, len: nat): (r: seq<T>)
    requires WellFormed(items, len)
    ensures |r| == len
  {
    if items == [] then []
    else
      var n := |items| - 1;
      Expand(items[..n], items[n].0) + Repeat(items[n].1, len - items[n].0)
  }

  /** What is left of the first `k` elements when the positions in `rm` are taken out. */
  function Kept<T>(s: seq<T>, rm: seq<nat>, k: nat): seq<T>
    requires k <= |s|
  {
    if k == 0 then [] else Kept(s, rm, k - 1) + if k - 1 in rm then [] else [s[k - 1]]
  }

  /** How many positions below `p` are in `rm`. */
  function Rank(rm: seq<nat>, p: nat): (r: nat)
    ensures r <= p
  {
    if p == 0 then 0 else Rank(rm, p - 1) + if p - 1 in rm then 1 else 0
  }

  /** So many elements are left, and one that is not taken out is found that much further left. */
  lemma {:induction false} KeptExact<T>(s: seq<T>, rm: seq<nat>, k: nat, p: nat)
    requires p < k <= |s|
    ensures |Kept(s, rm, k)| == k - Rank(rm, k)
    ensures p !in rm ==> p - Rank(rm, p) < |Kept(s, rm, k)| && Kept(s, rm, k)[p - Rank(rm, p)] == s[p]
  {
    if k == p + 1 { KeptLength(s, rm, p); } else { KeptExact(s, rm, k - 1, p); }
  }

  lemma {:induction false} KeptLength<T>(s: seq<T>, rm: seq<nat>, k: nat)
    requires k <= |s|
    ensures |Kept(s, rm, k)| == k - Rank(rm, k)
  {
    if k > 0 { KeptLength(s, rm, k - 1); }
  }

  /** The rank counts the positions in `rm`, however often they are given. */
  lemma {:induction false} RankCounts(rm: seq<nat>, p: nat)
    ensures Rank(rm, p) == |set q | q in rm && q < p|
  {
    if p > 0 {
      RankCounts(rm, p - 1);
      var a, b := set q | q in rm && q < p - 1, set q | q in rm && q < p;
      assert b == if p - 1 in rm then a + {p - 1} else a;
    } else {
      assert (set q | q in rm && q < 0) == {};
    }
  }

  predicate Increasing(xs: seq<nat>) { forall i, j :: 0 <= i < j < |xs| ==> xs[i] < xs[j] }

  /** In an increasing list the positions below `p` are the first ones. */
  lemma {:induction false} RankIsIndex(rm: seq<nat>, p: nat, d: nat)
    requires Increasing(rm) && d <= |rm|
    requires (forall j :: 0 <= j < d ==> rm[j] < p) && (forall j :: d <= j < |rm| ==> rm[j] >= p)
    ensures Rank(rm, p) == d
  {
    if p > 0 {
      if d > 0 && rm[d - 1] == p - 1 { RankIsIndex(rm, p - 1, d - 1); }
      else {
        forall j | 0 <= j < |rm| ensures rm[j] != p - 1 {
          if j < d - 1 { assert rm[j] < rm[d - 1]; }
        }
        RankIsIndex(rm, p - 1, d);
      }
    }
  }

  /** Of a run of one element, as many copies stay as are not removed. */
  lemma {:induction false} KeptRun<T>(s: seq<T>, rm: seq<nat>, a: nat, b: nat, x: T)
    requires a <= b <= |s| && forall i :: a <= i < b ==> s[i] == x
    ensures Rank(rm, a) <= Rank(rm, b) <= Rank(rm, a) + (b - a)
    ensures Kept(s, rm, b) == Kept(s, rm, a) + Repeat(x, (b - a) - (Rank(rm, b) - Rank(rm, a)))
    decreases b - a
  {
    if a < b { KeptRun(s, rm, a, b - 1, x); }
  }

  lemma {:induction false} KeptAll<T>(s: seq<T>, rm: seq<nat>, k: nat)
    requires k <= |s| && forall i :: 0 <= i < |rm| ==> rm[i] >= k
    ensures Kept(s, rm, k) == s[..k]
  {
    if k > 0 { KeptAll(s, rm, k - 1); }
  }

  /** Elements and runs of an expansion. */
  lemma {:induction false} RunAt<T>(items: seq<(nat, T)>, len: nat, i: nat)
    requires WellFormed(items, len) && i < |items|
    ensures var end := if i + 1 < |items| then items[i + 1].0 else len;
            && items[i].0 < end <= len && WellFormed(items[..i], items[i].0)
            && Expand(items, len)[..items[i].0] == Expand(items[..i], items[i].0)
            && forall p :: items[i].0 <= p < end ==> Expand(items, len)[p] == items[i].1
  {
    var n := |items| - 1;
    if i < n {
      RunAt(items[..n], items[n].0, i);
      assert items[..n][..i] == items[..i];
    }
  }

  lemma RunElements<T>(items: seq<(nat, T)>, len: nat, i: nat)
    requires WellFormed(items, len) && i < |items|
    ensures items[i].0 < EndOf(items, len, i + 1) <= len
    ensures forall p :: items[i].0 <= p < EndOf(items, len, i + 1) ==> Expand(items, len)[p] == items[i].1
  {
    RunAt(items, len, i);
  }

  lemma Push<T>(items: seq<(nat, T)>, len: nat, x: T, len': nat)
    requires WellFormed(items, len) && len < len'
    ensures WellFormed(items + [(len, x)], len')
    ensures Expand(items + [(len, x)], len') == Expand(items, len) + Repeat(x, len' - len)
  {
    assert (items + [(len, x)])[..|items|] == items;
  }

  /** `kept` holds what is left of the elements below `pos`, of which `decrease` were removed. */
  ghost predicate KeptBelow<T(!new)>(kept: seq<(nat, T)>, len: nat, s: seq<T>, rm: seq<nat>, pos: nat, decrease: nat) {
    && pos <= |s| && Rank(rm, pos) == decrease && len == pos - decrease
    && WellFormed(kept, len) && Expand(kept, len) == Kept(s, rm, pos)
  }

  /** One run further: its remaining copies, if any, become a run of the result. */
  lemma KeepRun<T(!new)>(kept: seq<(nat, T)>, len: nat, s: seq<T>, rm: seq<nat>, a: nat, b: nat, x: T, decrease: nat)
    requires KeptBelow(kept, len, s, rm, a, decrease) && a < b <= |s| && forall i :: a <= i < b ==> s[i] == x
    ensures var len' := b - Rank(rm, b);
            var kept' := if len' > len then kept + [(len, x)] else kept;
            len' >= len && KeptBelow(kept', len', s, rm, b, Rank(rm, b))
  {
    KeptRun(s, rm, a, b, x);
    var len' := b - Rank(rm, b);
    if len' > len { Push(kept, len, x, len'); }
  }

  // ---------------------------------------------------------------- sorting the indexes

  /** sort_unstable and dedup of one more index. */
  function Insert(xs: seq<nat>, x: nat): (r: seq<nat>)
    requires Increasing(xs)
    ensures Increasing(r) && forall y :: y in r <==> y == x || y in xs
  {
    if xs == [] then [x]
    else if x < xs[0] then [x] + xs
    else if x == xs[0] then xs
    else
      var r := Insert(xs[1..], x);
      assert xs == [xs[0]] + xs[1..];
      assert forall k :: 0 <= k < |r| ==> r[k] in r && xs[0] < r[k];
      [xs[0]] + r
  }

  method SortDedup(xs: seq<nat>) returns (r: seq<nat>)
    ensures Increasing(r) && forall y :: y in r <==> y in xs
  {
    r := [];
    for i := 0 to |xs|
      invariant Increasing(r) && forall y :: y in r <==> y in xs[..i]
    {
      r := Insert(r, xs[i]);
    }
    assert xs[..|xs|] == xs;
  }

  lemma {:induction false} SameKept<T>(s: seq<T>, rm: seq<nat>, rm': seq<nat>, k: nat)
    requires k <= |s| && forall y :: y in rm <==> y in rm'
    ensures Kept(s, rm, k) == Kept(s, rm', k)
  {
    if k > 0 { SameKept(s, rm, rm', k - 1); }
  }

  // ---------------------------------------------------------------- the class

  class RepeatVec<T(!new)> {
    var items: seq<(nat, T)>
    var len: nat

    ghost predicate Valid()
      reads this
    {
      WellFormed(items, len)
    }

    ghost function Contents(): seq<T>
      reads this
      requires Valid()
    {
      Expand(items, len)
    }

    constructor ()
      ensures Valid() && Contents() == []
    {
      items := [];
      len := 0;
    }

    method Extend(x: T, size: nat)
      requires Valid()
      modifies this
      ensures Valid() && Contents() == old(Contents()) + Repeat(x, size)
    {
      if size > 0 {
        Push(items, len, x, len + size);
        items := items + [(len, x)];
        len := len + size;
      }
    }

    /** The run that position `at` lies in. */
    method FindRun(at: nat) returns (i: nat)
      requires Valid() && at < len
      ensures i < |items| && items[i].0 <= at < if i + 1 < |items| then items[i + 1].0 else len
    {
      StartsAtZero(items, len);
      var lo, hi := 0, |items|;
      while hi - lo > 1
        invariant 0 <= lo < hi <= |items| && items[lo].0 <= at < if hi < |items| then items[hi].0 else len
      {
        var mid := (lo + hi) / 2;
        if items[mid].0 <= at { lo := mid; } else { hi := mid; }
      }
      return lo;
    }

    /** get: the element at a logical position, and which copy in its run it is. */
    method Get(at: nat) returns (r: Option<(T, nat)>)
      requires Valid()
      ensures r.None? <==> at >= len
      ensures r.Some? ==> r.value.0 == Contents()[at] && r.value.1 <= at
      ensures r.Some? ==> exists i :: 0 <= i < |items| && items[i] == (at - r.value.1, r.value.0)
    {
      if at >= len { return None; }
      var i := FindRun(at);
      RunAt(items, len, i);
      return Some((items[i].1, at - items[i].0));
    }

    /** remove_all: exactly the given positions disappear; those out of bounds are ignored. */
    method RemoveAll(indexes: seq<nat>)
      requires Valid()
      modifies this
      ensures Valid() && Contents() == Kept(old(Contents()), indexes, old(len))
    {
      var sorted := SortDedup(indexes);
      SameKept(Contents(), sorted, indexes, len);
      RemoveSorted(sorted);
    }

    method RemoveSorted(rm: seq<nat>)
      requires Valid() && Increasing(rm)
      modifies this
      ensures Valid() && Contents() == Kept(old(Contents()), rm, old(len))
    {
      ghost var all := Contents();
      if rm == [] || rm[0] >= len {
        KeptAll(all, rm, len);
        assert all[..len] == all;
        return;
      }
      var first := FindRun(rm[0]);
      items, len := RemoveFrom(items, len, rm, first);
    }
  }

  /** The runs from `first` on, each shortened by the indexes that fall into it. */
  method RemoveFrom<T(!new)>(runs: seq<(nat, T)>, total: nat, rm: seq<nat>, first: nat)
    returns (kept: seq<(nat, T)>, newLen: nat)
    requires WellFormed(runs, total) && Increasing(rm) && rm != [] && first < |runs| && runs[first].0 <= rm[0]
    ensures WellFormed(kept, newLen) && Expand(kept, newLen) == Kept(Expand(runs, total), rm, total)
  {
    ghost var all := Expand(runs, total);
    var decrease, k := 0, first;
    kept, newLen := runs[..first], runs[first].0;
    StartKept(runs, total, rm, first);
    while k < |runs|
      invariant first <= k <= |runs| && KeptBelow(kept, newLen, all, rm, EndOf(runs, total, k), decrease)
    {
      var next := EndOf(runs, total, k + 1);
      RunElements(runs, total, k);
      KeepRun(kept, newLen, all, rm, runs[k].0, next, runs[k].1, decrease);
      decrease := Advance(rm, decrease, runs[k].0, next);
      var nextNew := next - decrease;
      assert nextNew >= newLen;
      if nextNew > newLen { kept := kept + [(newLen, runs[k].1)]; }
      newLen, k := nextNew, k + 1;
    }
  }

  lemma StartKept<T(!new)>(runs: seq<(nat, T)>, total: nat, rm: seq<nat>, first: nat)
    requires WellFormed(runs, total) && Increasing(rm) && rm != [] && first < |runs| && runs[first].0 <= rm[0]
    ensures KeptBelow(runs[..first], runs[first].0, Expand(runs, total), rm, runs[first].0, 0)
  {
    RunAt(runs, total, first);
    KeptAll(Expand(runs, total), rm, runs[first].0);
    RankIsIndex(rm, runs[first].0, 0);
  }

  /** Where the k-th run starts, or the end. */
  function EndOf<T>(items: seq<(nat, T)>, len: nat, k: nat): nat {
    if k < |items| then items[k].0 else len
  }

  lemma {:induction false} StartsAtZero<T>(items: seq<(nat, T)>, len: nat)
    requires WellFormed(items, len)
    ensures items != [] ==> items[0].0 == 0
    ensures len > 0 ==> items != []
  {
    if |items| > 1 { StartsAtZero(items[..|items| - 1], items[|items| - 1].0); }
  }

  /** Move past all indexes below `next`; the counter is both a position and how many were passed. */
  method Advance(rm: seq<nat>, from: nat, cur: nat, next: nat) returns (d: nat)
    requires Increasing(rm) && cur <= next && Rank(rm, cur) == from
    ensures from <= d <= |rm| && Rank(rm, next) == d
  {
    RankSplits(rm, cur);
    d := from;
    while d < |rm| && rm[d] < next
      invariant from <= d <= |rm| && forall j :: 0 <= j < d ==> rm[j] < next
    {
      d := d + 1;
    }
    RankIsIndex(rm, next, d);
  }

  lemma {:induction false} RankSplits(rm: seq<nat>, p: nat)
    requires Increasing(rm)
    ensures Rank(rm, p) <= |rm|
    ensures forall j :: 0 <= j < |rm| ==> (rm[j] < p <==> j < Rank(rm, p))
  {
    var d := 0;
    while d < |rm| && rm[d] < p
      invariant d <= |rm| && forall j :: 0 <= j < d ==> rm[j] < p
    {
      d := d + 1;
    }
    RankIsIndex(rm, p, d);
  }
}
