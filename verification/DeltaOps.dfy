/**
 Aggregator deltas: partial functions on a bounded counter, and merging two of them.  A merge
 should behave like applying one delta after the other.  It does when both carry the same
 limit.  For different limits it can fail where the deltas apply, and apply where one of them
 fails; the exact condition for neither to happen is given.
 */
module DeltaOps {
  import opened Options

  datatype Update = Plus(value: nat) | Minus(value: nat)

  /** A delta with the history of its execution: highest rise, deepest fall, and the limit. */
  datatype DeltaOp = DeltaOp(maxPositive: nat, minNegative: nat, limit: nat, update: Update)

  function Addition(base: nat, value: nat, limit: nat): Option<nat> {
    if limit < base || value > limit - base then None else Some(base + value)
  }

  function Subtraction(base: nat, value: nat): Option<nat> {
    if value > base then None else Some(base - value)
  }

  function UpdateTo(d: DeltaOp, base: nat): Option<nat> {
    match d.update
    case Plus(v) => Addition(base, v, d.limit)
    case Minus(v) => Subtraction(base, v)
  }

  /** apply_to: the history is checked first, then the update is made. */
  function ApplyTo(d: DeltaOp, base: nat): Option<nat> {
    if Addition(base, d.maxPositive, d.limit).None? || Subtraction(base, d.minNegative).None? then None
    else UpdateTo(d, base)
  }

  function OrZero(x: Option<nat>): nat { if x.Some? then x.value else 0 }

  function Max(a: nat, b: nat): nat { if a < b then b else a }

  function ShiftedMaxPositive(d: DeltaOp, prev: DeltaOp): Option<nat> {
    match prev.update
    case Plus(v) => Addition(v, d.maxPositive, d.limit)
    case Minus(v) => Some(OrZero(Subtraction(d.maxPositive, v)))
  }

  function ShiftedMinNegative(d: DeltaOp, prev: DeltaOp): Option<nat> {
    match prev.update
    case Plus(v) => Some(OrZero(Subtraction(d.minNegative, v)))
    case Minus(v) => Addition(v, d.minNegative, d.limit)
  }

  /** +a-b, with whatever sign comes out. */
  function Difference(a: nat, b: nat): Update {
    if a >= b then Plus(a - b) else Minus(b - a)
  }

  function MergedUpdate(d: DeltaOp, prev: DeltaOp): Option<Update> {
    match (prev.update, d.update)
    case (Plus(p), Plus(v)) => var s := Addition(p, v, d.limit); if s.None? then None else Some(Plus(s.value))
    case (Plus(p), Minus(v)) => Some(Difference(p, v))
    case (Minus(p), Plus(v)) => Some(Difference(v, p))
    case (Minus(p), Minus(v)) => var s := Addition(p, v, d.limit); if s.None? then None else Some(Minus(s.value))
  }

  /** merge_onto: `d` on top of `prev`, keeping the limit of `d`. */
  function MergeOnto(d: DeltaOp, prev: DeltaOp): Option<DeltaOp> {
    var up, down, u := ShiftedMaxPositive(d, prev), ShiftedMinNegative(d, prev), MergedUpdate(d, prev);
    if up.None? || down.None? || u.None? then None
    else Some(DeltaOp(Max(prev.maxPositive, up.value), Max(prev.minNegative, down.value), d.limit, u.value))
  }

  // ---------------------------------------------------------------- what a delta means

  /** First `prev`, then `d`. */
  function InOrder(d: DeltaOp, prev: DeltaOp, base: nat): Option<nat> {
    var x := ApplyTo(prev, base);
    if x.None? then None else ApplyTo(d, x.value)
  }

  function Merged(d: DeltaOp, prev: DeltaOp, base: nat): Option<nat> {
    var m := MergeOnto(d, prev);
    if m.None? then None else ApplyTo(m.value, base)
  }

  function Shift(d: DeltaOp): int { if d.update.Plus? then d.update.value else 0 - d.update.value }

  function Top(d: DeltaOp): nat { if d.update.Plus? then Max(d.maxPositive, d.update.value) else d.maxPositive }

  function Bottom(d: DeltaOp): nat { if d.update.Minus? then Max(d.minNegative, d.update.value) else d.minNegative }

  /** A delta is a shift by a constant on an interval. */
  lemma ApplyMeans(d: DeltaOp, base: nat)
    ensures ApplyTo(d, base).Some? <==> Bottom(d) <= base && base + Top(d) <= d.limit
    ensures ApplyTo(d, base).Some? ==> ApplyTo(d, base).value == base + Shift(d)
  {}

  /** The merged delta shifts by both and remembers the rise and fall of both. */
  lemma MergeMeans(d: DeltaOp, prev: DeltaOp)
    ensures var m := MergeOnto(d, prev);
            m.Some? ==>
              && Shift(m.value) == Shift(prev) + Shift(d) && m.value.limit == d.limit
              && prev.maxPositive <= Top(m.value) && Shift(prev) + d.maxPositive <= Top(m.value)
              && prev.minNegative <= Bottom(m.value) && d.minNegative - Shift(prev) <= Bottom(m.value)
              && (Top(m.value) == 0 || Top(m.value) == prev.maxPositive || Top(m.value) == Shift(prev) + Top(d))
              && (Bottom(m.value) == 0 || Bottom(m.value) == prev.minNegative
                  || Bottom(m.value) == Bottom(d) - Shift(prev))
  {}

  /** A merge fails exactly if, counted from where the first delta leads, the second leaves the limit kept. */
  lemma MergeFailsIff(d: DeltaOp, prev: DeltaOp)
    ensures MergeOnto(d, prev).None? <==>
              prev.update.value + (if prev.update.Plus? then Top(d) else Bottom(d)) > d.limit
  {}

  /** The highest value from which both deltas in order could still stay below their limits. */
  function Highest(d: DeltaOp, prev: DeltaOp): int {
    var a, b := prev.limit - Top(prev), d.limit - Top(d) - Shift(prev);
    if a < b then a else b
  }

  function Lowest(d: DeltaOp, prev: DeltaOp): int {
    var a, b := Bottom(prev), Bottom(d) - Shift(prev);
    if a < b then b else a
  }

  lemma InOrderMeans(d: DeltaOp, prev: DeltaOp, base: nat)
    ensures InOrder(d, prev, base).Some? <==> Lowest(d, prev) <= base <= Highest(d, prev)
    ensures InOrder(d, prev, base).Some? ==> InOrder(d, prev, base).value == base + Shift(prev) + Shift(d)
  {
    ApplyMeans(prev, base);
    if ApplyTo(prev, base).Some? { ApplyMeans(d, base + Shift(prev)); }
  }

  /** The highest value that a merge accepts: it puts the limit of `d` in place of that of `prev`. */
  function MergedHighest(d: DeltaOp, prev: DeltaOp): int {
    var a, b := d.limit - Top(prev), d.limit - Top(d) - Shift(prev);
    if a < b then a else b
  }

  lemma MergedMeans(d: DeltaOp, prev: DeltaOp, base: nat)
    ensures Merged(d, prev, base).Some? <==> Lowest(d, prev) <= base <= MergedHighest(d, prev)
    ensures Merged(d, prev, base).Some? ==> Merged(d, prev, base).value == base + Shift(prev) + Shift(d)
  {
    MergeMeans(d, prev);
    if MergeOnto(d, prev).Some? { ApplyMeans(MergeOnto(d, prev).value, base); }
  }

  /** What a merge accepts, the two deltas in order accept exactly if the first one stays below its own limit. */
  lemma MergeSound(d: DeltaOp, prev: DeltaOp, base: nat)
    requires Merged(d, prev, base).Some?
    ensures InOrder(d, prev, base) == if base + Top(prev) <= prev.limit then Merged(d, prev, base) else None
  {
    MergedMeans(d, prev, base);
    InOrderMeans(d, prev, base);
  }

  /** What the two deltas in order accept, the merge accepts exactly if the first rise stays below the limit kept. */
  lemma MergeCompletes(d: DeltaOp, prev: DeltaOp, base: nat)
    requires InOrder(d, prev, base).Some?
    ensures Merged(d, prev, base) == if base + prev.maxPositive <= d.limit then InOrder(d, prev, base) else None
  {
    MergedMeans(d, prev, base);
    InOrderMeans(d, prev, base);
  }

  /** Merging is composition, as partial functions. */
  ghost predicate Composes(d: DeltaOp, prev: DeltaOp) {
    forall base: nat :: Merged(d, prev, base) == InOrder(d, prev, base)
  }

  /** Deltas of one aggregator, whose limit is fixed. */
  lemma MergeIsComposition(d: DeltaOp, prev: DeltaOp, base: nat)
    requires d.limit == prev.limit
    ensures Merged(d, prev, base) == InOrder(d, prev, base)
  {
    MergedMeans(d, prev, base);
    InOrderMeans(d, prev, base);
  }

  /** For any limits: the highest values accepted coincide, or neither way accepts any value. */
  lemma ComposesIff(d: DeltaOp, prev: DeltaOp)
    ensures Composes(d, prev) <==>
              || Highest(d, prev) == MergedHighest(d, prev)
              || (Highest(d, prev) < Lowest(d, prev) && MergedHighest(d, prev) < Lowest(d, prev))
  {
    var l, h, m := Lowest(d, prev), Highest(d, prev), MergedHighest(d, prev);
    forall base: nat
      ensures Merged(d, prev, base) == InOrder(d, prev, base) <==> (l <= base <= m <==> l <= base <= h)
    {
      MergedMeans(d, prev, base);
      InOrderMeans(d, prev, base);
    }
    if h != m && (l <= h || l <= m) {
      var top: nat := if h < m then m else h;
      assert Merged(d, prev, top) != InOrder(d, prev, top);
    }
  }

  /** Two deltas that succeed in order and whose merge does not apply. */
  lemma MergeLosesAcrossLimits()
    ensures var prev, d := DeltaOp(0, 50, 1000, Minus(50)), DeltaOp(0, 10, 55, Minus(10));
            InOrder(d, prev, 100) == Some(40) && Merged(d, prev, 100) == None && !Composes(d, prev)
  {
    var prev, d := DeltaOp(0, 50, 1000, Minus(50)), DeltaOp(0, 10, 55, Minus(10));
    assert InOrder(d, prev, 100) == Some(40) && Merged(d, prev, 100) == None;
  }

  /** Two deltas of which the first fails and whose merge applies. */
  lemma MergeAddsAcrossLimits()
    ensures var prev, d := DeltaOp(10, 0, 20, Plus(10)), DeltaOp(0, 0, 1000, Plus(0));
            InOrder(d, prev, 15) == None && Merged(d, prev, 15) == Some(25) && !Composes(d, prev)
  {
    var prev, d := DeltaOp(10, 0, 20, Plus(10)), DeltaOp(0, 0, 1000, Plus(0));
    assert InOrder(d, prev, 15) == None && Merged(d, prev, 15) == Some(25);
  }

  function Positive(x: int): nat { if x < 0 then 0 else x }

  /** The parts of a merged delta. */
  lemma MergeParts(d: DeltaOp, prev: DeltaOp)
    requires MergeOnto(d, prev).Some?
    ensures var m := MergeOnto(d, prev).value;
            && m.maxPositive == Max(prev.maxPositive, Positive(d.maxPositive + Shift(prev)))
            && m.minNegative == Max(prev.minNegative, Positive(d.minNegative - Shift(prev)))
            && m.limit == d.limit && Shift(m) == Shift(prev) + Shift(d)
            && (m.update.Minus? <==> Shift(m) < 0 || (prev.update.Minus? && d.update.Minus?))
  {}

  lemma ShiftTwice(x: nat, p: nat, s: int, s': int, a: nat)
    ensures Max(Max(a, Positive(p + s)), Positive(x + s + s')) == Max(a, Positive(Max(p, Positive(x + s')) + s))
  {}

  /** Two groupings of three deltas that both succeed are equal. */
  lemma MergeAssociates(a: DeltaOp, b: DeltaOp, c: DeltaOp)
    requires MergeOnto(b, a).Some? && MergeOnto(c, MergeOnto(b, a).value).Some?
    requires MergeOnto(c, b).Some? && MergeOnto(MergeOnto(c, b).value, a).Some?
    ensures MergeOnto(c, MergeOnto(b, a).value) == MergeOnto(MergeOnto(c, b).value, a)
  {
    var ba, cb := MergeOnto(b, a).value, MergeOnto(c, b).value;
    MergeParts(b, a);
    MergeParts(c, ba);
    MergeParts(c, b);
    MergeParts(cb, a);
    ShiftTwice(c.maxPositive, b.maxPositive, Shift(a), Shift(b), a.maxPositive);
    ShiftTwice(c.minNegative, b.minNegative, -Shift(a), -Shift(b), a.minNegative);
    SameUpdate(MergeOnto(c, ba).value, MergeOnto(cb, a).value);
  }

  lemma SameUpdate(d: DeltaOp, e: DeltaOp)
    requires Shift(d) == Shift(e) && (d.update.Minus? <==> e.update.Minus?)
    ensures d.update == e.update
  {}
}
