/** Inclusive ranges of ballot numbers, with 0,0 for the null range (consensus/range.go). */
module Ranges {

  datatype Range = Range(min: nat, max: nat) {
    /** Either the null range or a proper range of positive numbers. */
    ghost predicate Valid() {
      (min == 0 && max == 0) || 1 <= min <= max
    }

    predicate Null() {
      min == 0 && max == 0
    }

    ghost predicate Has(n: nat) {
      1 <= n && min <= n <= max
    }
  }

  const NullRange := Range(0, 0)

  function RangeUnion(r1: Range, r2: Range): Range {
    if r1.min == 0 || r1.max == 0 then r2
    else if r2.min == 0 || r2.max == 0 then r1
    else Range(if r1.min < r2.min then r1.min else r2.min,
               if r1.max > r2.max then r1.max else r2.max)
  }

  /** `r` covers `a`. */
  ghost predicate Covers(r: Range, a: Range) {
    a.Null() || (1 <= r.min <= a.min && a.max <= r.max)
  }

  /** The union of two valid ranges is the least range covering both. */
  lemma UnionIsLeastCover(r1: Range, r2: Range, r: Range)
    requires r1.Valid() && r2.Valid() && r.Valid()
    ensures RangeUnion(r1, r2).Valid()
    ensures Covers(RangeUnion(r1, r2), r1) && Covers(RangeUnion(r1, r2), r2)
    ensures Covers(r, r1) && Covers(r, r2) ==> Covers(r, RangeUnion(r1, r2))
  {
  }

  /** What `MakeRange` computes: the least range that holds every positive number listed. */
  ghost predicate Tight(numbers: seq<nat>, r: Range) {
    && r.Valid()
    && (forall n :: n in numbers && n > 0 ==> r.Has(n))
    && (!r.Null() ==> r.min in numbers && r.max in numbers)
  }

  method MakeRange(numbers: seq<nat>) returns (r: Range)
    ensures Tight(numbers, r)
  {
    r := NullRange;
    for i := 0 to |numbers|
      invariant Tight(numbers[..i], r)
    {
      r := RangeUnion(r, Range(numbers[i], numbers[i]));
      assert numbers[..i + 1] == numbers[..i] + [numbers[i]];
    }
    assert numbers[..|numbers|] == numbers;
  }

  /** The value-level form of `MakeRange`. */
  function Hull(numbers: seq<nat>): (r: Range)
    ensures Tight(numbers, r)
  {
    if numbers == [] then NullRange
    else
      var front, last := numbers[..|numbers| - 1], numbers[|numbers| - 1];
      assert numbers == front + [last];
      RangeUnion(Hull(front), Range(last, last))
  }

  /** The largest number of a nonempty list. */
  function MaxOf(numbers: seq<nat>): (r: nat)
    requires numbers != []
    ensures r in numbers
    ensures forall n :: n in numbers ==> n <= r
  {
    if |numbers| == 1 then numbers[0]
    else
      var rest := MaxOf(numbers[1..]);
      assert numbers == [numbers[0]] + numbers[1..];
      if numbers[0] > rest then numbers[0] else rest
  }
}
