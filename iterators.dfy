/**
 * `CowString::Iterator`: a raw `char*` into the string's current buffer,
 * modelled as an offset from the buffer's first byte. Pointer comparison and
 * pointer difference become comparison and difference of offsets; an offset is
 * only meaningful for the buffer that was current when it was taken.
 */
module Iterators {

  datatype Iterator = Iterator(offset: int) {

    /** `++it` */
    function Next(): (r: Iterator)
      ensures r.Diff(this) == 1
    {
      Iterator(offset + 1)
    }

    /** `--it` */
    function Prev(): (r: Iterator)
      ensures this.Diff(r) == 1
    {
      Iterator(offset - 1)
    }

    /** `it++`: the iterator before the step, and the iterator after it. */
    function PostIncrement(): (r: (Iterator, Iterator))
      ensures r.0 == this && r.1 == Next()
    {
      (this, Iterator(offset + 1))
    }

    /** `it--`: the iterator before the step, and the iterator after it. */
    function PostDecrement(): (r: (Iterator, Iterator))
      ensures r.0 == this && r.1 == Prev()
    {
      (this, Iterator(offset - 1))
    }

    /** `it + n`, and the value `it += n` leaves in `it`. */
    function Plus(n: int): (r: Iterator)
      ensures r.Diff(this) == n
    {
      Iterator(offset + n)
    }

    /** `it - n`, and the value `it -= n` leaves in `it`. */
    function Minus(n: int): (r: Iterator)
      ensures this.Diff(r) == n
    {
      Iterator(offset - n)
    }

    /** `it - other`: the distance between two positions of one buffer. */
    function Diff(other: Iterator): (r: int)
      ensures Iterator(other.offset + r) == this
      ensures r == 0 <==> this == other
    {
      offset - other.offset
    }

    /** `it < other` */
    function Less(other: Iterator): (r: bool)
      ensures r <==> Diff(other) < 0
    {
      offset < other.offset
    }

    /** `it > other` */
    function Greater(other: Iterator): (r: bool)
      ensures r <==> Diff(other) > 0
    {
      other.offset < offset
    }

    /** `it == other` */
    function Eq(other: Iterator): (r: bool)
      ensures r <==> Diff(other) == 0
    {
      offset == other.offset
    }

    /** `it != other` */
    function NotEq(other: Iterator): (r: bool)
      ensures r <==> Diff(other) != 0
    {
      !(offset == other.offset)
    }

    /** `it <= other` as written: `!(it < other)`, which holds when `it` is at or AFTER `other`. */
    function LessEq(other: Iterator): (r: bool)
      ensures r <==> Diff(other) >= 0
    {
      !(offset < other.offset)
    }

    /** `it >= other` as written: `!(other < it)`, which holds when `it` is at or BEFORE `other`. */
    function GreaterEq(other: Iterator): (r: bool)
      ensures r <==> Diff(other) <= 0
    {
      !(other.offset < offset)
    }

    /** `it <= other` as the random-access iterator requirements intend: `!(other < it)`. */
    function LessEqIntended(other: Iterator): (r: bool)
      ensures r <==> Less(other) || Eq(other)
    {
      !(other.offset < offset)
    }

    /** `it >= other` as the random-access iterator requirements intend: `!(it < other)`. */
    function GreaterEqIntended(other: Iterator): (r: bool)
      ensures r <==> Greater(other) || Eq(other)
    {
      !(offset < other.offset)
    }
  }

  /** `<` and `>` are converses, and `==` and `!=` are complements. */
  lemma ComparisonDuality(a: Iterator, b: Iterator)
    ensures a.Less(b) <==> b.Greater(a)
    ensures a.NotEq(b) <==> !a.Eq(b)
    ensures a.Eq(b) <==> a == b
    ensures a.Less(b) || a.Eq(b) || a.Greater(b)
  {
  }

  /** `it += n` followed by `it -= n` is the identity, and so are `++` and `--`. */
  lemma StepsCancel(it: Iterator, n: int)
    ensures it.Plus(n).Minus(n) == it && it.Minus(n).Plus(n) == it
    ensures it.Next().Prev() == it && it.Prev().Next() == it
    ensures it.Plus(n).Diff(it) == n
  {
  }

  /** The written `<=` and `>=` trade places with the intended ones. */
  lemma OrderingSwapped(a: Iterator, b: Iterator)
    ensures a.LessEq(b) == a.GreaterEqIntended(b)
    ensures a.GreaterEq(b) == a.LessEqIntended(b)
  {
  }

  /** The smallest input on which the written `<=` answers wrongly: begin() <= begin() + 1 is false. */
  lemma LessEqCounterexample()
    ensures Iterator(0).Less(Iterator(1))
    ensures !Iterator(0).LessEq(Iterator(1))
    ensures Iterator(0).LessEqIntended(Iterator(1))
  {
  }

  /** The intended `<=` and `>=` form a total order consistent with `<`. */
  lemma IntendedOrderingIsTotal(a: Iterator, b: Iterator, c: Iterator)
    ensures a.LessEqIntended(a)
    ensures a.LessEqIntended(b) && b.LessEqIntended(a) ==> a == b
    ensures a.LessEqIntended(b) && b.LessEqIntended(c) ==> a.LessEqIntended(c)
    ensures a.LessEqIntended(b) || b.LessEqIntended(a)
    ensures a.GreaterEqIntended(b) <==> b.LessEqIntended(a)
  {
  }
}
