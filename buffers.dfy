/**
 * The shared character allocation behind a string (`std::shared_ptr<char[]>`)
 * and the two library copies the string runs over it (`std::copy`,
 * `std::fill`).
 */
module Buffers {

  /**
   * One heap allocation and its reference count. `chars.Length` is the real
   * size of the allocation; `owners` stands in for `shared_ptr::use_count`.
   */
  class Buffer {
    const chars: array<char>
    var owners: nat

    /** `std::shared_ptr<char[]>(p)`: takes ownership of a fresh allocation, count 1. */
    constructor Own(a: array<char>)
      ensures chars == a && owners == 1
    {
      chars := a;
      owners := 1;
    }
  }

  /** `std::copy(src + lo, src + hi, dst + at)` between two distinct allocations. */
  method CopyRange(src: array<char>, lo: nat, hi: nat, dst: array<char>, at: nat)
    requires lo <= hi <= src.Length
    requires at + (hi - lo) <= dst.Length
    requires src != dst
    modifies dst
    ensures forall k :: 0 <= k < dst.Length ==>
              dst[k] == if at <= k < at + (hi - lo) then old(src[lo + k - at]) else old(dst[k])
  {
    var i := 0;
    while i < hi - lo
      invariant 0 <= i <= hi - lo
      invariant forall k :: 0 <= k < dst.Length ==>
                  dst[k] == if at <= k < at + i then old(src[lo + k - at]) else old(dst[k])
    {
      dst[at + i] := src[lo + i];
      i := i + 1;
    }
  }

  /**
   * `std::copy(a + lo, a + hi, a + at)` inside one array, toward its front
   * (`at <= lo`), as `erase` uses it: the run moves left, the rest stays.
   */
  method ShiftLeft(a: array<char>, lo: nat, hi: nat, at: nat)
    requires at <= lo <= hi <= a.Length
    modifies a
    ensures a[..] == old(a[..at]) + old(a[lo..hi]) + old(a[at + (hi - lo)..])
  {
    ghost var was := a[..];
    var i := 0;
    while i < hi - lo
      invariant 0 <= i <= hi - lo
      invariant forall k {:trigger a[k]} :: 0 <= k < a.Length ==>
                  a[k] == if at <= k < at + i then was[lo + k - at] else was[k]
    {
      a[at + i] := a[lo + i];
      i := i + 1;
    }
    ShiftImage(was, a[..], lo, hi, at);
  }

  /** The pointwise effect of a left shift, as one sequence. */
  lemma ShiftImage(was: seq<char>, now: seq<char>, lo: nat, hi: nat, at: nat)
    requires at <= lo <= hi <= |was| == |now|
    requires forall k {:trigger now[k]} :: 0 <= k < |now| ==>
               now[k] == if at <= k < at + (hi - lo) then was[lo + k - at] else was[k]
    ensures now == was[..at] + was[lo..hi] + was[at + (hi - lo)..]
  {
    var image := was[..at] + was[lo..hi] + was[at + (hi - lo)..];
    forall k | 0 <= k < |now| ensures now[k] == image[k] {
      if at <= k < at + (hi - lo) {
        assert image[k] == was[lo..hi][k - at];
      } else if k >= at + (hi - lo) {
        assert image[k] == was[at + (hi - lo)..][k - at - (hi - lo)];
      }
    }
  }

  /** `std::fill(a + lo, a + hi, ch)`. */
  method FillRange(a: array<char>, lo: nat, hi: nat, ch: char)
    requires lo <= hi <= a.Length
    modifies a
    ensures forall k :: 0 <= k < a.Length ==> a[k] == if lo <= k < hi then ch else old(a[k])
  {
    var i := lo;
    while i < hi
      invariant lo <= i <= hi
      invariant forall k :: 0 <= k < a.Length ==> a[k] == if lo <= k < i then ch else old(a[k])
    {
      a[i] := ch;
      i := i + 1;
    }
  }
}
