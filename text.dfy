/**
 * Pure specification of what the copy-on-write string's operations do to its
 * logical content (the first `size` characters of the buffer) and to its
 * cached capacity. The class in cowstring.dfy is proved against these
 * functions; the lemmas here state what the functions mean.
 */
module Text {

  /** The terminator written after the logical content. */
  const NUL: char := '\0'

  function Min(a: nat, b: nat): nat
  {
    if a <= b then a else b
  }

  /** `n` copies of `ch`: what `std::fill` writes over a range of length `n`. */
  function Repeat(n: nat, ch: char): (r: seq<char>)
    ensures |r| == n
    ensures forall k :: 0 <= k < n ==> r[k] == ch
  {
    if n == 0 then [] else Repeat(n - 1, ch) + [ch]
  }

  /** `std::strlen`: the position of the first terminator of a C string. */
  function StrLen(s: seq<char>): (n: nat)
    requires NUL in s
    ensures n < |s| && s[n] == NUL
    ensures NUL !in s[..n]
  {
    if s[0] == NUL then 0
    else
      var m := StrLen(s[1..]);
      assert s[..m + 1] == [s[0]] + s[1..][..m];
      m + 1
  }

  /** The number of characters `erase(index, count)` removes. */
  function Erasable(size: nat, index: nat, count: nat): (n: nat)
    requires index <= size
    ensures n <= count && index + n <= size
    ensures n == count || index + n == size
  {
    Min(count, size - index)
  }

  /** Content after `erase(index, count)`: the tail moves left over the removed run. */
  function Erased(s: seq<char>, index: nat, count: nat): (r: seq<char>)
    requires index <= |s|
    ensures |r| == |s| - Erasable(|s|, index, count)
    ensures forall k :: 0 <= k < |r| ==>
              r[k] == if k < index then s[k] else s[k + Erasable(|s|, index, count)]
  {
    s[..index] + s[index + Erasable(|s|, index, count)..]
  }

  /** Content after `insert(index, count, ch)`. */
  function Inserted(s: seq<char>, index: nat, count: nat, ch: char): (r: seq<char>)
    requires index <= |s|
    ensures |r| == |s| + count
    ensures forall k :: 0 <= k < |r| ==>
              r[k] == if k < index then s[k] else if k < index + count then ch else s[k - count]
  {
    s[..index] + Repeat(count, ch) + s[index..]
  }

  /** Content after `resize(n, ch)`: truncated, or padded with `ch`. */
  function Resized(s: seq<char>, n: nat, ch: char): (r: seq<char>)
    ensures |r| == n
    ensures forall k :: 0 <= k < n ==> r[k] == if k < |s| then s[k] else ch
  {
    if n <= |s| then s[..n] else s + Repeat(n - |s|, ch)
  }

  /** Cached capacity after `reserve(n)`: grows to exactly `n`, never shrinks. */
  function ReservedCap(cap: nat, n: nat): (r: nat)
    ensures r >= cap && r >= n
    ensures r == cap || r == n
  {
    if n > cap then n else cap
  }

  /**
   * Cached capacity after `pushBack`: when `size + 1` reaches the capacity the
   * string reserves `2 * size`, a doubling of the size and not of the capacity.
   */
  function PushBackCap(size: nat, cap: nat): (r: nat)
    ensures r >= cap && (r == cap || r == 2 * size)
    ensures size + 1 < cap ==> r == cap
    ensures size + 1 >= cap ==> r >= 2 * size
    ensures size <= cap ==> (size + 1 <= r <==> !(size == 0 && cap == 0))
  {
    if size + 1 >= cap then ReservedCap(cap, 2 * size) else cap
  }

  // ---------------------------------------------------------------------
  // Properties of the specification
  // ---------------------------------------------------------------------

  /** Reading a C string back stops at its first terminator and nowhere else. */
  lemma {:induction false} StrLenFindsFirstTerminator(s: seq<char>, n: nat)
    requires n < |s| && s[n] == NUL && NUL !in s[..n]
    ensures StrLen(s) == n
  {
    if n > 0 {
      assert s[0] == s[..n][0];
      assert s[1..][..n - 1] == s[..n][1..];
      StrLenFindsFirstTerminator(s[1..], n - 1);
    }
  }

  /** A C string written as `t` followed by a terminator reads back as `t`. */
  lemma StrLenRoundTrip(t: seq<char>, rest: seq<char>)
    requires NUL !in t
    ensures StrLen(t + [NUL] + rest) == |t|
    ensures (t + [NUL] + rest)[..StrLen(t + [NUL] + rest)] == t
  {
    var s := t + [NUL] + rest;
    assert s[..|t|] == t;
    StrLenFindsFirstTerminator(s, |t|);
  }

  /** Erasing what was just inserted gives the original content back. */
  lemma InsertThenErase(s: seq<char>, index: nat, count: nat, ch: char)
    requires index <= |s|
    ensures Erased(Inserted(s, index, count, ch), index, count) == s
  {
    var t := Inserted(s, index, count, ch);
    assert Erasable(|t|, index, count) == count;
    assert t[..index] == s[..index];
    assert t[index + count..] == s[index..];
    assert s == s[..index] + s[index..];
  }

  /** Re-inserting a run of `ch` that `erase` removed restores the content. */
  lemma EraseThenInsert(s: seq<char>, index: nat, count: nat, ch: char)
    requires index + count <= |s|
    requires s[index..index + count] == Repeat(count, ch)
    ensures Inserted(Erased(s, index, count), index, count, ch) == s
  {
    var e := Erased(s, index, count);
    var t := Inserted(e, index, count, ch);
    assert Erasable(|s|, index, count) == count;
    forall k | 0 <= k < |s| ensures t[k] == s[k] {
      if index <= k < index + count {
        assert s[k] == s[index..index + count][k - index];
      }
    }
  }

  /** Erasing a run of length zero, or at the end, changes nothing. */
  lemma EraseNothing(s: seq<char>, index: nat, count: nat)
    requires index <= |s|
    requires count == 0 || index == |s|
    ensures Erased(s, index, count) == s
  {
    assert s[..index] + s[index..] == s;
  }

  /** Appending one character is inserting it at the end. */
  lemma AppendIsInsertAtEnd(s: seq<char>, ch: char)
    ensures s + [ch] == Inserted(s, |s|, 1, ch)
  {
    assert Repeat(1, ch) == [ch];
    assert s[..|s|] == s;
  }

  /** Growing and then shrinking back to the old length restores the content. */
  lemma ResizeGrowThenShrink(s: seq<char>, n: nat, ch: char, ch': char)
    requires |s| <= n
    ensures Resized(Resized(s, n, ch), |s|, ch') == s
  {
  }

  /** Two successive resizes to the same length are one resize. */
  lemma {:induction false} ResizeIdempotent(s: seq<char>, n: nat, ch: char)
    ensures Resized(Resized(s, n, ch), n, ch) == Resized(s, n, ch)
  {
    var r := Resized(s, n, ch);
    assert r[..n] == r;
  }

  /** Shrinking keeps exactly the prefix. */
  lemma ResizeShrinkIsPrefix(s: seq<char>, n: nat, ch: char)
    requires n <= |s|
    ensures Resized(s, n, ch) == s[..n]
    ensures s == Resized(s, n, ch) + s[n..]
  {
  }

  /** The capacities the source's own scenarios observe: "test" + 'l' keeps 8; "te" + three pushes reaches 6. */
  lemma PushBackCapScenarios()
    ensures PushBackCap(4, 8) == 8
    ensures PushBackCap(2, 4) == 4 && PushBackCap(3, 4) == 6 && PushBackCap(4, 6) == 6
    ensures PushBackCap(0, 0) == 0
  {
  }
}
