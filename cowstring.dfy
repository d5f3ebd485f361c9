/**
 * `cowstring::CowString`: a copy-on-write character string. Copies share one
 * reference-counted, null-terminated buffer; each string caches its own size
 * and capacity. Only the mutable subscript (and `at`, which forwards to it)
 * checks the owner count and forks a private copy. `reserve` and
 * `shrinkToFit` allocate only when the capacity changes, both `insert`s
 * always do, and none of them checks for sharing first. `erase`, `resize`
 * and `pushBack` write into whatever buffer is held, shared or not.
 */
module CowStrings {
  import opened Text
  import opened Iterators
  import opened Buffers

  /** `std::out_of_range` with the message the source throws. */
  datatype Error = OutOfRange(message: string)

  const IndexOutOfRange: string := "Index out of range."
  const IteratorOutOfBounds: string := "Iterator out of bounds."
  const InvalidIteratorRange: string := "Iterator out of bounds or invalid range."
  const IteratorOutOfRange: string := "Iterator out of range."

  /** `npos`: `size_t(-1)` on a 64-bit target, the default count of `erase`. */
  const NPOS: nat := 0xFFFF_FFFF_FFFF_FFFF

  /** Outcome of an operation that returns `*this` or throws. */
  datatype Outcome = Pass | Fail(error: Error)

  /** Outcome of an operation that returns a value or throws. */
  datatype Result<T> = Ok(value: T) | Err(error: Error)

  /** A `char&`: a position in one particular allocation. */
  datatype CharRef = CharRef(chars: array<char>, index: nat)

  /** `ref = ch`: a write through a reference, into whatever buffer it points to. */
  method Store(r: CharRef, ch: char)
    requires r.index < r.chars.Length
    modifies r.chars
    ensures r.chars[..] == old(r.chars[..])[r.index := ch]
  {
    r.chars[r.index] := ch;
  }

  /** Reading through a reference. */
  function Load(r: CharRef): char
    reads r.chars
    requires r.index < r.chars.Length
  {
    r.chars[r.index]
  }

  class CowString {
    var buf: Buffer
    var size: nat
    var cap: nat

    /** What every operation keeps: room for the terminator slot, and a live buffer. */
    ghost predicate Valid()
      reads this, buf
    {
      size < buf.chars.Length && buf.owners >= 1
    }

    /** The logical content: the first `size` characters of the buffer. */
    ghost function Content(): seq<char>
      reads this, buf, buf.chars
      requires Valid()
    {
      buf.chars[..size]
    }

    /** The byte after the content is the terminator. */
    ghost predicate Terminated()
      reads this, buf, buf.chars
      requires Valid()
    {
      buf.chars[size] == NUL
    }

    /**
     * The bookkeeping a size/capacity pair is expected to keep: `size <= capacity`
     * and the buffer holds at least `capacity + 1` bytes. `insert`, the fork in
     * the mutable subscript, and `pushBack` from size 0 and capacity 0 need not
     * keep it.
     */
    predicate Conforming()
      reads this
    {
      size <= cap < buf.chars.Length
    }

    /** `alloc(str, size)`: `2 * size + 1` bytes, the first `size` copied, the rest zeroed. */
    static method Alloc(src: seq<char>, n: nat) returns (a: array<char>)
      requires n <= |src|
      ensures fresh(a) && a.Length == 2 * n + 1
      ensures a[..n] == src[..n]
      ensures forall k :: n <= k < a.Length ==> a[k] == NUL
    {
      a := new char[2 * n + 1];
      var i := 0;
      while i < n
        invariant 0 <= i <= n
        invariant forall k :: 0 <= k < i ==> a[k] == src[k]
      {
        a[i] := src[i];
        i := i + 1;
      }
      while i < 2 * n + 1
        invariant n <= i <= 2 * n + 1
        invariant forall k :: 0 <= k < n ==> a[k] == src[k]
        invariant forall k :: n <= k < i ==> a[k] == NUL
      {
        a[i] := NUL;
        i := i + 1;
      }
    }

    /** `CowString()`: an empty string over a one-byte buffer, capacity 0. */
    constructor ()
      ensures Valid() && fresh(buf) && fresh(buf.chars) && buf.owners == 1
      ensures Content() == [] && cap == 0 && Terminated() && Conforming()
      ensures buf.chars.Length == 1
    {
      var a := Alloc([], 0);
      buf := new Buffer.Own(a);
      size, cap := 0, 0;
    }

    /** `CowString(const char* str)`: content up to the first terminator, capacity twice that. */
    constructor FromCStr(str: seq<char>)
      requires NUL in str
      ensures Valid() && fresh(buf) && fresh(buf.chars) && buf.owners == 1
      ensures size == StrLen(str) && Content() == str[..size] && cap == 2 * size
      ensures buf.chars[..] == Content() + Repeat(size + 1, NUL)
      ensures Terminated() && Conforming()
    {
      var n := StrLen(str);
      var a := Alloc(str, n);
      buf := new Buffer.Own(a);
      size, cap := n, 2 * n;
      new;
      assert buf.chars[..] == a[..n] + a[n..];
    }

    /** The copy constructor: shares the buffer and raises its owner count. */
    constructor Copy(other: CowString)
      requires other.Valid()
      modifies other.buf
      ensures Valid() && buf == other.buf && size == other.size && cap == other.cap
      ensures buf.owners == old(other.buf.owners) + 1
      ensures Content() == other.Content() && unchanged(buf.chars)
    {
      buf, size, cap := other.buf, other.size, other.cap;
      new;
      buf.owners := buf.owners + 1;
    }

    /** Copy assignment: takes the other string's buffer and fields; counts move with the buffer. */
    method AssignFrom(other: CowString)
      requires Valid() && other.Valid()
      modifies this, buf, other.buf
      ensures buf == old(other.buf) && size == old(other.size) && cap == old(other.cap)
      ensures old(buf) == old(other.buf) ==> buf.owners == old(buf.owners)
      ensures old(buf) != old(other.buf) ==>
                buf.owners == old(other.buf.owners) + 1 && old(buf).owners == old(buf.owners) - 1
      ensures Valid() && Content() == old(other.Content())
    {
      var nb := other.buf;
      nb.owners := nb.owners + 1;
      buf.owners := buf.owners - 1;
      buf, size, cap := nb, other.size, other.cap;
    }

    /** The destructor: gives up this string's share of its buffer. */
    method Destroy()
      requires Valid()
      modifies buf
      ensures buf.owners == old(buf.owners) - 1
    {
      buf.owners := buf.owners - 1;
    }

    /** `data = p` for a fresh `p`: the old buffer loses an owner. */
    method Rebind(nb: Buffer)
      requires buf.owners >= 1 && nb != buf
      modifies this`buf, buf
      ensures buf == nb && nb.owners == old(nb.owners)
      ensures old(buf).owners == old(buf.owners) - 1
    {
      buf.owners := buf.owners - 1;
      buf := nb;
    }

    /** `size()` */
    function Size(): (n: nat)
      reads this, buf, buf.chars
      requires Valid()
      ensures n == |Content()|
    {
      size
    }

    /** `capacity()`: the cached field, which need not match the allocation. */
    function Capacity(): (c: nat)
      reads this
      ensures Conforming() ==> c < buf.chars.Length
    {
      cap
    }

    /** `empty()` */
    function Empty(): (e: bool)
      reads this, buf, buf.chars
      requires Valid()
      ensures e <==> Content() == []
    {
      size == 0
    }

    /** `use_cnt()` */
    function UseCount(): (n: nat)
      reads this, buf
      requires Valid()
      ensures n >= 1 && n == buf.owners
    {
      buf.owners
    }

    /** `c_str()` read as a C string: the buffer up to its first terminator. */
    function CStr(): (r: string)
      reads this, buf, buf.chars
      requires Valid() && NUL in buf.chars[..]
      ensures NUL !in r && |r| < buf.chars.Length
      ensures Terminated() && NUL !in Content() ==> r == Content()
    {
      TerminatedContentIsCString(this);
      buf.chars[..StrLen(buf.chars[..])]
    }

    /** `begin()`: always dereferenceable (the buffer holds at least the terminator), at the first character. */
    function Begin(): (it: Iterator)
      reads this, buf, buf.chars
      requires Valid()
      ensures 0 <= it.offset < buf.chars.Length && (Content() != [] ==> Load(Deref(it)) == Content()[0])
    {
      Iterator(0)
    }

    /** `end()` */
    function End(): (it: Iterator)
      reads this, buf, buf.chars
      requires Valid()
      ensures it.Diff(Begin()) == |Content()|
    {
      Iterator(size)
    }

    /** `*it`, as a reference into the current buffer; iterators never fork, even on a shared buffer. */
    function Deref(it: Iterator): (r: CharRef)
      reads this, buf, buf.chars
      requires Valid() && 0 <= it.offset < buf.chars.Length
      ensures r.chars == buf.chars && r.index == it.offset
      ensures it.offset < size ==> Load(r) == Content()[it.offset]
    {
      CharRef(buf.chars, it.offset)
    }

    /** `it[n]`: the reference `*(it + n)`, again into the current buffer without a fork. */
    function DerefAt(it: Iterator, n: int): (r: CharRef)
      reads this, buf, buf.chars
      requires Valid() && 0 <= it.offset + n < buf.chars.Length
      ensures r.chars == buf.chars && r.index == it.Plus(n).Diff(Begin())
      ensures it.offset + n < size ==> Load(r) == Content()[it.offset + n]
    {
      Deref(it.Plus(n))
    }

    /** `operator[](i) const`: an unchecked read that never forks. */
    function ConstIndex(i: nat): (c: char)
      reads this, buf, buf.chars
      requires Valid() && i < buf.chars.Length
      ensures i < size ==> c == Content()[i]
      ensures i == size && Terminated() ==> c == NUL
    {
      buf.chars[i]
    }

    /** `at(i) const`: a checked read that never forks. */
    function ConstAt(i: nat): (r: Result<char>)
      reads this, buf, buf.chars
      requires Valid()
      ensures r.Ok? <==> i < |Content()|
      ensures r.Ok? ==> r.value == Content()[i]
      ensures r.Err? ==> r.error == OutOfRange(IndexOutOfRange)
    {
      if i >= size then Err(OutOfRange(IndexOutOfRange)) else Ok(buf.chars[i])
    }

    /** The bound the mutable subscript's unchecked access needs: the fork allocates `2 * size + 1` bytes. */
    function SubscriptLimit(): (n: nat)
      reads this, buf
      requires Valid()
      ensures size < n
    {
      if buf.owners == 1 then buf.chars.Length else 2 * size + 1
    }

    /**
     * `operator[](i)`: forks a private buffer first when the buffer is shared,
     * then returns a reference into the buffer now held. The fork leaves the
     * cached capacity as it was.
     */
    method Subscript(i: nat) returns (r: CharRef)
      requires Valid() && i < SubscriptLimit()
      modifies this`buf, buf
      ensures Valid() && size == old(size) && cap == old(cap) && Content() == old(Content())
      ensures buf.owners == 1 && r == CharRef(buf.chars, i)
      ensures old(buf.owners) == 1 ==> buf == old(buf)
      ensures old(buf.owners) != 1 ==>
                fresh(buf) && fresh(buf.chars) && buf.chars.Length == 2 * size + 1
                && buf.chars[..] == Content() + Repeat(size + 1, NUL)
                && old(buf).owners == old(buf.owners) - 1
    {
      if buf.owners != 1 {
        var a := Alloc(buf.chars[..], size);
        var nb := new Buffer.Own(a);
        Rebind(nb);
        assert buf.chars[..] == a[..size] + a[size..];
      }
      r := CharRef(buf.chars, i);
    }

    /** `at(i)`: checks `i < size`, then behaves as the mutable subscript. */
    method At(i: nat) returns (r: Result<CharRef>)
      requires Valid()
      modifies this`buf, buf
      ensures Valid() && size == old(size) && cap == old(cap) && Content() == old(Content())
      ensures r.Err? <==> old(size) <= i
      ensures r.Err? ==> r.error == OutOfRange(IndexOutOfRange) && buf == old(buf) && unchanged(buf)
      ensures r.Ok? ==> buf.owners == 1 && r.value == CharRef(buf.chars, i)
      ensures r.Ok? && old(buf.owners) == 1 ==> buf == old(buf)
      ensures r.Ok? && old(buf.owners) != 1 ==>
                fresh(buf) && fresh(buf.chars) && buf.chars.Length == 2 * size + 1
                && buf.chars[..] == Content() + Repeat(size + 1, NUL)
                && old(buf).owners == old(buf.owners) - 1
    {
      if i >= size {
        return Err(OutOfRange(IndexOutOfRange));
      }
      var ref := Subscript(i);
      r := Ok(ref);
    }

    /**
     * `reserve(newCap)`: when `newCap` exceeds the cached capacity, moves the
     * content into a fresh `newCap + 1`-byte buffer whose only terminator is
     * at `newCap`; the bytes from `size` up to `newCap` are left uninitialised.
     */
    method Reserve(newCap: nat)
      requires Valid()
      requires cap < newCap ==> size <= newCap
      modifies this, buf
      ensures Valid() && size == old(size) && Content() == old(Content())
      ensures cap == ReservedCap(old(cap), newCap)
      ensures old(cap) < newCap ==>
                fresh(buf) && fresh(buf.chars) && buf.owners == 1
                && buf.chars.Length == newCap + 1 && buf.chars[newCap] == NUL
                && old(buf).owners == old(buf.owners) - 1 && Conforming()
      ensures newCap <= old(cap) ==> buf == old(buf) && unchanged(buf)
      ensures old(Conforming()) ==> Conforming()
    {
      if newCap > cap {
        var a := new char[newCap + 1];
        CopyRange(buf.chars, 0, size, a, 0);
        a[newCap] := NUL;
        assert a[..size] == old(buf.chars[..size]);
        var nb := new Buffer.Own(a);
        Rebind(nb);
        cap := newCap;
      }
    }

    /**
     * `resize(newSize, ch)`: growing past the cached capacity first reserves
     * exactly `newSize`; growing pads with `ch`; shrinking only moves the
     * terminator. Both write into the buffer held, shared or not.
     */
    method Resize(newSize: nat, ch: char := NUL)
      requires Valid()
      requires size < newSize <= cap ==> newSize < buf.chars.Length
      modifies this, buf, buf.chars
      ensures Valid() && size == newSize
      ensures Content() == Resized(old(Content()), newSize, ch)
      ensures cap == (if old(size) < newSize then ReservedCap(old(cap), newSize) else old(cap))
      ensures buf != old(buf) <==> old(size) < newSize && old(cap) < newSize
      ensures buf != old(buf) ==>
                fresh(buf) && fresh(buf.chars) && buf.owners == 1
                && buf.chars[..] == Content() + [NUL] && old(buf).owners == old(buf.owners) - 1
                && unchanged(old(buf).chars)
      ensures buf == old(buf) ==> buf.owners == old(buf.owners)
      ensures buf == old(buf) && newSize != old(size) ==>
                buf.chars[..] == Content() + [NUL] + old(buf.chars[..])[newSize + 1..]
      ensures newSize == old(size) ==> buf == old(buf) && unchanged(buf.chars)
      ensures newSize != old(size) ==> Terminated()
      ensures old(Conforming()) ==> Conforming()
    {
      ghost var was := buf.chars[..size];
      if newSize > size {
        if newSize > cap {
          Reserve(newSize);
        }
        ghost var before := buf.chars[..];
        FillRange(buf.chars, size, newSize, ch);
        buf.chars[newSize] := NUL;
        assert buf.chars[..newSize] == was + Repeat(newSize - size, ch);
        assert buf.chars[..] == buf.chars[..newSize] + [NUL] + before[newSize + 1..];
      } else if newSize < size {
        buf.chars[newSize] := NUL;
        assert buf.chars[..newSize] == was[..newSize];
      }
      size := newSize;
    }

    /** `shrinkToFit()`: when `size < capacity`, moves the content into exactly `size + 1` bytes. */
    method ShrinkToFit()
      requires Valid()
      modifies this, buf
      ensures Valid() && size == old(size) && Content() == old(Content())
      ensures old(size) < old(cap) ==>
                cap == size && fresh(buf) && fresh(buf.chars) && buf.owners == 1
                && buf.chars[..] == Content() + [NUL] && old(buf).owners == old(buf.owners) - 1
      ensures old(cap) <= old(size) ==> cap == old(cap) && buf == old(buf) && unchanged(buf)
      ensures size < old(cap) ==> Conforming()
      ensures old(Conforming()) ==> Conforming()
    {
      if size < cap {
        var a := new char[size + 1];
        CopyRange(buf.chars, 0, size, a, 0);
        a[size] := NUL;
        assert a[..] == old(buf.chars[..size]) + [NUL];
        var nb := new Buffer.Own(a);
        Rebind(nb);
        cap := size;
      }
    }

    /**
     * Whether `pushBack` stays inside the allocation: it writes the character
     * at `size` and the terminator at `size + 1`, in the buffer that the
     * possible `reserve(2 * size)` leaves.
     */
    predicate PushBackFits()
      reads this
    {
      size + 1 < (if size + 1 >= cap && cap < 2 * size then 2 * size + 1 else buf.chars.Length)
    }

    /** `pushBack(ch)`: reserves `2 * size` when `size + 1` reaches the capacity, then appends in place. */
    method PushBack(ch: char)
      requires Valid() && PushBackFits()
      modifies this, buf, buf.chars
      ensures Valid() && Content() == old(Content()) + [ch] && Terminated()
      ensures cap == PushBackCap(old(size), old(cap))
      ensures buf != old(buf) <==> old(size) + 1 >= old(cap) && old(cap) < 2 * old(size)
      ensures buf != old(buf) ==>
                fresh(buf) && fresh(buf.chars) && buf.owners == 1
                && buf.chars.Length == 2 * old(size) + 1 && old(buf).owners == old(buf.owners) - 1
                && unchanged(old(buf).chars)
      ensures buf == old(buf) ==>
                buf.owners == old(buf.owners)
                && buf.chars[..] == Content() + [NUL] + old(buf.chars[..])[size + 1..]
      ensures old(Conforming()) && !(old(size) == 0 && old(cap) == 0) ==> Conforming()
    {
      ghost var was := buf.chars[..size];
      if size + 1 >= cap {
        Reserve(2 * size);
      }
      ghost var before := buf.chars[..];
      buf.chars[size] := ch;
      size := size + 1;
      buf.chars[size] := NUL;
      assert buf.chars[..size] == was + [ch];
      assert buf.chars[..] == buf.chars[..size] + [NUL] + before[size + 1..];
    }

    /**
     * `erase(index, count)`: removes `min(count, size - index)` characters at
     * `index` by shifting the tail left inside the buffer held, shared or not.
     */
    method Erase(index: nat := 0, count: nat := NPOS) returns (r: Outcome)
      requires Valid()
      modifies this`size, buf.chars
      ensures Valid() && buf == old(buf) && cap == old(cap)
      ensures r == if old(size) < index then Fail(OutOfRange(IndexOutOfRange)) else Pass
      ensures r.Fail? ==> size == old(size) && unchanged(buf.chars)
      ensures r.Pass? ==>
                Content() == Erased(old(Content()), index, count) && Terminated()
                && buf.chars[..] == Content() + [NUL] + old(buf.chars[..])[size + 1..]
      ensures old(Conforming()) ==> Conforming()
    {
      if index > size {
        return Fail(OutOfRange(IndexOutOfRange));
      }
      ghost var was := buf.chars[..];
      var n := Erasable(size, index, count);
      ShiftLeft(buf.chars, index + n, size, index);
      ShiftedImage(was, buf.chars[..], size, index, count, n);
      size := size - n;
      buf.chars[size] := NUL;
      r := Pass;
    }

    /** `erase(position)`: removes the character at `position`, which must lie in `[begin, end)`. */
    method EraseAt(position: Iterator) returns (r: Result<Iterator>)
      requires Valid()
      modifies this`size, buf.chars
      ensures Valid() && buf == old(buf) && cap == old(cap)
      ensures r.Err? <==> position.offset < 0 || old(size) <= position.offset
      ensures r.Err? ==>
                r.error == OutOfRange(IteratorOutOfBounds) && size == old(size) && unchanged(buf.chars)
      ensures r.Ok? ==>
                r.value == position && Content() == Erased(old(Content()), position.offset, 1)
                && buf.chars[..] == Content() + [NUL] + old(buf.chars[..])[size + 1..]
      ensures old(Conforming()) ==> Conforming()
    {
      if position.offset < 0 || position.offset >= size {
        return Err(OutOfRange(IteratorOutOfBounds));
      }
      var erased := Erase(position.offset, 1);
      r := Ok(Iterator(position.offset));
    }

    /** `erase(first, last)`: removes `[first, last)`; an empty range writes nothing. */
    method EraseRange(first: Iterator, last: Iterator) returns (r: Result<Iterator>)
      requires Valid()
      modifies this`size, buf.chars
      ensures Valid() && buf == old(buf) && cap == old(cap)
      ensures r.Err? <==> first.offset < 0 || old(size) < last.offset || last.offset < first.offset
      ensures r.Err? ==>
                r.error == OutOfRange(InvalidIteratorRange) && size == old(size) && unchanged(buf.chars)
      ensures r.Ok? ==>
                r.value == first
                && Content() == Erased(old(Content()), first.offset, last.Diff(first))
      ensures r.Ok? && first == last ==> size == old(size) && unchanged(buf.chars)
      ensures r.Ok? && first != last ==>
                buf.chars[..] == Content() + [NUL] + old(buf.chars[..])[size + 1..]
      ensures old(Conforming()) ==> Conforming()
    {
      if first.offset < 0 || last.offset > size || first.offset > last.offset {
        return Err(OutOfRange(InvalidIteratorRange));
      }
      var count := last.offset - first.offset;
      if count > 0 {
        var erased := Erase(first.offset, count);
      } else {
        EraseNothing(buf.chars[..size], first.offset, 0);
      }
      r := Ok(Iterator(first.offset));
    }

    /**
     * `insert(index, count, ch)`: always builds a fresh buffer of exactly
     * `size + count + 1` bytes and rebinds to it; the cached capacity is not
     * updated.
     */
    method Insert(index: nat, count: nat, ch: char) returns (r: Outcome)
      requires Valid()
      modifies this, buf
      ensures Valid() && cap == old(cap)
      ensures r == if old(size) < index then Fail(OutOfRange(IndexOutOfRange)) else Pass
      ensures r.Fail? ==> size == old(size) && buf == old(buf) && unchanged(buf)
      ensures r.Pass? ==>
                Content() == Inserted(old(Content()), index, count, ch)
                && fresh(buf) && fresh(buf.chars) && buf.owners == 1
                && buf.chars[..] == Content() + [NUL] && old(buf).owners == old(buf.owners) - 1
    {
      if index > size {
        return Fail(OutOfRange(IndexOutOfRange));
      }
      ghost var was := buf.chars[..size];
      var newSize := size + count;
      var a := new char[newSize + 1];
      CopyRange(buf.chars, 0, index, a, 0);
      FillRange(a, index, index + count, ch);
      CopyRange(buf.chars, index, size, a, index + count);
      a[newSize] := NUL;
      forall k | 0 <= k < newSize ensures a[k] == Inserted(was, index, count, ch)[k] {
      }
      assert a[..] == Inserted(was, index, count, ch) + [NUL];
      var nb := new Buffer.Own(a);
      Rebind(nb);
      size := newSize;
      r := Pass;
    }

    /**
     * `insert(pos, ch)`: one character at `pos`. The position is converted to
     * an unsigned index, so a position before `begin()` fails like one after
     * `end()`.
     */
    method InsertAt(pos: Iterator, ch: char) returns (r: Result<Iterator>)
      requires Valid()
      modifies this, buf
      ensures Valid() && cap == old(cap)
      ensures r.Err? <==> pos.offset < 0 || old(size) < pos.offset
      ensures r.Err? ==>
                r.error == OutOfRange(IteratorOutOfRange) && size == old(size)
                && buf == old(buf) && unchanged(buf)
      ensures r.Ok? ==>
                r.value == pos && Content() == Inserted(old(Content()), pos.offset, 1, ch)
                && fresh(buf) && fresh(buf.chars) && buf.owners == 1
                && buf.chars[..] == Content() + [NUL] && old(buf).owners == old(buf.owners) - 1
    {
      if pos.offset < 0 || pos.offset > size {
        return Err(OutOfRange(IteratorOutOfRange));
      }
      var inserted := Insert(pos.offset, 1, ch);
      r := Ok(Iterator(pos.offset));
    }
  }

  /** A terminated content without embedded terminators is exactly what a C-string reader sees. */
  lemma TerminatedContentIsCString(s: CowString)
    requires s.Valid() && NUL in s.buf.chars[..]
    ensures s.Terminated() && NUL !in s.Content() ==> StrLen(s.buf.chars[..]) == s.size
  {
    if s.Terminated() && NUL !in s.Content() {
      assert s.buf.chars[..][..s.size] == s.Content();
      StrLenFindsFirstTerminator(s.buf.chars[..], s.size);
    }
  }

  /** The buffer image `erase` leaves: the shifted content, a terminator, then the bytes that were there. */
  lemma ShiftedImage(was: seq<char>, shifted: seq<char>, size: nat, index: nat, count: nat, n: nat)
    requires index <= size < |was| && n == Erasable(size, index, count)
    requires shifted == was[..index] + was[index + n..size] + was[index + (size - (index + n))..]
    ensures shifted[size - n := NUL][..size - n] == Erased(was[..size], index, count)
    ensures shifted[size - n := NUL] == Erased(was[..size], index, count) + [NUL] + was[size - n + 1..]
  {
    var m := size - n;
    var e := Erased(was[..size], index, count);
    assert e == was[..index] + was[index + n..size];
    assert shifted == e + was[m..];
    assert was[m..] == [was[m]] + was[m + 1..];
  }

  /** `end() - begin() == size()` for every string. */
  lemma EndMinusBegin(s: CowString)
    requires s.Valid()
    ensures s.End().Diff(s.Begin()) == s.Size()
  {
  }

  /** With `size <= capacity` backed by the allocation, `pushBack` is safe exactly when size and capacity are not both zero. */
  lemma PushBackFitsWhenConforming(s: CowString)
    requires s.Valid() && s.Conforming()
    ensures !(s.size == 0 && s.cap == 0) ==> s.PushBackFits()
    ensures s.size == 0 && s.cap == 0 && s.buf.chars.Length == 1 ==> !s.PushBackFits()
  {
  }
}
