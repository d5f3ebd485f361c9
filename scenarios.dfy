/**
 * Client code over the string: the scenarios the source's test suite runs
 * (cowstring.test.cpp), proved from the methods' contracts and the accessors'
 * definitions, and the scenarios in which the as-written bookkeeping and
 * sharing go wrong.
 */
module Scenarios {
  import opened Text
  import opened Iterators
  import opened CowStrings

  /** `CowString(t)` for a literal `t`, with what the constructor promises stated for `t` itself. */
  method NewString(t: string) returns (s: CowString)
    requires NUL !in t
    ensures fresh(s) && fresh(s.buf) && fresh(s.buf.chars) && s.Valid()
    ensures s.Content() == t && s.cap == 2 * |t| && s.buf.owners == 1
    ensures s.buf.chars.Length == 2 * |t| + 1 && s.Terminated() && s.Conforming()
  {
    StrLenRoundTrip(t, []);
    assert t + [NUL] + [] == t + [NUL];
    s := new CowString.FromCStr(t + [NUL]);
  }

  /** Construction from "test" (test lines 7-18 and 65-68). */
  method ConstructFromCStr()
  {
    var s := new CowString.FromCStr("test\0");
    assert s.Size() == 4;
    assert s.CStr() == "test";
    assert s.Capacity() == 8;
    var e := new CowString();
    assert e.Size() == 0 && e.Capacity() == 0 && e.Empty();
  }

  /** Copies share; a const read keeps sharing; a subscript write forks (test lines 20-45). */
  method CopyThenWrite()
  {
    var s1 := NewString("test");
    var s2 := new CowString.Copy(s1);
    assert s1.UseCount() == 2 && s2.UseCount() == 2;
    assert s1.ConstIndex(0) == 't';
    assert s1.UseCount() == 2;
    var ref := s2.Subscript(0);
    Store(ref, 'l');
    assert s1.UseCount() == 1 && s2.UseCount() == 1;
    assert s1.Content() == "test";
    assert s2.Content() == "lest";
  }

  /** `at` on an unshared string writes in place (test lines 47-57). */
  method AtWritesInPlace()
  {
    var s := NewString("test");
    var r := s.At(0);
    Store(r.value, 'l');
    assert s.Content() == "lest" && s.Terminated();
    assert s.CStr() == "lest";
    assert s.UseCount() == 1;
    var bad := s.At(4);
    assert bad == Err(OutOfRange("Index out of range."));
  }

  /** Capacity management (test lines 59-63, 94-99). */
  method ReserveAndShrink()
  {
    var s := NewString("test");
    s.Reserve(10);
    assert s.Capacity() == 10;
    s.Reserve(3);
    assert s.Capacity() == 10;
    s.ShrinkToFit();
    assert s.Size() == 4 && s.Capacity() == 4 && s.Content() == "test";
  }

  /** Resizing (test lines 70-92). */
  method ResizeGrowAndShrink()
  {
    var s := NewString("test");
    s.Resize(10, 's');
    assert s.Size() == 10;
    assert s.CStr() == "testssssss";
    var t := NewString("test");
    t.Resize(3);
    assert t.Size() == 3;
    assert t.CStr() == "tes";
  }

  /** Appending (test lines 101-121). */
  method PushBackGrowth()
  {
    var s := NewString("test");
    s.PushBack('l');
    assert s.CStr() == "testl";
    assert s.Capacity() == 8;
    var t := NewString("te");
    t.PushBack('s');
    t.PushBack('s');
    t.PushBack('s');
    assert t.Capacity() == 6 && t.Content() == "tesss";
  }

  /** Iterator arithmetic: `begin() + 2` reads the third character (test lines 144-166). */
  method IteratorAdvance()
  {
    var s := NewString("test");
    var it := s.Begin().Plus(2);
    assert Load(s.Deref(it)) == 's';
  }

  /** Iterator arithmetic: stepping forward and back returns to `begin()` (test lines 144-166). */
  method IteratorRetreat()
  {
    var s := NewString("test");
    var it := s.Begin().Plus(2);
    it := it.Minus(2);
    assert it == s.Begin();
  }

  /** Iterator arithmetic: `begin()` reads the first character (test lines 144-166). */
  method IteratorReadsFirst()
  {
    var s := NewString("test");
    var c := Load(s.Deref(s.Begin()));
    assert c == 't';
  }

  /** Iterator arithmetic: `end() - 1` is three steps after `begin()` of "test" (test lines 144-166). */
  method IteratorDistance()
  {
    var s := NewString("test");
    assert s.End().Minus(1).Diff(s.Begin()) == 3;
  }

  /** Erasing by index and count (test lines 169-179). */
  method EraseByIndex()
  {
    var s := NewString("test");
    var r := s.Erase(0, 1);
    assert s.CStr() == "est";
    var t := NewString("test");
    r := t.Erase(0, 2);
    assert t.CStr() == "st";
    r := t.Erase(3);
    assert r == Fail(OutOfRange("Index out of range."));
  }

  /** Erasing at one position (test lines 181-193). */
  method EraseByPosition()
  {
    var s := NewString("test");
    var i := s.EraseAt(s.Begin());
    assert s.CStr() == "est";
    var t := NewString("test");
    i := t.EraseAt(t.End().Minus(1));
    assert t.CStr() == "tes";
  }

  /** Erasing a range (test lines 195-199). */
  method EraseByRange()
  {
    var s := NewString("test");
    var i := s.EraseRange(s.Begin(), s.End().Minus(1));
    assert s.CStr() == "t";
    i := s.EraseRange(s.End(), s.Begin());
    assert i.Err?;
  }

  /** Inserting (test lines 202-219). */
  method InsertForms()
  {
    var s := NewString("test");
    var r := s.Insert(0, 2, 'l');
    assert s.CStr() == "lltest";
    var t := NewString("test");
    var i := t.InsertAt(t.Begin(), 'l');
    assert t.CStr() == "ltest";
    var u := new CowString.Copy(t);
    assert u.UseCount() == 2;
    i := u.InsertAt(u.Begin(), 'l');
    assert u.UseCount() == 1 && t.UseCount() == 1;
  }

  /** A growing `pushBack` on a copy moves to a new buffer and leaves the original's bytes alone. */
  method GrowingPushBackLeavesOriginal()
  {
    var s1 := NewString("a");
    var s2 := new CowString.Copy(s1);
    s2.PushBack('b');
    s2.PushBack('c');
    assert s2.Content() == "abc";
    assert s1.Content() == "a";
  }

  /** A growing `resize` on a copy moves to a new buffer and leaves the original's bytes alone. */
  method GrowingResizeLeavesOriginal()
  {
    var s1 := NewString("ab");
    var s2 := new CowString.Copy(s1);
    s2.Resize(10, 'x');
    assert s1.Content() == "ab";
  }

  /** `at` on a shared string forks into a zero-filled copy, which still reads as a C string. */
  method AtOnSharedStringForks()
  {
    var s1 := NewString("test");
    var s2 := new CowString.Copy(s1);
    var r := s2.At(0);
    assert s2.Terminated() && s2.UseCount() == 1;
    assert s2.CStr() == "test";
    assert s1.Content() == "test" && s1.UseCount() == 1;
  }

  /** `erase` on a copy rewrites the shared buffer: the original sees a terminator inside its content. */
  method EraseOnCopyChangesOriginal()
  {
    var s1 := NewString("test");
    var s2 := new CowString.Copy(s1);
    var r := s2.Erase(0, 2);
    assert s2.Content() == "st";
    assert s1.Size() == 4 && s1.Content() == "st\0t";
  }

  /** `resize` within the capacity writes into the shared buffer: the original's C string grows too. */
  method ResizeOnCopyChangesOriginal()
  {
    var s1 := NewString("test");
    var s2 := new CowString.Copy(s1);
    s2.Resize(6, 'x');
    assert s1.Size() == 4 && s1.buf == s2.buf;
    assert s1.CStr() == "testxx";
  }

  /** `pushBack` within the capacity writes into the shared buffer: the original's C string grows too. */
  method PushBackOnCopyChangesOriginal()
  {
    var s1 := NewString("test");
    var s2 := new CowString.Copy(s1);
    s2.PushBack('l');
    assert s1.Size() == 4 && s1.Content() == "test";
    assert s1.CStr() == "testl";
  }

  /** After `insert` and `erase` empty a string into a larger buffer, `pushBack` leaves the size past the capacity. */
  method PushBackFromZeroCapacity()
  {
    var s := new CowString();
    var r := s.Insert(0, 2, 'x');
    r := s.Erase();
    assert s.Size() == 0 && s.Capacity() == 0 && s.Conforming();
    s.PushBack('a');
    assert s.Size() == 1 && s.Capacity() == 0 && !s.Conforming();
  }

  /** A write through an iterator never forks: the original changes too. */
  method IteratorWriteChangesOriginal()
  {
    var s1 := NewString("test");
    var s2 := new CowString.Copy(s1);
    Store(s2.Deref(s2.Begin()), 'l');
    assert s1.Content() == "lest";
  }

  /** `insert` leaves the cached capacity behind the size, and a later `reserve` may not be called. */
  method InsertOutgrowsCapacity()
  {
    var s := NewString("test");
    var r := s.Insert(0, 10, 'x');
    assert s.Size() == 14 && s.Capacity() == 8 && !s.Conforming();
    assert !(s.cap < 10 ==> s.size <= 10);
  }

  /** The fork keeps the cached capacity, which then overstates the new allocation. */
  method ForkOverstatesCapacity()
  {
    var s1 := NewString("test");
    s1.Reserve(100);
    var s2 := new CowString.Copy(s1);
    var ref := s2.Subscript(0);
    assert s2.Capacity() == 100 && s2.buf.chars.Length == 9 && !s2.Conforming();
  }

  /** `pushBack` on a default-constructed string writes past its one-byte buffer. */
  method PushBackOnDefault()
  {
    var s := new CowString();
    assert !s.PushBackFits();
  }
}
