# Copy-on-write string, modelled in Dafny

This project models `cowstring::CowString`, a copy-on-write character
string. Copies of a string share one reference-counted, null-terminated
`char` buffer. Each string caches its own `size` and `capacity`. The model
covers the string, its pointer-like `Iterator`, and the growth, erase and
insert operations that rewrite the buffer.

The model keeps the code's behaviour as written, defects included:

- Only the mutable subscript and `at` check whether the buffer is shared and
  fork a private copy.
- `reserve` and `shrinkToFit` allocate a new buffer only when the capacity
  changes, and both `insert`s always do. Whenever they allocate, they do so
  without checking whether the buffer is shared.
- `erase`, `resize` and `pushBack` write into whatever buffer is held, even a
  shared one.
- The cached capacity is stored apart from the real allocation length, so
  the model can show where the two drift apart.

Files:

- `text.dfy` (module `Text`) holds the pure specification. It defines what
  each operation does to the logical content (`seq<char>`) and to the cached
  capacity: `Erased`, `Inserted`, `Resized`, `ReservedCap`, `PushBackCap`
  and `StrLen` (the C-string reader). Lemmas state round trips and the
  growth policy.
- `iterators.dfy` (module `Iterators`) models the iterator as an offset into
  the current buffer. It covers the arithmetic and the comparisons as
  written, and the intended `<=` and `>=` beside them.
- `buffers.dfy` (module `Buffers`) is the shared allocation: a `Buffer` class
  with an `array<char>` and an owner count. It also has the `std::copy` and
  `std::fill` loops the string runs over buffers.
- `cowstring.dfy` (module `CowStrings`) is the `CowString` class, with fields
  `buf`, `size` and `cap`. Every public operation is a method or function
  there, proved against the `Text` functions. `Valid()` says the size leaves
  room for the terminator slot in the real allocation. `Conforming()` is the
  bookkeeping a size/capacity pair is expected to keep,
  `size <= capacity < allocation length`. Every method that keeps it says so
  in its contract. `insert`, the fork in the mutable subscript, and
  `pushBack` from size 0 and capacity 0 need not keep it.
- `scenarios.dfy` (module `Scenarios`) is client code. It replays the
  scenarios of the repository's test suite (`cowstring.test.cpp`) from the
  methods' contracts and the accessors' definitions. It also shows the as-written defects:
  - an `erase` on a copy puts a terminator inside the original's content;
  - a write through an iterator changes every sharer;
  - `insert` leaves the capacity behind the size;
  - the fork leaves the capacity above the allocation;
  - `pushBack` on a default-constructed string writes past its buffer.
  - `pushBack` on an emptied string with capacity 0 but a larger buffer
    leaves the size past the capacity.

  It also shows that an in-place `resize` or `pushBack` on a copy rewrites
  the original's buffer, while a growing `pushBack` or `resize` on a copy leaves the
  original untouched, and that `at` on a shared string forks into a copy
  that still reads as a C string.

Memory accesses that would be undefined behaviour in C++ become
preconditions, stated on the real allocation length rather than on the
cached capacity. Examples are `pushBack` on a default-constructed string and an
unchecked subscript past the buffer. A thrown `std::out_of_range` becomes an
error value that carries the exact message, with nothing changed.

Behaviours of the code worth knowing, all kept in the model:

- Every failure throws `std::out_of_range`, with one of four messages
  depending on the operation. The error type is that one kind with the message.
- `erase(position)` rejects `position == end()`.
- `size <= capacity` need not hold after `insert`, which never updates the
  capacity. It also fails after `pushBack` on a string with size 0 and
  capacity 0 whose buffer has room, since `reserve(0)` leaves the capacity
  at 0.
- After the fork in the mutable subscript, the cached capacity can be larger
  than the new `2 * size + 1`-byte allocation, and also smaller.
- The default arguments are kept: `resize(n)` pads with `'\0'`, and `erase()`
  starts at index 0 with count `npos`.

## Model

| member | source | states |
|---|---|---|
| Text.Repeat | src/libcowstring/libcowstring/cowstring.hpp:293 | the run `std::fill` writes has length `n` and holds only `ch` |
| Text.StrLen | src/libcowstring/libcowstring/cowstring.hpp:32-34 | `strlen` finds a terminator, and no terminator comes before it |
| Text.Erasable | src/libcowstring/libcowstring/cowstring.hpp:245 | the clamped count is at most `count`, stays inside the content, and is either `count` or reaches the end |
| Text.Erased | src/libcowstring/libcowstring/cowstring.hpp:245-248 | after erase the length drops by the clamped count; characters before `index` stay and later ones come from `count` places further on |
| Text.Inserted | src/libcowstring/libcowstring/cowstring.hpp:288-296 | after insert the length grows by `count`; the prefix stays, `count` copies of `ch` follow, then the old suffix |
| Text.Resized | src/libcowstring/libcowstring/cowstring.hpp:209-219 | after resize the length is `n`; old characters are kept up to `n` and padded with `ch` |
| Text.ReservedCap | src/libcowstring/libcowstring/cowstring.hpp:199-206 | reserve's capacity is at least the old capacity and at least `n`, and equals one of them |
| Text.PushBackCap | src/libcowstring/libcowstring/cowstring.hpp:232-238 | pushBack never lowers the capacity and ends at either the old capacity or `2 * size`; it keeps the capacity while `size + 1 < capacity` and otherwise reaches at least `2 * size`; if `size <= capacity`, it leaves room for the character exactly when size and capacity are not both zero |
| Text.StrLenFindsFirstTerminator | src/libcowstring/libcowstring/cowstring.hpp:32-33 | `strlen` returns exactly the position of the first terminator |
| Text.StrLenRoundTrip | src/libcowstring/libcowstring/cowstring.hpp:31-34 | a string `t` without terminators, written with a terminator after it, reads back as `t` with length `|t|` |
| Text.InsertThenErase | src/libcowstring/libcowstring/cowstring.hpp:241-303 | erasing the `count` characters just inserted at `index` restores the content |
| Text.EraseThenInsert | src/libcowstring/libcowstring/cowstring.hpp:241-303 | re-inserting an erased run of `ch` restores the content |
| Text.EraseNothing | src/libcowstring/libcowstring/cowstring.hpp:245-249 | erasing zero characters, or at the end, leaves the content unchanged |
| Text.AppendIsInsertAtEnd | src/libcowstring/libcowstring/cowstring.hpp:232-239 | appending one character equals inserting it at `size` |
| Text.ResizeGrowThenShrink | src/libcowstring/libcowstring/cowstring.hpp:209-220 | growing and then shrinking back to the old size restores the content, whatever the fill characters |
| Text.ResizeIdempotent | src/libcowstring/libcowstring/cowstring.hpp:209-220 | resizing twice to the same size with the same fill is one resize |
| Text.ResizeShrinkIsPrefix | src/libcowstring/libcowstring/cowstring.hpp:216-219 | shrinking keeps exactly the prefix, and the dropped tail completes it back to the old content |
| Text.PushBackCapScenarios | src/libcowstring/libcowstring/cowstring.test.cpp:101-121 | the capacities the test scenarios observe: "test"+'l' keeps 8; "te"+3 pushes reaches 4 then 6 then 6 |
| Iterators.Iterator.Next | src/libcowstring/libcowstring/cowstring.hpp:57-60 | `++it` is one step after `it` |
| Iterators.Iterator.Prev | src/libcowstring/libcowstring/cowstring.hpp:68-71 | `--it` is one step before `it` |
| Iterators.Iterator.PostIncrement | src/libcowstring/libcowstring/cowstring.hpp:62-66 | `it++` yields the old iterator and leaves the pre-increment's result |
| Iterators.Iterator.PostDecrement | src/libcowstring/libcowstring/cowstring.hpp:73-77 | `it--` yields the old iterator and leaves the pre-decrement's result |
| Iterators.Iterator.Plus | src/libcowstring/libcowstring/cowstring.hpp:103-106 | `(it + n) - it == n` |
| Iterators.Iterator.Minus | src/libcowstring/libcowstring/cowstring.hpp:108-111 | `it - (it - n) == n` |
| Iterators.Iterator.Diff | src/libcowstring/libcowstring/cowstring.hpp:125-127 | `a - b` is the distance that moves `b` onto `a`, and it is zero exactly when the two positions are equal |
| Iterators.Iterator.Less | src/libcowstring/libcowstring/cowstring.hpp:79-81 | `a < b` exactly when `a - b` is negative |
| Iterators.Iterator.Greater | src/libcowstring/libcowstring/cowstring.hpp:83-85 | `a > b` exactly when `a - b` is positive |
| Iterators.Iterator.Eq | src/libcowstring/libcowstring/cowstring.hpp:95-97 | `a == b` exactly when `a - b` is zero |
| Iterators.Iterator.NotEq | src/libcowstring/libcowstring/cowstring.hpp:99-101 | `a != b` exactly when `a - b` is non-zero |
| Iterators.Iterator.LessEq | src/libcowstring/libcowstring/cowstring.hpp:87-89 | the written `a <= b` holds exactly when `a - b >= 0`, the reverse of its name |
| Iterators.Iterator.GreaterEq | src/libcowstring/libcowstring/cowstring.hpp:91-93 | the written `a >= b` holds exactly when `a - b <= 0`, the reverse of its name |
| Iterators.Iterator.LessEqIntended | src/libcowstring/libcowstring/cowstring.hpp:87-89 | the corrected `<=` is `<` or `==` |
| Iterators.Iterator.GreaterEqIntended | src/libcowstring/libcowstring/cowstring.hpp:91-93 | the corrected `>=` is `>` or `==` |
| Iterators.ComparisonDuality | src/libcowstring/libcowstring/cowstring.hpp:79-101 | `<` and `>` are converses, `==` and `!=` are complements, `==` is identity of positions, and `<`, `==`, `>` cover every pair |
| Iterators.StepsCancel | src/libcowstring/libcowstring/cowstring.hpp:57-127 | `+= n` then `-= n` is the identity, in both orders, and so are `++` then `--` |
| Iterators.OrderingSwapped | src/libcowstring/libcowstring/cowstring.hpp:87-93 | the written `<=` is the intended `>=`, and the written `>=` is the intended `<=` |
| Iterators.LessEqCounterexample | src/libcowstring/libcowstring/cowstring.hpp:87-89 | `begin() < begin() + 1`, yet the written `begin() <= begin() + 1` is false |
| Iterators.IntendedOrderingIsTotal | src/libcowstring/libcowstring/cowstring.hpp:79-97 | the corrected `<=` is reflexive, antisymmetric, transitive and total, and the corrected `>=` is its converse |
| Buffers.Buffer.Own | src/libcowstring/libcowstring/cowstring.hpp:201 | a freshly allocated buffer starts with owner count 1 |
| Buffers.CopyRange | src/libcowstring/libcowstring/cowstring.hpp:201-202 | `std::copy` into another allocation writes the source run at `at` and leaves every other byte |
| Buffers.ShiftLeft | src/libcowstring/libcowstring/cowstring.hpp:246-247 | `std::copy` toward the front of the same buffer leaves the moved run at `at`, followed by the untouched bytes |
| Buffers.ShiftImage | src/libcowstring/libcowstring/cowstring.hpp:246-247 | the pointwise effect of a left shift equals that sequence image |
| Buffers.FillRange | src/libcowstring/libcowstring/cowstring.hpp:214 | `std::fill` sets exactly `[lo, hi)` to `ch` |
| CowStrings.Store | src/libcowstring/libcowstring/cowstring.hpp:343-347 | a write through a returned `char&` changes that one byte of that allocation |
| CowStrings.CowString.Alloc | src/libcowstring/libcowstring/cowstring.hpp:18-26 | `alloc` returns a fresh `2 * size + 1`-byte array: the first `size` bytes copied, the rest zero |
| CowStrings.CowString.constructor | src/libcowstring/libcowstring/cowstring.hpp:29 | the default string is empty with capacity 0, terminated, in a 1-byte buffer of its own |
| CowStrings.CowString.FromCStr | src/libcowstring/libcowstring/cowstring.hpp:31-34 | size is `strlen(str)`, content is the characters before the terminator, capacity is twice the size, and the buffer is the content followed by `size + 1` zeros |
| CowStrings.CowString.Copy | src/libcowstring/libcowstring/cowstring.hpp:14-16 | a copy shares the buffer, size and capacity and raises the owner count by one |
| CowStrings.CowString.AssignFrom | src/libcowstring/libcowstring/cowstring.hpp:14-16 | copy assignment takes the other buffer and fields; the old buffer loses an owner and the new one gains one, and self-sharing changes no count |
| CowStrings.CowString.Destroy | src/libcowstring/libcowstring/cowstring.hpp:14 | the destructor gives up one owner of the buffer |
| CowStrings.CowString.Rebind | src/libcowstring/libcowstring/cowstring.hpp:204 | rebinding to a fresh buffer drops one owner from the old buffer |
| CowStrings.CowString.Size | src/libcowstring/libcowstring/cowstring.hpp:183-185 | `size()` is the length of the logical content |
| CowStrings.CowString.Capacity | src/libcowstring/libcowstring/cowstring.hpp:187-189 | `capacity()` is below the allocation length when the bookkeeping conforms |
| CowStrings.CowString.Empty | src/libcowstring/libcowstring/cowstring.hpp:191-193 | `empty()` exactly when the content is empty |
| CowStrings.CowString.UseCount | src/libcowstring/libcowstring/cowstring.hpp:195-197 | `use_cnt()` is the buffer's owner count, at least 1 |
| CowStrings.CowString.CStr | src/libcowstring/libcowstring/cowstring.hpp:179-181 | the C string read from `c_str()` has no terminator inside and fits the buffer, and it equals the content when the content is terminated and has no embedded zero |
| CowStrings.CowString.Begin | src/libcowstring/libcowstring/cowstring.hpp:139-141 | `begin()` lies inside the buffer, and on a non-empty string it reads the first character |
| CowStrings.CowString.End | src/libcowstring/libcowstring/cowstring.hpp:143-145 | `end()` is `size()` steps after `begin()` |
| CowStrings.CowString.Deref | src/libcowstring/libcowstring/cowstring.hpp:49-51 | `*it` refers to the byte at the iterator's offset in the current buffer, without a fork, and reads the content character there |
| CowStrings.CowString.DerefAt | src/libcowstring/libcowstring/cowstring.hpp:129-131 | `it[n]` refers to position `it + n` of the current buffer and reads the content there |
| CowStrings.CowString.ConstIndex | src/libcowstring/libcowstring/cowstring.hpp:350-352 | the const subscript reads the content, or the terminator at `size` |
| CowStrings.CowString.ConstAt | src/libcowstring/libcowstring/cowstring.hpp:336-341 | const `at(i)` succeeds exactly when `i < size()` and returns the content character; otherwise it fails with "Index out of range." |
| CowStrings.CowString.SubscriptLimit | src/libcowstring/libcowstring/cowstring.hpp:343-347 | the bound that the unchecked mutable subscript needs is always past the content |
| CowStrings.CowString.Subscript | src/libcowstring/libcowstring/cowstring.hpp:343-348 | a unique buffer is returned in place; a shared one is forked into a fresh `2 * size + 1`-byte copy, the old count drops by one, and the capacity is left unchanged; either way content is kept and the count becomes 1 |
| CowStrings.CowString.At | src/libcowstring/libcowstring/cowstring.hpp:329-334 | `at(i)` fails with "Index out of range." and changes nothing when `i >= size()`; otherwise it behaves as the mutable subscript, and a fork leaves a zero-filled `2 * size + 1`-byte copy of the content |
| CowStrings.CowString.Reserve | src/libcowstring/libcowstring/cowstring.hpp:199-207 | reserve does nothing when `newCap <= capacity`; otherwise the capacity becomes exactly `newCap`, in a fresh `newCap + 1`-byte buffer terminated at `newCap`; content is kept and conforming bookkeeping stays conforming |
| CowStrings.CowString.Resize | src/libcowstring/libcowstring/cowstring.hpp:209-220 | content becomes the resized content and size becomes `newSize`; it reallocates exactly when growing past the capacity; a changed size is terminated; the rest of the buffer is unchanged; after a reallocation the old, possibly shared buffer is untouched; `ch` defaults to `'\0'` |
| CowStrings.CowString.ShrinkToFit | src/libcowstring/libcowstring/cowstring.hpp:222-230 | when `size < capacity`, the content moves into exactly `size + 1` bytes with capacity `size`; otherwise nothing changes |
| CowStrings.CowString.PushBack | src/libcowstring/libcowstring/cowstring.hpp:232-239 | content gains `ch` at the end and is terminated; the capacity follows the growth policy; it reallocates exactly when the reserve grows, leaving the old, possibly shared buffer untouched; otherwise it writes in place |
| CowStrings.CowString.Erase | src/libcowstring/libcowstring/cowstring.hpp:241-251 | fails with "Index out of range." and changes nothing when `index > size`; otherwise content becomes the erased content, terminated, in the same buffer; `index` defaults to 0 and `count` to `npos` |
| CowStrings.CowString.EraseAt | src/libcowstring/libcowstring/cowstring.hpp:253-264 | fails with "Iterator out of bounds." unless `begin() <= position < end()`; otherwise removes that one character and returns the same offset; size/capacity bookkeeping that holds is kept |
| CowStrings.CowString.EraseRange | src/libcowstring/libcowstring/cowstring.hpp:266-282 | fails with "Iterator out of bounds or invalid range." on a bad range; otherwise removes `[first, last)` and returns `first`; an empty range writes nothing; size/capacity bookkeeping that holds is kept |
| CowStrings.CowString.Insert | src/libcowstring/libcowstring/cowstring.hpp:284-303 | fails with "Index out of range." and changes nothing when `index > size`; otherwise content becomes the inserted content, in a fresh exactly-sized unshared buffer, with the capacity left unchanged |
| CowStrings.CowString.InsertAt | src/libcowstring/libcowstring/cowstring.hpp:305-327 | fails with "Iterator out of range." for a position before `begin()` or after `end()`; otherwise inserts one character there and returns that position |
| CowStrings.TerminatedContentIsCString | src/libcowstring/libcowstring/cowstring.hpp:179-181 | a terminated content without embedded zeros is exactly what `strlen` on `c_str()` measures |
| CowStrings.ShiftedImage | src/libcowstring/libcowstring/cowstring.hpp:246-249 | after the shift and the new terminator, the buffer holds the erased content, a terminator and the old bytes after it |
| CowStrings.EndMinusBegin | src/libcowstring/libcowstring/cowstring.hpp:139-145 | `end() - begin() == size()` |
| CowStrings.PushBackFitsWhenConforming | src/libcowstring/libcowstring/cowstring.hpp:232-238 | with conforming bookkeeping, pushBack stays in bounds exactly unless size and capacity are both zero, and the default string is that case |
| Scenarios.NewString | src/libcowstring/libcowstring/cowstring.hpp:31-34 | constructing from a literal without zeros gives that content, capacity `2 * |t|` and a sole owner |

## Findings

| source | as written | input that shows it | evidently intended | confidence | as-written member | corrected member |
|---|---|---|---|---|---|---|
| src/libcowstring/libcowstring/cowstring.hpp:87-93 | `a <= b` returns `!(a < b)` and `a >= b` returns `!(b < a)`, so the two are swapped | `begin() <= begin() + 1` is false, while `begin() < begin() + 1` is true | `a <= b` as `!(b < a)` and `a >= b` as `!(a < b)` | high, not executed | Iterators.Iterator.LessEq | Iterators.Iterator.LessEqIntended |

`Iterators.LessEqCounterexample` exhibits the input. `Iterators.OrderingSwapped`
shows that each written operator is the other's intended form, and
`Iterators.IntendedOrderingIsTotal` proves that the corrected pair is a total
order. The same swap affects `Iterators.Iterator.GreaterEq`, whose corrected
form is `Iterators.Iterator.GreaterEqIntended`.

## Left out

- Thread safety of the shared reference count: the count is a plain field, and the model is sequential.
- `std::reverse_iterator` adapters (`rbegin`, `rend`, `crbegin`, `crend`) and the STL algorithms the tests run over iterators (`std::find`, `std::reverse`, `std::remove`) are library code outside the model.
- The const overloads `begin() const`, `cbegin`, `end() const` and `cend` return the same positions as `Begin` and `End`, so they are not modelled separately.
- Iterator `operator->` and the `c_str()` address: pointer identity is not modelled. Iterators are offsets into whichever buffer is current, so a dangling iterator after reallocation is not detected.
- Allocation failure (`new` throwing) and the `unique_ptr`-to-`shared_ptr` transfer: both are reduced to "a fresh buffer with one owner".
- The implicit move constructor and move assignment, which hand the buffer over without changing its count, are not modelled. The implicit copy constructor, copy assignment and destructor are modelled through the owner count (`Copy`, `AssignFrom`, `Destroy`).
- `size_t` arithmetic is unbounded (`nat`). `npos` is the constant `NPOS`, and wrap-around of `size + count` is not modelled.
- The test harness itself (GoogleTest, `main`): its scenarios are replayed as client methods in `Scenarios`.
- CowStrings.CowString.Reserve: the precondition excludes `size == newCap + 1`. That case is reachable only after an `insert` has left the size past the capacity. The copy then fills the whole new buffer and the terminator overwrites the last character.
- CowStrings.CowString.Reserve: the bytes between `size` and `newCap` are uninitialised in the source, so the model states nothing about them. In particular, no terminator at `size` is promised after a growing reserve.
- CowStrings.CowString.PushBack: the out-of-bounds writes of the source (a default-constructed string, or a string whose capacity overstates its allocation) are excluded by the precondition `PushBackFits` rather than modelled.
- CowStrings.CowString.Subscript: the unchecked index must lie inside the buffer held after the possible fork, which is a precondition here. In the source, a larger index is undefined behaviour.
- CowStrings.CowString.Resize: when `newSize == size` the source writes nothing, so no terminator is promised in that case.
