# cpp-shared-ref: reference counting of `shared_ref` / `weak_ref`

This project models the reference-counting core of the `sm` smart-pointer
library. Three parts of it are modelled:

- The current handles `shared_ref<T>` and `weak_ref<T>`
  (src/cpp_shared_ref/memory.hpp). The file weak_ref.hpp in the same
  directory repeats memory.hpp's `weak_ref`, and shared_ref.hpp repeats its
  `shared_ref` except the constructor from a `weak_ref` (which throws
  `bad_weak_ref`). The same members model both copies, except that
  `Memory.SharedRef.FromWeak` has no counterpart in shared_ref.hpp.
- Their control block, `internal::ControlBlockBase`, with its three variants:
  deleter, plain pointer and in-place object. It sits behind the
  `internal::ControlBlock` wrapper (src/cpp_shared_ref/internal/control_block.hpp).
- The earlier `SharedRef<T>` / `WeakRef<T>` over a block of two bare counters
  (src/shared_ref/).

Modules:

- `Counting`: the counters of one block as a pure state machine.
  - `BlockState` holds the strong and weak counts, whether the payload still
    exists, whether the block has been freed, and how often each has been
    released.
  - It has four transitions: `AcquireStrong`, `ReleaseStrong`, `AcquireWeak`
    and `ReleaseWeak`.
  - `Coherent` is the invariant the library promises:
    - the payload exists exactly while the strong count is positive;
    - the block is freed exactly when both counts are zero;
    - each release happens at most once.
  - `Step` and `Run` apply any sequence of handle events. The lemmas prove
    that every sequence keeps the block coherent.
- `ControlBlock`:
  - the payload variants, and their `destroy()` and `get_deleter()`;
  - the class `ControlBlockBase`, whose counts are fields that handles update
    in place;
  - the three wrapper constructors, with their clean-up when allocating the
    block throws.
  - Ghost fields record:
    - whether the payload and the block still exist;
    - the log of payload releases;
    - the live handles on the block as two multisets, `owners` and
      `observers`.
  - `Valid()` says the block is coherent and each count equals the number of
    live handles of its kind.
- `Memory`: the classes `SharedRef` and `WeakRef`, plus `MakeShared`, the
  casts, `DeleterOf` and `Equal`/`NotEqual`.
  - Each C++ destructor becomes an explicit `Release()`. Each constructor and
    assignment is a constructor or method whose contract gives the new block
    state as a `Counting` transition of the old one, and the new owner or
    observer multiset.
  - A live handle (`Valid()`) holds a valid block that lists it.
- `Legacy`: the earlier classes over a block with `ref_count` starting at 1
  and `weak_count` starting at 0. The strong release follows
  `Counting.ReleaseStrong`. The weak release only decrements (see Findings).

Modelling decisions:

- Pointers are natural numbers (`Addr`), with 0 standing for `nullptr`.
- The handle's `internal::ControlBlock` value is the nullable reference
  `block`, so the wrapper's `operator bool` is `block != null`.
- A failing allocation is an input flag `allocFails`. What the source does
  to clean up is returned as a list of `ReleaseAction`s.
- A `std::type_info` is a number (`TypeToken`).
- The release code in memory.hpp (lines 262-275 and 602-610) calls the
  block's two clean-up steps under each other's names: `dispose` where the
  payload is destroyed, `destroy` where the block is deleted. It also reaches
  the counters through a `base` member that the wrapper does not expose. The
  model follows the evident intent:
  - at zero strong count, destroy the payload (`ReleasePayload`);
  - at zero strong and weak counts, delete the block and empty the wrapper
    (`FreeBlock`, `Dispose`).
- The current block starts with a weak count of 1 (control_block.hpp:16),
  although no weak handle exists. The model starts it at 0, as the legacy
  block does. With 1, no block would ever be freed; this is the first
  Finding.

## Model

| member | source | states |
|---|---|---|
| Counting.Initial | src/shared_ref/internal/control_block.hpp:7-10 | a new block has one strong count and no weak count, holds its payload, is not freed and is coherent |
| Counting.AcquireStrong | src/cpp_shared_ref/memory.hpp:96-110 | a new strong handle adds exactly one strong count and changes nothing else |
| Counting.ReleaseStrong | src/cpp_shared_ref/memory.hpp:262-275 | dropping a strong handle removes exactly one strong count and leaves the weak count alone |
| Counting.AcquireWeak | src/cpp_shared_ref/memory.hpp:476-481 | a new weak handle adds exactly one weak count; the strong count, payload and block are untouched |
| Counting.ReleaseWeak | src/cpp_shared_ref/memory.hpp:602-610 | dropping a weak handle removes one weak count and never touches the strong count or the payload |
| Counting.ReleaseStrongSpec | src/cpp_shared_ref/memory.hpp:266-274 | a strong release keeps the block coherent; the payload goes exactly at the last strong count and the block exactly when no weak count is left either; each happens once |
| Counting.ReleaseWeakSpec | src/cpp_shared_ref/memory.hpp:607-609 | a weak release keeps the block coherent and frees it exactly when it was the last weak count and no strong count is left |
| Counting.AcquireSpec | src/cpp_shared_ref/memory.hpp:476-481 | copying a handle of either kind keeps a coherent block coherent |
| Counting.Step | src/cpp_shared_ref/memory.hpp:262-275 | an event is possible exactly when a handle that could issue it exists: a copy of a strong handle needs a strong count, a weak copy needs some count, each drop needs a count of its kind (the strong release at these lines, the copies at memory.hpp:96-110 and 476-481, the weak release at 602-610) |
| Counting.StepKeepsCoherent | src/cpp_shared_ref/memory.hpp:262-275 | every possible event keeps the block coherent |
| Counting.StepReleasesOnlyAtLastOwner | src/cpp_shared_ref/memory.hpp:266-268 | the payload is released by exactly one event, the drop of the last strong handle; the block is freed only by the drop that leaves both counts at zero |
| Counting.FreedIsFinal | src/cpp_shared_ref/memory.hpp:602-610 | once the block is freed, no event can touch it |
| Counting.RunKeepsCoherent | src/cpp_shared_ref/memory.hpp:262-275 | any interleaving of copies and drops keeps the block coherent; the payload is released at most once, and the block is freed at most once and never before the payload |
| Counting.ExpiredExactlyWhenNoOwner | src/cpp_shared_ref/memory.hpp:568-570 | after any history, the payload is gone exactly when the strong count is zero, so `expired()` is true exactly when the object has been destroyed |
| Counting.FreedWhenLastStrongDrops | src/cpp_shared_ref/memory.hpp:270-273 | with no weak handle, the block is freed exactly when its last strong handle goes |
| Counting.InitialAsWritten | src/cpp_shared_ref/internal/control_block.hpp:15-16 | the counts as the block initialises them: one strong and one weak count |
| Counting.NeverFreedWithPhantomWeak | src/cpp_shared_ref/internal/control_block.hpp:16 | with the weak count starting at 1 and no weak handle, no sequence of strong copies and drops ever frees the block |
| Counting.PhantomWeakLeaks | src/cpp_shared_ref/internal/control_block.hpp:16 | as written, the block of a lone `make_shared` result survives its only handle; with the modelled initial counts it is freed |
| Counting.SelfCopyAssignAsWritten | src/cpp_shared_ref/memory.hpp:115-126 | `p = p` as written (release, then re-read `p` and increment): the handle keeps its pointer exactly when it was not the last owner, and keeps a block exactly unless that release freed it |
| Counting.SelfCopyAssignAsWrittenHarmlessWhenShared | src/cpp_shared_ref/memory.hpp:115-126 | with another owner on the block, `p = p` as written leaves the block state, the block and the pointer as they were |
| Counting.SelfCopyAssignAsWrittenEmpties | src/cpp_shared_ref/memory.hpp:115-126 | from the modelled start (weak count 0), the only handle doing `p = p` as written destroys the object, frees the block and ends empty |
| Counting.SelfCopyAssignAsWrittenCorruptsFromWrittenStart | src/cpp_shared_ref/memory.hpp:115-126 | from the start the block is given (weak count 1), `p = p` on the only handle destroys the object yet counts `p` again, so its later release destroys the object a second time |
| Counting.SelfCopyAssignAsWrittenCorrupts | src/cpp_shared_ref/memory.hpp:115-126 | as the only owner with a weak handle alive, `p = p` as written destroys the object, then counts `p` again: the block has a strong count with no object, which is incoherent, and `p`'s later release destroys the object a second time |
| Counting.ResetFailureAsWritten | src/cpp_shared_ref/memory.hpp:237-243 | a `reset(p)` whose block allocation throws, as written: the old block loses one strong count (and its payload at the last one), and the handle still refers to it unless that release freed it |
| Counting.ResetFailureAsWrittenReleasesEarly | src/cpp_shared_ref/memory.hpp:237-243 | as written, a `reset(p)` that throws leaves the handle on its old block after dropping its count, so the handle's later release destroys the payload while another owner still holds it |
| ControlBlock.Destroy | src/cpp_shared_ref/internal/control_block.hpp:25-27 | each variant releases its own object: the deleter block runs its deleter, the pointer block deletes the pointer, the in-place block destroys the embedded object |
| ControlBlock.GetDeleter | src/cpp_shared_ref/internal/control_block.hpp:29-35 | a deleter is returned exactly when the block is a deleter block whose deleter has the requested type, and it is that deleter |
| ControlBlock.GetDeleterRecovers | src/cpp_shared_ref/internal/control_block.hpp:51-53 | a deleter is found by its own type and by no other; pointer and in-place blocks never give one |
| ControlBlock.ControlBlockBase.constructor | src/cpp_shared_ref/internal/control_block.hpp:15-16 | a new block is in the initial state, valid, and has its creating handle as its one owner |
| ControlBlock.ControlBlockBase.ReleasePayload | src/cpp_shared_ref/internal/control_block.hpp:121-123 | `destroy()` performs the variant's release action once and logs it; the counts are unchanged |
| ControlBlock.ControlBlockBase.FreeBlock | src/cpp_shared_ref/internal/control_block.hpp:129-132 | deleting the block marks it freed once and changes nothing else |
| ControlBlock.ControlBlockBase.AddOwner | src/cpp_shared_ref/memory.hpp:102-104 | a strong increment is `AcquireStrong`, and the new handle joins the owners |
| ControlBlock.ControlBlockBase.DropOwner | src/cpp_shared_ref/memory.hpp:262-275 | a strong decrement is `ReleaseStrong`: the payload is released exactly at the last strong count and the block is disposed exactly when no weak count is left; the block stays valid |
| ControlBlock.ControlBlockBase.AddObserver | src/cpp_shared_ref/memory.hpp:476-481 | a weak increment is `AcquireWeak`, and the new handle joins the observers |
| ControlBlock.ControlBlockBase.DropObserver | src/cpp_shared_ref/memory.hpp:602-610 | a weak decrement is `ReleaseWeak`, and the block is disposed exactly when it was the last handle of either kind |
| ControlBlock.Dispose | src/cpp_shared_ref/internal/control_block.hpp:129-132 | `dispose()` frees the block once and leaves the wrapper empty |
| ControlBlock.NewWithDeleter | src/cpp_shared_ref/internal/control_block.hpp:92-100 | it yields a fresh valid block in the initial state with the deleter payload; if allocation throws, the deleter is run on the pointer and `bad_alloc` is passed on |
| ControlBlock.NewDefault | src/cpp_shared_ref/internal/control_block.hpp:102-110 | it yields a fresh valid block in the initial state owning the pointer; if allocation throws, the pointer is deleted and `bad_alloc` is passed on |
| ControlBlock.NewInPlace | src/cpp_shared_ref/internal/control_block.hpp:112-117 | it yields a fresh valid block holding the object in place and sets the caller's pointer to it; if allocation throws, the caller's pointer is untouched |
| Memory.SharedRef.OwnedBlockIsLive | src/cpp_shared_ref/memory.hpp:209-215 | a block that a live strong handle holds has a positive use count, a live payload, and has not been freed |
| Memory.SharedRef.TwoOwners | src/cpp_shared_ref/memory.hpp:115-126 | two distinct live strong handles on one block make its use count at least 2 |
| Memory.SharedRef.UseCount | src/cpp_shared_ref/memory.hpp:209-215 | `use_count()` is 0 without a block and otherwise the number of live strong handles on the block, at least 1 for a live handle |
| Memory.SharedRef.Unique | src/cpp_shared_ref/memory.hpp:218-220 | `unique()` holds exactly when the handle is the only strong handle on its block |
| Memory.SharedRef.IsTrue | src/cpp_shared_ref/memory.hpp:223-225 | `operator bool` tests the stored pointer only; that this is independent of holding a block is shown by `Memory.SharedRef.NullWithDeleter` (a block held, tests false) |
| Memory.SharedRef.Get | src/cpp_shared_ref/memory.hpp:192-194 | `get()` is null exactly when the handle tests false |
| Memory.SharedRef.constructor | src/cpp_shared_ref/memory.hpp:32-35 | a default or `nullptr` handle has no pointer and no block, use count 0, and tests false |
| Memory.SharedRef.Copy | src/cpp_shared_ref/memory.hpp:96-110 | a copy shares the pointer and block with one more strong count, joins the owners, and compares equal to its source |
| Memory.SharedRef.Alias | src/cpp_shared_ref/memory.hpp:57-63 | the aliasing constructor shares the block with one more strong count but stores the given pointer, so it compares equal to its source exactly when that pointer is the source's |
| Memory.SharedRef.Move | src/cpp_shared_ref/memory.hpp:146-159 | a move takes over the pointer and block without changing any count, and leaves the source empty |
| Memory.SharedRef.FromPointer | src/cpp_shared_ref/memory.hpp:39-41 | it yields the sole owner of a new pointer block; if allocation fails, the pointer is deleted and `bad_alloc` is passed on |
| Memory.SharedRef.FromPointerWithDeleter | src/cpp_shared_ref/memory.hpp:46-48 | it yields the sole owner of a new deleter block; if allocation fails, the deleter runs on the pointer |
| Memory.SharedRef.NullWithDeleter | src/cpp_shared_ref/memory.hpp:51-53 | the handle owns a block (use count 1) although its pointer is null and it tests false |
| Memory.SharedRef.FromWeak | src/cpp_shared_ref/memory.hpp:67-77 | it fails with `bad_weak_ref` exactly when the weak handle has expired, and otherwise adds one strong count on the observed block |
| Memory.SharedRef.Release | src/cpp_shared_ref/memory.hpp:80-82 | the destructor drops one strong count (`ReleaseStrong`): at the last count it nulls the pointer and releases the payload once; with no weak count left it also frees the block and empties the handle |
| Memory.SharedRef.Reset | src/cpp_shared_ref/memory.hpp:228-233 | `reset()` and `= nullptr` release the handle, which ends empty with use count 0 |
| Memory.SharedRef.CopyAssign | src/cpp_shared_ref/memory.hpp:115-142 | after assignment the handle shares the other's pointer and block: the old block gets `ReleaseStrong` and the new one `AcquireStrong`; between owners of one block, the count is unchanged |
| Memory.SharedRef.MoveAssign | src/cpp_shared_ref/memory.hpp:163-188 | the handle releases its block and takes the other's pointer and block, and the other ends empty; a handle moved into itself ends empty |
| Memory.SharedRef.ResetTo | src/cpp_shared_ref/memory.hpp:237-243 | `reset(p)` releases the old block and becomes the sole owner of a new pointer block; if allocation throws, `p` is deleted and the handle is left empty |
| Memory.SharedRef.ResetWithDeleter | src/cpp_shared_ref/memory.hpp:248-254 | `reset(p, d)` releases the old block and becomes the sole owner of a new deleter block; if allocation throws, the deleter runs on `p` and the handle is left empty (see Findings) |
| Memory.SharedRef.Swap | src/cpp_shared_ref/memory.hpp:257-260 | swapping exchanges pointers and blocks, changes no count, and keeps both handles live |
| Memory.MakeShared | src/cpp_shared_ref/memory.hpp:295-300 | the result is the sole owner of a new in-place block, and its pointer is the embedded object |
| Memory.PointerCast | src/cpp_shared_ref/memory.hpp:303-308 | for a conversion that keeps null null, a static, const or reinterpret cast shares the block with one more strong count and stores the converted pointer; casting a null handle gives a null handle, and the result compares equal to the source exactly when the conversion kept the address |
| Memory.DynamicCast | src/cpp_shared_ref/memory.hpp:311-320 | a failed dynamic cast (including one of a null handle) gives an empty handle and changes no count or owner; a successful one shares the block like the other casts |
| Memory.DeleterOf | src/cpp_shared_ref/memory.hpp:340-342 | `get_deleter` returns the block's deleter exactly when it has the requested type |
| Memory.Equal | src/cpp_shared_ref/memory.hpp:347-350 | `==` compares the pointers `get()` returns; a handle equals itself, and equal handles test alike |
| Memory.EqualComparesPointersOnly | src/cpp_shared_ref/memory.hpp:347-350 | `==` is symmetric and transitive and ignores blocks: handles on different blocks with one pointer are equal, handles on one block with different pointers are not |
| Memory.NotEqual | src/cpp_shared_ref/memory.hpp:352-355 | `!=` is the negation of `==` |
| Memory.WeakRef.ObservedBlockNotFreed | src/cpp_shared_ref/memory.hpp:559-565 | a block that a live weak handle observes has a positive weak count and has not been freed |
| Memory.WeakRef.TwoObservers | src/cpp_shared_ref/memory.hpp:523-534 | two distinct live weak handles on one block make its weak count at least 2 |
| Memory.WeakRef.UseCount | src/cpp_shared_ref/memory.hpp:559-565 | the weak `use_count()` is 0 without a block and otherwise the number of live strong handles on the observed block |
| Memory.WeakRef.Expired | src/cpp_shared_ref/memory.hpp:568-570 | `expired()` holds exactly when no strong handle is left on the observed block (or there is none), and then the object has been destroyed |
| Memory.WeakRef.constructor | src/cpp_shared_ref/memory.hpp:469-472 | a default weak handle has no block and is expired |
| Memory.WeakRef.FromShared | src/cpp_shared_ref/memory.hpp:476-481 | it observes the strong handle's block with one more weak count and reports the same use count |
| Memory.WeakRef.Copy | src/cpp_shared_ref/memory.hpp:514-519 | a copy observes the same block with one more weak count |
| Memory.WeakRef.Move | src/cpp_shared_ref/memory.hpp:538-542 | a move takes over the observation without changing a count, and leaves the source empty |
| Memory.WeakRef.Release | src/cpp_shared_ref/memory.hpp:484-486 | the destructor drops one weak count (`ReleaseWeak`), frees the block exactly when no handle of either kind is left, and never touches the payload |
| Memory.WeakRef.Reset | src/cpp_shared_ref/memory.hpp:589-594 | `reset()` and `= nullptr` release the handle, which ends empty and expired |
| Memory.WeakRef.AssignShared | src/cpp_shared_ref/memory.hpp:499-510 | the weak handle releases its block and observes the strong handle's block with one more weak count |
| Memory.WeakRef.ReassignSelf | src/cpp_shared_ref/memory.hpp:523-534 | `w = w` as written (release, then re-read): the block keeps its counts and observers, unless `w` was the last weak handle of an expired block, which the release frees, and `w` ends empty; either way `w` stays live |
| Memory.WeakRef.CopyAssign | src/cpp_shared_ref/memory.hpp:523-534 | the old block gets `ReleaseWeak` and the new one `AcquireWeak`; between observers of one block, the counts are unchanged; `w = w` runs the release first, as written, so the handle keeps its block and counts unless it was the last weak handle of an expired block, which the release frees, leaving `w` empty |
| Memory.WeakRef.MoveAssign | src/cpp_shared_ref/memory.hpp:546-556 | the weak handle releases its block and takes over the other's, and the other ends empty |
| Memory.WeakRef.Lock | src/cpp_shared_ref/memory.hpp:574-586 | an expired handle gives an empty strong handle and changes no count or owner; otherwise it gives a new owner of the block with one more strong count |
| Memory.WeakRef.Swap | src/cpp_shared_ref/memory.hpp:597-600 | swapping exchanges pointers and blocks and changes no count |
| Legacy.ReleaseWeakAsWritten | src/shared_ref/weak_ref.hpp:110-116 | the legacy weak release removes one weak count and nothing else: it never frees the block |
| Legacy.ReleaseStrongKeepsSound | src/shared_ref/shared_ref.hpp:110-123 | the legacy strong release deletes the object at the last strong count and frees the block only when no weak count is left |
| Legacy.ReleaseWeakAsWrittenKeepsSound | src/shared_ref/weak_ref.hpp:110-116 | the legacy weak release never frees a block that still has a count, and never deletes the object |
| Legacy.WeakReleaseAsWrittenLeaks | src/shared_ref/weak_ref.hpp:110-116 | after a weak copy and the last strong release, the legacy weak release leaves a block with no count that is never freed, where `Counting.ReleaseWeak` frees it |
| Legacy.CopyAssignSelfAsWritten | src/shared_ref/shared_ref.hpp:36-47 | `p = p` as written keeps both counts, but the block ends freed exactly when `p` was its only handle |
| Legacy.CopyAssignSelfWritesFreedBlock | src/shared_ref/shared_ref.hpp:36-47 | for the only handle, `p = p` as written deletes the object and the block, then increments `ref_count` in the deleted block |
| Legacy.Block.constructor | src/shared_ref/internal/control_block.hpp:7-10 | `new ControlBlock` starts with `ref_count` 1 and `weak_count` 0, owned by its creating handle |
| Legacy.Block.DeleteObject | src/shared_ref/shared_ref.hpp:115-117 | `delete object_pointer` deletes the guarded object once and logs it; no count changes |
| Legacy.Block.FreeBlock | src/shared_ref/shared_ref.hpp:119-121 | `delete block` marks the block freed once and changes nothing else |
| Legacy.Block.AddOwner | src/shared_ref/shared_ref.hpp:28-34 | `ref_count++` is `AcquireStrong`, and the new handle joins the owners |
| Legacy.Block.AddObserver | src/shared_ref/weak_ref.hpp:16-21 | `weak_count++` is `AcquireWeak`, and the new handle joins the observers |
| Legacy.Block.DropOwner | src/shared_ref/shared_ref.hpp:110-123 | a strong decrement is `ReleaseStrong`: the object is deleted exactly at the last count, and the block is deleted exactly when `weak_count` is zero too |
| Legacy.Block.DropObserver | src/shared_ref/weak_ref.hpp:110-116 | a weak decrement is `ReleaseWeakAsWritten` |
| Legacy.SharedRef.OwnedBlockIsLive | src/shared_ref/shared_ref.hpp:102-108 | a block that a live strong handle holds has `ref_count` at least 1 and a live object, and has not been freed |
| Legacy.SharedRef.TwoOwners | src/shared_ref/shared_ref.hpp:36-47 | two distinct live strong handles on one block make `ref_count` at least 2 |
| Legacy.SharedRef.UseCount | src/shared_ref/shared_ref.hpp:102-108 | `use_count()` is 0 without a block and otherwise the number of live strong handles on it, at least 1 for a live handle |
| Legacy.SharedRef.IsTrue | src/shared_ref/shared_ref.hpp:84-86 | `operator bool` tests the object pointer, which for a live handle is the object its block guards |
| Legacy.SharedRef.Get | src/shared_ref/shared_ref.hpp:98-100 | `get()` is the guarded object for a live handle with a block, and null exactly when the handle tests false |
| Legacy.SharedRef.constructor | src/shared_ref/shared_ref.hpp:16-17 | a default or `nullptr` handle is empty with use count 0 |
| Legacy.SharedRef.FromPointer | src/shared_ref/shared_ref.hpp:19-22 | a raw pointer gets a new block with use count 1, even when it is null |
| Legacy.SharedRef.Copy | src/shared_ref/shared_ref.hpp:28-34 | a copy shares the block with one more `ref_count` |
| Legacy.SharedRef.Move | src/shared_ref/shared_ref.hpp:49-53 | a move takes over the block without a count change, and leaves the source empty |
| Legacy.SharedRef.Release | src/shared_ref/shared_ref.hpp:24-26 | the destructor drops one `ref_count` (`ReleaseStrong`): at zero it deletes its object once and nulls its pointer |
| Legacy.SharedRef.Reset | src/shared_ref/shared_ref.hpp:91-96 | `reset()` and `= nullptr` release the handle, which ends empty |
| Legacy.SharedRef.CopyAssign | src/shared_ref/shared_ref.hpp:36-47 | the old block gets `ReleaseStrong` and the new one `AcquireStrong`; between owners of one block, the counts are unchanged |
| Legacy.SharedRef.MoveAssign | src/shared_ref/shared_ref.hpp:55-65 | the handle releases its block and takes over the other's, which ends empty; moved into itself, it ends empty |
| Legacy.MakeShared | src/shared_ref/shared_ref.hpp:135-143 | the result is the sole owner of a new block guarding the new object |
| Legacy.WeakRef.Expired | src/shared_ref/weak_ref.hpp:89-95 | a weak handle has expired exactly when its use count is 0, that is when no strong handle is left on its block; then the object has been deleted |
| Legacy.WeakRef.UseCount | src/shared_ref/weak_ref.hpp:81-87 | the weak `use_count()` is 0 without a block and otherwise the number of live strong handles on it |
| Legacy.WeakRef.TwoObservers | src/shared_ref/weak_ref.hpp:34-45 | two distinct live weak handles on one block make `weak_count` at least 2 |
| Legacy.WeakRef.constructor | src/shared_ref/weak_ref.hpp:12-14 | a default or `nullptr` weak handle is empty and expired |
| Legacy.WeakRef.ObservedBlockNotFreed | src/shared_ref/weak_ref.hpp:81-87 | a block that a live weak handle observes has not been freed, so reading its count is safe |
| Legacy.WeakRef.FromShared | src/shared_ref/weak_ref.hpp:16-21 | it observes the strong handle's block with one more `weak_count` and reports the same use count |
| Legacy.WeakRef.Copy | src/shared_ref/weak_ref.hpp:27-32 | a copy observes the block with one more `weak_count` |
| Legacy.WeakRef.Move | src/shared_ref/weak_ref.hpp:47-51 | a move takes over the observation and leaves the source empty |
| Legacy.WeakRef.Release | src/shared_ref/weak_ref.hpp:23-25 | the destructor applies `ReleaseWeakAsWritten` to the block |
| Legacy.WeakRef.Reset | src/shared_ref/weak_ref.hpp:74-79 | `reset()` and `= nullptr` release the handle, which ends empty and expired |
| Legacy.WeakRef.CopyAssign | src/shared_ref/weak_ref.hpp:34-45 | the old block loses one `weak_count` and the new one gains one; between observers of one block, and for `w = w` (whose decrement and re-increment cancel out), the counts are unchanged |
| Legacy.WeakRef.MoveAssign | src/shared_ref/weak_ref.hpp:53-63 | the handle releases its block and takes over the other's, which ends empty |
| Legacy.WeakRef.Lock | src/shared_ref/weak_ref.hpp:97-108 | an expired handle gives an empty strong handle; otherwise a new owner of the block with one more `ref_count` |

## Left out

- Relational operators other than `==`/`!=`, comparisons with `nullptr`, `operator<<` and `std::hash`: they compare or print stored pointers and change no count.
- `operator->`, `operator*` and `get()` beyond returning the stored pointer: no memory is dereferenced.
- Templates, converting constructors and assignments between `T` and `U`, and the C++ casts themselves: the casts are a function parameter `convert` on addresses, and converting overloads are modelled by the same members as their plain forms.
- Real allocation, addresses and object construction: an allocation failure is the input `allocFails`, and what would be deleted or destroyed is returned as `ReleaseAction`s or logged in ghost state.
- The constructor of the in-place object throwing inside `make_shared`: it is the same observable outcome as `allocFails` (nothing allocated, the exception passed on).
- Legacy allocation failure: `new ControlBlock` throwing in `SharedRef(T*)` would leak the object; the legacy model assumes allocation succeeds.
- Legacy `make_shared` allocating the block before the object: if `new T` throws, the destructor of the local `ref` releases its count and deletes the block (the object pointer is still null), so nothing leaks; the legacy model assumes allocation succeeds and does not model that path.
- Concurrency: the counts are plain `std::size_t` fields with no atomics, and the model is sequential.
- Overflow of the `std::size_t` counts: the model's counts are unbounded.
- src/shared_pointer/ (an earlier draft), `enable_shared_from_this` and `owner_less`: not part of this model.
- Memory.PointerCast, Memory.DynamicCast: the conversion `convert` is required to map null to null, as every C++ pointer cast does; other conversions are not modelled.
- Memory.DeleterOf: requires a block, as the source reads the block without a check; an empty handle is not modelled.
- Handle identity: each count is tied to one entry of a block's `owners` or `observers` multiset, but the model does not prove that a handle appears there only once; each handle's `Valid()` only says it appears.
- Legacy.SharedRef.Release: the handle keeps its (possibly freed) block field, as the source does; only the following reassignment or the end of the object clears it.

## Findings

| source | as written | input that shows it | evidently intended | confidence | as-written member | corrected member |
|---|---|---|---|---|---|---|
| src/cpp_shared_ref/internal/control_block.hpp:16 | a new block starts with `weak_count` 1 although no weak handle exists, so the weak count never reaches 0 and the block is never deleted | `{ auto p = make_shared<int>(1); }`: after the destructor, strong 0 and weak 1, block not freed | start `weak_count` at 0, as the legacy block does, so the block goes with the last handle | not executed | Counting.PhantomWeakLeaks | Counting.FreedWhenLastStrongDrops |
| src/cpp_shared_ref/memory.hpp:115-126 | copy assignment releases first, then re-reads `other`; for `p = p` on the last owner the release destroys the object and nulls `p`'s pointer before it is re-read | `auto p = make_shared<int>(1); weak_ref<int> w(p); p = p;`: the object is destroyed, yet the block has strong count 1 again, so `w.lock()` hands out the destroyed object and `p`'s destructor destroys it a second time (with the corrected weak start of 0; without `w`, `p` then just ends empty with its object destroyed, whereas from the weak start of 1 as written, `p = p` on the only handle already counts `p` again on a destroyed object: `Counting.SelfCopyAssignAsWrittenCorruptsFromWrittenStart`) | assigning a handle to itself leaves it unchanged | not executed | Counting.SelfCopyAssignAsWrittenCorrupts | Memory.SharedRef.CopyAssign |
| src/shared_ref/shared_ref.hpp:36-47 | the legacy copy assignment has the same order, and its release deletes the block without clearing `block` | `SharedRef<int> p(new int(1)); p = p;`: the object and the block are deleted, then `ref_count` of the deleted block is incremented | assigning a handle to itself leaves it unchanged | not executed | Legacy.CopyAssignSelfWritesFreedBlock | Legacy.SharedRef.CopyAssign |
| src/cpp_shared_ref/memory.hpp:237-243 | `reset(p)` releases the old block and stores `p` before building the new block; if that throws, the handle keeps the old block (its count already dropped) and the deleted `p` | `q = p; p.reset(new int)` with the block allocation throwing: `p` still refers to the block of count 1, and destroying `p` destroys the object `q` still holds | on failure, leave the handle empty | not executed | Counting.ResetFailureAsWrittenReleasesEarly | Memory.SharedRef.ResetTo |
| src/cpp_shared_ref/memory.hpp:248-254 | `reset(p, d)` has the same order as `reset(p)`: release, store `p`, then build the block; if that throws, the handle keeps the old block with its count already dropped | `q = p; p.reset(new int, d)` with the block allocation throwing: `d` runs on the new pointer, `p` still refers to the block of count 1, and destroying `p` destroys the object `q` still holds | on failure, leave the handle empty | not executed | Counting.ResetFailureAsWrittenReleasesEarly | Memory.SharedRef.ResetWithDeleter |
| src/shared_ref/weak_ref.hpp:110-116 | the legacy weak release only decrements `weak_count` and never deletes the block | `auto s = make_shared<int>(1); WeakRef w(s); s.reset(); w.reset();`: both counts 0, block never deleted | delete the block when the last weak handle goes after the last strong one, as the current code does | not executed | Legacy.WeakReleaseAsWrittenLeaks | Counting.ReleaseWeakSpec |
