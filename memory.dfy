/**
  The handles of src/cpp_shared_ref/memory.hpp (`shared_ref`, `weak_ref`,
  `make_shared`, the four casts, `get_deleter`, `==`/`!=`).  The files
  src/cpp_shared_ref/shared_ref.hpp and weak_ref.hpp repeat the same code and
  are modelled by the same members.

  The C++ destructor of each handle becomes an explicit `Release` method.  A
  handle is live (`Valid`) when the block it holds is valid and lists it
  among its owners (strong) or observers (weak); each block's counts are the
  sizes of those ghost multisets, so every count is tied to the handles that
  hold it.
*/
module Memory {
  import opened Wrappers
  import opened Counting
  import opened ControlBlock

  /** `shared_ref<T>`: the stored pointer `ptr` (0 is null) and the block it
      shares ownership of (null for an empty `internal::ControlBlock`). */
  class SharedRef {
    var ptr: Addr
    var block: ControlBlockBase?

    /** A live strong handle: its block, if any, is valid and counts it as
        one of its owners. */
    ghost predicate Valid()
      reads this, block
    {
      block != null ==> block.Valid() && this in block.owners
    }

    /** `use_count()`: the block's strong count, 0 without a block.  For a
        live handle it is the number of strong handles on the block, this
        one included. */
    function UseCount(): (n: nat)
      reads this, block
      ensures block == null ==> n == 0
      ensures Valid() && block != null ==> n == |block.owners| && n >= 1
    {
      if block == null then 0
      else
        Member(block.owners, this);
        block.strong
    }

    /** `unique()`: for a live handle, true exactly when it is the only
        strong handle on its block. */
    function Unique(): (r: bool)
      reads this, block
      ensures Valid() ==> (r <==> block != null && block.owners == multiset{this})
    {
      if block == null then false
      else
        Member(block.owners, this);
        block.strong == 1
    }

    /** `operator bool`: tests the stored pointer, not the block, so a handle
        that owns a block may test false (see `NullWithDeleter`). */
    function IsTrue(): (r: bool)
      reads this
      ensures r <==> ptr != Null
    {
      ptr != Null
    }

    /** `get()`: the stored pointer, null exactly when the handle tests
        false. */
    function Get(): (p: Addr)
      reads this
      ensures p != Null <==> IsTrue()
    {
      ptr
    }

    /** A block held by a live strong handle still has its payload and has
        not been freed. */
    lemma OwnedBlockIsLive()
      requires Valid() && block != null
      ensures block.strong >= 1 && block.payloadLive && !block.freed
    {
      TakeOne(block.owners, this);
    }

    /** Two distinct live strong handles on one block make its count at
        least two, so one of them letting go never releases the payload. */
    lemma TwoOwners(other: SharedRef)
      requires Valid() && other.Valid() && other != this
      requires block == other.block && block != null
      ensures block.strong >= 2
    {
      HoldsTwo(block.owners, this, other);
    }

    /** The default and the `nullptr` constructors: no pointer, no block. */
    constructor ()
      ensures ptr == Null && block == null && Valid()
      ensures UseCount() == 0 && !IsTrue()
    {
      ptr, block := Null, null;
    }

    /** The copy constructor (also the converting one): share `other`'s
        block and pointer as one more strong owner. */
    constructor Copy(other: SharedRef)
      requires other.Valid()
      modifies other.block
      ensures Valid() && other.Valid()
      ensures ptr == other.ptr && block == other.block && Equal(this, other)
      ensures block != null ==> block.State() == AcquireStrong(old(other.block.State()))
      ensures block != null ==> block.owners == old(other.block.owners) + multiset{this}
      ensures block != null ==> block.observers == old(other.block.observers)
    {
      ptr, block := other.ptr, other.block;
      new;
      if block != null {
        other.OwnedBlockIsLive();
        block.AddOwner(this);
      }
    }

    /** The aliasing constructor: share `other`'s block but store `p`. */
    constructor Alias(other: SharedRef, p: Addr)
      requires other.Valid()
      modifies other.block
      ensures Valid() && other.Valid()
      ensures ptr == p && block == other.block
      ensures Equal(this, other) <==> p == other.ptr
      ensures block != null ==> block.State() == AcquireStrong(old(other.block.State()))
      ensures block != null ==> block.owners == old(other.block.owners) + multiset{this}
      ensures block != null ==> block.observers == old(other.block.observers)
    {
      ptr, block := p, other.block;
      new;
      if block != null {
        other.OwnedBlockIsLive();
        block.AddOwner(this);
      }
    }

    /** The move constructor (also the converting one): take `other`'s
        pointer and block without touching any count; `other` becomes empty. */
    constructor Move(other: SharedRef)
      requires other.Valid()
      modifies other, other.block
      ensures Valid() && other.Valid()
      ensures ptr == old(other.ptr) && block == old(other.block)
      ensures other.ptr == Null && other.block == null
      ensures block != null ==> block.State() == old(other.block.State())
      ensures block != null ==> block.owners == old(other.block.owners) - multiset{other} + multiset{this}
      ensures block != null ==> block.observers == old(other.block.observers)
    {
      ptr, block := other.ptr, other.block;
      new;
      if block != null {
        block.PassOwner(other, this);
      }
      other.ptr, other.block := Null, null;
    }

    /** `shared_ref(U*)`: manage `p`, which was created by `new`, through a
        new default block.  If allocating the block fails, `p` is deleted and
        the error is passed on. */
    static method FromPointer(p: Addr, allocFails: bool)
      returns (r: Result<SharedRef, Error>, cleanup: seq<ReleaseAction>)
      ensures allocFails <==> r.Err?
      ensures r.Err? ==> r.error == BadAlloc && cleanup == [DeleteObject(p)]
      ensures r.Ok? ==> fresh(r.value) && fresh(r.value.block) && r.value.Valid() && cleanup == []
      ensures r.Ok? ==> r.value.ptr == p && r.value.block.payload == Default(p)
      ensures r.Ok? ==> r.value.block.State() == Initial() && r.value.block.owners == multiset{r.value}
    {
      var h := new SharedRef();
      var nb;
      nb, cleanup := NewDefault(p, allocFails, h);
      if nb.Err? {
        r := Err(nb.error);
        return;
      }
      h.ptr, h.block := p, nb.value;
      r := Ok(h);
    }

    /** `shared_ref(U*, Deleter)`: manage `p` through a new block that
        destroys it with deleter `d`.  If allocating the block fails, the
        deleter is run on `p` and the error is passed on. */
    static method FromPointerWithDeleter(p: Addr, d: Deleter, allocFails: bool)
      returns (r: Result<SharedRef, Error>, cleanup: seq<ReleaseAction>)
      ensures allocFails <==> r.Err?
      ensures r.Err? ==> r.error == BadAlloc && cleanup == [RunDeleter(d, p)]
      ensures r.Ok? ==> fresh(r.value) && fresh(r.value.block) && r.value.Valid() && cleanup == []
      ensures r.Ok? ==> r.value.ptr == p && r.value.block.payload == Custom(p, d)
      ensures r.Ok? ==> r.value.block.State() == Initial() && r.value.block.owners == multiset{r.value}
    {
      var h := new SharedRef();
      var nb;
      nb, cleanup := NewWithDeleter(p, d, allocFails, h);
      if nb.Err? {
        r := Err(nb.error);
        return;
      }
      h.ptr, h.block := p, nb.value;
      r := Ok(h);
    }

    /** `shared_ref(nullptr, Deleter)`: a handle that owns a block (its use
        count is 1) although its stored pointer is null and it tests false. */
    static method NullWithDeleter(d: Deleter, allocFails: bool)
      returns (r: Result<SharedRef, Error>, cleanup: seq<ReleaseAction>)
      ensures allocFails <==> r.Err?
      ensures r.Err? ==> cleanup == [RunDeleter(d, Null)]
      ensures r.Ok? ==> fresh(r.value) && r.value.Valid() && cleanup == []
      ensures r.Ok? ==> !r.value.IsTrue() && r.value.UseCount() == 1 && r.value.block.payload == Custom(Null, d)
    {
      r, cleanup := FromPointerWithDeleter(Null, d, allocFails);
    }

    /** `shared_ref(const weak_ref<U>&)`: share the weak handle's block as a
        new strong owner, or fail with `bad_weak_ref` when it has expired. */
    static method FromWeak(w: WeakRef) returns (r: Result<SharedRef, Error>)
      requires w.Valid()
      modifies w.block
      ensures w.Valid()
      ensures r.Err? <==> old(w.Expired())
      ensures r.Err? ==> r.error == BadWeakRef && (w.block != null ==> w.block.State() == old(w.block.State()))
      ensures r.Ok? ==> fresh(r.value) && r.value.Valid() && r.value.ptr == w.ptr && r.value.block == w.block
      ensures r.Ok? ==> w.block.State() == AcquireStrong(old(w.block.State()))
      ensures r.Ok? ==> w.block.owners == old(w.block.owners) + multiset{r.value}
      ensures w.block != null ==> w.block.observers == old(w.block.observers)
    {
      if w.Expired() {
        r := Err(BadWeakRef);
        return;
      }
      var h := new SharedRef();
      h.Attach(w.ptr, w.block);
      r := Ok(h);
    }

    /** `destroy_this()`, run by the destructor and before every
        reassignment: drop one strong count; at zero null the pointer and
        release the payload, then free the block if no weak handle is left.
        Afterwards the block no longer counts this handle. */
    method Release()
      requires Valid()
      modifies this, block
      ensures old(block) != null ==> old(block).State() == ReleaseStrong(old(block.State()))
      ensures old(block) != null ==> old(block).Valid()
      ensures old(block) != null ==> old(block).owners == old(block.owners) - multiset{this}
      ensures old(block) != null ==> old(block).observers == old(block.observers)
      ensures old(block) != null ==>
        old(block).releaseLog == old(block.releaseLog) + (if old(block.strong) == 1 then [Destroy(old(block).payload)] else [])
      ensures ptr == if old(block) != null && old(block.strong) == 1 then Null else old(ptr)
      ensures block == if old(block) != null && old(block.strong) == 1 && old(block.weak) == 0 then null else old(block)
    {
      if block == null {
        return;
      }
      var released, disposed := block.DropOwner(this);
      if released {
        ptr := Null;
      }
      if disposed {
        block := null;
      }
    }

    /** `reset()` and `operator=(nullptr)`: release, then become empty. */
    method Reset()
      requires Valid()
      modifies this, block
      ensures Valid() && ptr == Null && block == null && UseCount() == 0
      ensures old(block) != null ==> old(block).State() == ReleaseStrong(old(block.State()))
      ensures old(block) != null ==> old(block).owners == old(block.owners) - multiset{this}
      ensures old(block) != null ==> old(block).observers == old(block.observers)
    {
      Release();
      ptr, block := Null, null;
    }

    /** Copy assignment (also the converting one): release, then share
        `other`'s block and pointer.  Assigning a handle to itself is a no-op
        here; the source as written runs the release first (see Findings). */
    method CopyAssign(other: SharedRef)
      requires Valid() && other.Valid()
      modifies this, block, other.block
      ensures Valid() && other.Valid()
      ensures ptr == old(other.ptr) && block == old(other.block)
      ensures old(block) == block && block != null ==>
        block.State() == old(block.State()) && block.owners == old(block.owners)
      ensures old(block) != block && old(block) != null ==>
        old(block).State() == ReleaseStrong(old(block.State())) &&
        old(block).owners == old(block.owners) - multiset{this}
      ensures old(block) != block && block != null ==>
        block.State() == AcquireStrong(old(other.block.State())) &&
        block.owners == old(other.block.owners) + multiset{this}
      ensures old(block) != null ==> old(block).observers == old(block.observers)
      ensures block != null ==> block.observers == old(other.block.observers)
    {
      if other == this {
        return;
      }
      var p, b := other.ptr, other.block;
      if b != null && b == block {
        TwoOwners(other);
        Reattach(p);
      } else {
        if b != null {
          other.OwnedBlockIsLive();
        }
        Switch(p, b);
      }
    }

    /** Move assignment (also the converting one): release, then take
        `other`'s pointer and block, leaving `other` empty.  As written, a
        handle moved into itself ends empty after releasing its count. */
    method MoveAssign(other: SharedRef)
      requires Valid() && other.Valid()
      modifies this, other, block, other.block
      ensures Valid() && other.Valid()
      ensures other.ptr == Null && other.block == null
      ensures other != this ==> ptr == old(other.ptr) && block == old(other.block)
      ensures other == this ==> ptr == Null && block == null
      ensures old(block) != null ==> old(block).State() == ReleaseStrong(old(block.State()))
      ensures other != this && old(other.block) != null && old(other.block) != old(block) ==>
        old(other.block).State() == old(other.block.State()) &&
        old(other.block).owners == old(other.block.owners) - multiset{other} + multiset{this}
      ensures old(block) != null && (other == this || old(other.block) != old(block)) ==>
        old(block).owners == old(block.owners) - multiset{this}
      ensures old(block) != null && other != this && old(other.block) == old(block) ==>
        old(block).owners == old(block.owners) - multiset{other}
      ensures old(block) != null ==> old(block).observers == old(block.observers)
      ensures old(other.block) != null ==> old(other.block).observers == old(other.block.observers)
    {
      if other == this {
        Reset();
      } else if other.block != null && other.block == block {
        TwoOwners(other);
        MoveWithin(other);
      } else {
        MoveAcross(other);
      }
    }

    /** `reset(U*)`: release, then manage `p` through a new default block.
        If allocating the block fails, `p` is deleted, the error is passed on
        and the handle is left empty (corrected; see Findings). */
    method ResetTo(p: Addr, allocFails: bool) returns (err: Option<Error>, cleanup: seq<ReleaseAction>)
      requires Valid()
      modifies this, block
      ensures Valid()
      ensures allocFails <==> err.Some?
      ensures err.Some? ==> err.value == BadAlloc && ptr == Null && block == null && cleanup == [DeleteObject(p)]
      ensures err.None? ==> ptr == p && fresh(block) && block.payload == Default(p) && cleanup == []
      ensures err.None? ==> block.State() == Initial() && block.owners == multiset{this}
      ensures old(block) != null ==> old(block).State() == ReleaseStrong(old(block.State()))
      ensures old(block) != null ==> old(block).owners == old(block.owners) - multiset{this}
      ensures old(block) != null ==> old(block).observers == old(block.observers)
    {
      Release();
      var nb;
      nb, cleanup := NewDefault(p, allocFails, this);
      if nb.Err? {
        ptr, block := Null, null;
        err := Some(nb.error);
        return;
      }
      ptr, block := p, nb.value;
      err := None;
    }

    /** `reset(U*, Deleter)`: as `ResetTo`, with a deleter block. */
    method ResetWithDeleter(p: Addr, d: Deleter, allocFails: bool) returns (err: Option<Error>, cleanup: seq<ReleaseAction>)
      requires Valid()
      modifies this, block
      ensures Valid()
      ensures allocFails <==> err.Some?
      ensures err.Some? ==> err.value == BadAlloc && ptr == Null && block == null && cleanup == [RunDeleter(d, p)]
      ensures err.None? ==> ptr == p && fresh(block) && block.payload == Custom(p, d) && cleanup == []
      ensures err.None? ==> block.State() == Initial() && block.owners == multiset{this}
      ensures old(block) != null ==> old(block).State() == ReleaseStrong(old(block.State()))
      ensures old(block) != null ==> old(block).owners == old(block.owners) - multiset{this}
      ensures old(block) != null ==> old(block).observers == old(block.observers)
    {
      Release();
      var nb;
      nb, cleanup := NewWithDeleter(p, d, allocFails, this);
      if nb.Err? {
        ptr, block := Null, null;
        err := Some(nb.error);
        return;
      }
      ptr, block := p, nb.value;
      err := None;
    }

    /** `swap()`: exchange pointers and blocks; no count changes. */
    method Swap(other: SharedRef)
      requires Valid() && other.Valid()
      modifies this, other, block, other.block
      ensures Valid() && other.Valid()
      ensures ptr == old(other.ptr) && block == old(other.block)
      ensures other.ptr == old(ptr) && other.block == old(block)
      ensures old(block) != null ==> old(block).State() == old(block.State())
      ensures old(other.block) != null ==> old(other.block).State() == old(other.block.State())
      ensures old(block) == old(other.block) && old(block) != null ==> old(block).owners == old(block.owners)
      ensures old(block) != old(other.block) && old(block) != null ==>
        old(block).owners == old(block.owners) - multiset{this} + multiset{other}
      ensures old(block) != old(other.block) && old(other.block) != null ==>
        old(other.block).owners == old(other.block.owners) - multiset{other} + multiset{this}
      ensures old(block) != null ==> old(block).observers == old(block.observers)
      ensures old(other.block) != null ==> old(other.block).observers == old(other.block.observers)
    {
      var p1, b1 := ptr, block;
      var p2, b2 := other.ptr, other.block;
      if b1 == b2 {
        ptr, other.ptr := p2, p1;
        return;
      }
      ptr, block := p2, b2;
      other.ptr, other.block := p1, b1;
      if b1 != null {
        b1.PassOwner(this, other);
      }
      if b2 != null {
        b2.PassOwner(other, this);
      }
    }

    /** Share block `b` with pointer `p` as one more strong owner: the body
        common to copying, aliasing, casting and promoting a weak handle. */
    method Attach(p: Addr, b: ControlBlockBase?)
      requires b != null ==> b.Valid() && b.strong > 0
      modifies this, b
      ensures Valid() && ptr == p && block == b
      ensures b != null ==> b.State() == AcquireStrong(old(b.State()))
      ensures b != null ==> b.owners == old(b.owners) + multiset{this} && b.observers == old(b.observers)
    {
      ptr, block := p, b;
      if b != null {
        b.AddOwner(this);
      }
    }

    /** Release, then share the same block again with pointer `p`: copy
        assignment between two owners of one block.  The count is at least
        two, so the release frees nothing and the re-acquire restores it. */
    method Reattach(p: Addr)
      requires Valid() && block != null && block.strong >= 2
      modifies this, block
      ensures Valid() && ptr == p && block == old(block)
      ensures block.State() == old(block.State())
      ensures block.owners == old(block.owners) && block.observers == old(block.observers)
    {
      var b := block;
      Release();
      Attach(p, b);
    }

    /** Release, then share a different block `b` with pointer `p`: copy
        assignment between owners of two blocks. */
    method Switch(p: Addr, b: ControlBlockBase?)
      requires Valid() && (b == null || b != block)
      requires b != null ==> b.Valid() && b.strong > 0
      modifies this, block, b
      ensures Valid() && ptr == p && block == b
      ensures old(block) != null ==>
        old(block).State() == ReleaseStrong(old(block.State())) &&
        old(block).owners == old(block.owners) - multiset{this} &&
        old(block).observers == old(block.observers)
      ensures b != null ==>
        b.State() == AcquireStrong(old(b.State())) &&
        b.owners == old(b.owners) + multiset{this} && b.observers == old(b.observers)
    {
      Release();
      Attach(p, b);
    }

    /** Move assignment between two handles on one block: the release
        leaves the count held by `other`, which passes to this handle. */
    method MoveWithin(other: SharedRef)
      requires Valid() && other.Valid() && other != this
      requires block != null && block == other.block && block.strong >= 2
      modifies this, other, block
      ensures Valid() && other.Valid()
      ensures ptr == old(other.ptr) && block == old(block)
      ensures other.ptr == Null && other.block == null
      ensures block.State() == ReleaseStrong(old(block.State()))
      ensures block.owners == old(block.owners) - multiset{other} && block.observers == old(block.observers)
    {
      Release();
      TakeFrom(other);
    }

    /** Move assignment between handles on different blocks (or none). */
    method MoveAcross(other: SharedRef)
      requires Valid() && other.Valid() && other != this
      requires other.block == null || other.block != block
      modifies this, other, block, other.block
      ensures Valid() && other.Valid()
      ensures ptr == old(other.ptr) && block == old(other.block)
      ensures other.ptr == Null && other.block == null
      ensures old(block) != null ==>
        old(block).State() == ReleaseStrong(old(block.State())) &&
        old(block).owners == old(block.owners) - multiset{this} &&
        old(block).observers == old(block.observers)
      ensures old(other.block) != null ==>
        old(other.block).State() == old(other.block.State()) &&
        old(other.block).owners == old(other.block.owners) - multiset{other} + multiset{this} &&
        old(other.block).observers == old(other.block.observers)
    {
      Release();
      TakeFrom(other);
    }

    /** Take `other`'s pointer and block and leave `other` empty; no count
        changes. */
    method TakeFrom(other: SharedRef)
      requires other != this && other.Valid()
      modifies this, other, other.block
      ensures Valid() && other.Valid()
      ensures ptr == old(other.ptr) && block == old(other.block)
      ensures other.ptr == Null && other.block == null
      ensures block != null ==> block.State() == old(other.block.State())
      ensures block != null ==> block.owners == old(other.block.owners) - multiset{other} + multiset{this}
      ensures block != null ==> block.observers == old(other.block.observers)
    {
      var p, b := other.ptr, other.block;
      ptr, block := p, b;
      other.ptr, other.block := Null, null;
      if b != null {
        b.PassOwner(other, this);
      }
    }
  }

  /** `make_shared<T>(args...)`: a handle that is the sole owner of a new
      in-place block, whose stored pointer is the embedded object.  `slot`
      is where the allocator puts that object. */
  method MakeShared(slot: Addr, allocFails: bool) returns (r: Result<SharedRef, Error>)
    requires slot != Null
    ensures allocFails <==> r.Err?
    ensures r.Err? ==> r.error == BadAlloc
    ensures r.Ok? ==> fresh(r.value) && fresh(r.value.block) && r.value.Valid()
    ensures r.Ok? ==> r.value.ptr == slot && r.value.block.payload == InPlace(slot)
    ensures r.Ok? ==> r.value.UseCount() == 1 && r.value.block.State() == Initial()
  {
    var h := new SharedRef();
    var nb, q := NewInPlace(slot, h.ptr, allocFails, h);
    if nb.Err? {
      r := Err(nb.error);
      return;
    }
    h.ptr, h.block := q, nb.value;
    r := Ok(h);
  }

  /** `static_ref_cast`, `const_ref_cast` and `reinterpret_ref_cast`: an
      aliasing handle on `ref`'s block storing the converted pointer.
      `convert` stands for the C++ cast on addresses. */
  method PointerCast(ref: SharedRef, convert: Addr -> Addr) returns (r: SharedRef)
    requires ref.Valid() && convert(Null) == Null
    modifies ref.block
    ensures fresh(r) && r.Valid() && ref.Valid()
    ensures r.ptr == convert(ref.ptr) && r.block == ref.block
    ensures !ref.IsTrue() ==> !r.IsTrue()
    ensures Equal(r, ref) <==> convert(ref.ptr) == ref.ptr
    ensures r.block != null ==> r.block.State() == AcquireStrong(old(ref.block.State()))
    ensures r.block != null ==> r.block.owners == old(ref.block.owners) + multiset{r}
    ensures r.block != null ==> r.block.observers == old(ref.block.observers)
  {
    r := new SharedRef.Alias(ref, convert(ref.ptr));
  }

  /** `dynamic_ref_cast`: as `PointerCast`, but a failed cast (null result)
      gives an empty handle and leaves every count alone. */
  method DynamicCast(ref: SharedRef, convert: Addr -> Addr) returns (r: SharedRef)
    requires ref.Valid() && convert(Null) == Null
    modifies ref.block
    ensures fresh(r) && r.Valid() && ref.Valid()
    ensures !ref.IsTrue() ==> r.ptr == Null && r.block == null
    ensures convert(ref.ptr) == Null ==> r.ptr == Null && r.block == null && r.UseCount() == 0
    ensures convert(ref.ptr) == Null && ref.block != null ==> ref.block.State() == old(ref.block.State())
    ensures convert(ref.ptr) != Null ==> r.ptr == convert(ref.ptr) && r.block == ref.block
    ensures convert(ref.ptr) != Null && r.block != null ==>
      r.block.State() == AcquireStrong(old(ref.block.State())) &&
      r.block.owners == old(ref.block.owners) + multiset{r}
    ensures convert(ref.ptr) == Null && ref.block != null ==> ref.block.owners == old(ref.block.owners)
    ensures ref.block != null ==> ref.block.observers == old(ref.block.observers)
  {
    var p := convert(ref.ptr);
    if p == Null {
      r := new SharedRef();
    } else {
      r := new SharedRef.Alias(ref, p);
    }
  }

  /** `get_deleter<D>(ref)`: the deleter of `ref`'s block when its type is
      `ty`.  The source reads the block without checking it, so the handle
      must hold one. */
  function DeleterOf(ref: SharedRef, ty: TypeToken): (r: Option<Deleter>)
    requires ref.block != null
    reads ref
    ensures r.Some? <==> ref.block.payload.Custom? && ref.block.payload.deleter.ty == ty
    ensures r.Some? ==> r.value == ref.block.payload.deleter
  {
    GetDeleter(ref.block.payload, ty)
  }

  /** `operator==` on two strong handles: the stored pointers agree, whatever
      the blocks. */
  function Equal(a: SharedRef, b: SharedRef): (r: bool)
    reads a, b
    ensures r <==> a.Get() == b.Get()
    ensures a == b ==> r
    ensures r ==> (a.IsTrue() <==> b.IsTrue())
  {
    a.ptr == b.ptr
  }

  /** `==` is an equivalence on handles that looks only at stored pointers:
      two handles on different blocks are equal when their pointers are,
      and two handles sharing one block differ when their pointers do (as
      after an aliasing constructor or a cast). */
  lemma EqualComparesPointersOnly(a: SharedRef, b: SharedRef, c: SharedRef)
    ensures Equal(a, b) ==> Equal(b, a)
    ensures Equal(a, b) && Equal(b, c) ==> Equal(a, c)
    ensures a.block != b.block && a.ptr == b.ptr ==> Equal(a, b)
    ensures a.block == b.block && a.ptr != b.ptr ==> !Equal(a, b)
  {
  }

  /** `operator!=`: the negation of `operator==`. */
  function NotEqual(a: SharedRef, b: SharedRef): (r: bool)
    reads a, b
    ensures r <==> !Equal(a, b)
  {
    a.ptr != b.ptr
  }

  /** `weak_ref<T>`: the stored pointer and the block it observes. */
  class WeakRef {
    var ptr: Addr
    var block: ControlBlockBase?

    /** A live weak handle: its block, if any, is valid and counts it as
        one of its observers. */
    ghost predicate Valid()
      reads this, block
    {
      block != null ==> block.Valid() && this in block.observers
    }

    /** `use_count()`: the strong count of the observed block, which for a
        live weak handle is the number of strong handles on it. */
    function UseCount(): (n: nat)
      reads this, block
      ensures block == null ==> n == 0
      ensures Valid() && block != null ==> n == |block.owners|
    {
      if block == null then 0 else block.strong
    }

    /** `expired()`: for a live weak handle, true exactly when no strong
        handle is left on the block, and then the object is gone. */
    function Expired(): (r: bool)
      reads this, block
      ensures Valid() ==> (r <==> block == null || block.owners == multiset{})
      ensures Valid() && block != null && r ==> !block.payloadLive
    {
      UseCount() == 0
    }

    /** A block observed by a live weak handle has not been freed. */
    lemma ObservedBlockNotFreed()
      requires Valid() && block != null
      ensures block.weak >= 1 && !block.freed
    {
      TakeOne(block.observers, this);
    }

    /** Two distinct live weak handles on one block make its weak count at
        least two. */
    lemma TwoObservers(other: WeakRef)
      requires Valid() && other.Valid() && other != this
      requires block == other.block && block != null
      ensures block.weak >= 2
    {
      HoldsTwo(block.observers, this, other);
    }

    /** The default and the `nullptr` constructors. */
    constructor ()
      ensures ptr == Null && block == null && Valid() && Expired()
    {
      ptr, block := Null, null;
    }

    /** `weak_ref(const shared_ref&)`: observe the strong handle's block. */
    constructor FromShared(s: SharedRef)
      requires s.Valid()
      modifies s.block
      ensures Valid() && s.Valid()
      ensures ptr == s.ptr && block == s.block && UseCount() == s.UseCount()
      ensures block != null ==> block.State() == AcquireWeak(old(s.block.State()))
      ensures block != null ==> block.observers == old(s.block.observers) + multiset{this}
      ensures block != null ==> block.owners == old(s.block.owners)
    {
      ptr, block := s.ptr, s.block;
      new;
      if block != null {
        s.OwnedBlockIsLive();
        block.AddObserver(this);
      }
    }

    /** The copy constructor: observe `other`'s block as well. */
    constructor Copy(other: WeakRef)
      requires other.Valid()
      modifies other.block
      ensures Valid() && other.Valid()
      ensures ptr == other.ptr && block == other.block
      ensures block != null ==> block.State() == AcquireWeak(old(other.block.State()))
      ensures block != null ==> block.observers == old(other.block.observers) + multiset{this}
      ensures block != null ==> block.owners == old(other.block.owners)
    {
      ptr, block := other.ptr, other.block;
      new;
      if block != null {
        other.ObservedBlockNotFreed();
        block.AddObserver(this);
      }
    }

    /** The move constructor: take `other`'s pointer and block. */
    constructor Move(other: WeakRef)
      requires other.Valid()
      modifies other, other.block
      ensures Valid() && other.Valid()
      ensures ptr == old(other.ptr) && block == old(other.block)
      ensures other.ptr == Null && other.block == null
      ensures block != null ==> block.State() == old(other.block.State())
      ensures block != null ==> block.observers == old(other.block.observers) - multiset{other} + multiset{this}
      ensures block != null ==> block.owners == old(other.block.owners)
    {
      ptr, block := other.ptr, other.block;
      new;
      if block != null {
        block.PassObserver(other, this);
      }
      other.ptr, other.block := Null, null;
    }

    /** `destroy_this()`: drop one weak count, and free the block when no
        handle of either kind is left.  The stored pointer is kept. */
    method Release()
      requires Valid()
      modifies this, block
      ensures old(block) != null ==> old(block).State() == ReleaseWeak(old(block.State()))
      ensures old(block) != null ==> old(block).Valid()
      ensures old(block) != null ==> old(block).observers == old(block.observers) - multiset{this}
      ensures old(block) != null ==> old(block).owners == old(block.owners)
      ensures old(block) != null ==> old(block).releaseLog == old(block.releaseLog)
      ensures ptr == old(ptr)
      ensures block == if old(block) != null && old(block.weak) == 1 && old(block.strong) == 0 then null else old(block)
    {
      if block == null {
        return;
      }
      var disposed := block.DropObserver(this);
      if disposed {
        block := null;
      }
    }

    /** `reset()` and `operator=(nullptr)`: release, then become empty. */
    method Reset()
      requires Valid()
      modifies this, block
      ensures Valid() && ptr == Null && block == null && Expired()
      ensures old(block) != null ==> old(block).State() == ReleaseWeak(old(block.State()))
      ensures old(block) != null ==> old(block).observers == old(block.observers) - multiset{this}
      ensures old(block) != null ==> old(block).owners == old(block.owners)
    {
      Release();
      ptr, block := Null, null;
    }

    /** `operator=(const shared_ref&)`: release, then observe `s`'s block. */
    method AssignShared(s: SharedRef)
      requires Valid() && s.Valid()
      modifies this, block, s.block
      ensures Valid() && s.Valid()
      ensures ptr == s.ptr && block == s.block
      ensures old(block) == block && block != null ==>
        block.State() == old(block.State()) && block.observers == old(block.observers)
      ensures old(block) != block && old(block) != null ==>
        old(block).State() == ReleaseWeak(old(block.State())) &&
        old(block).observers == old(block.observers) - multiset{this}
      ensures old(block) != block && block != null ==>
        block.State() == AcquireWeak(old(s.block.State())) &&
        block.observers == old(s.block.observers) + multiset{this}
      ensures old(block) != null ==> old(block).owners == old(block.owners)
      ensures block != null ==> block.owners == old(s.block.owners)
    {
      if s.block != null {
        s.OwnedBlockIsLive();
      }
      if s.block != null && s.block == block {
        Reattach(s.ptr);
      } else {
        Switch(s.ptr, s.block);
      }
    }

    /** `w = w` as written: the release runs first and the handle then
        re-reads its own fields.  The block survives with its counts and
        observers as before, unless this was the last weak handle of an
        expired block: then the release freed it and the handle ends empty,
        which is no change a caller can observe (it was expired before). */
    method ReassignSelf()
      requires Valid()
      modifies this, block
      ensures Valid() && ptr == old(ptr)
      ensures block == if old(block) != null && old(block.strong) == 0 && old(block.weak) == 1 then null else old(block)
      ensures block != null ==>
        block.State() == old(block.State()) &&
        block.observers == old(block.observers) && block.owners == old(block.owners)
      ensures old(block) != null && block == null ==>
        old(block).State() == ReleaseWeak(old(block.State())) &&
        old(block).observers == old(block.observers) - multiset{this} &&
        old(block).owners == old(block.owners)
    {
      ghost var m := if block == null then multiset{} else block.observers;
      Release();
      if block != null {
        block.AddObserver(this);
        assert block.observers == m by {
          TakeOne(m, this);
        }
      }
    }

    /** Copy assignment: release, then observe `other`'s block.  Assigned to
        itself, the handle keeps its block unless the release freed it. */
    method CopyAssign(other: WeakRef)
      requires Valid() && other.Valid()
      modifies this, block, other.block
      ensures Valid() && other.Valid()
      ensures ptr == old(other.ptr)
      ensures block ==
        if other == this && old(block) != null && old(block.strong) == 0 && old(block.weak) == 1 then null
        else old(other.block)
      ensures old(block) == block && block != null ==>
        block.State() == old(block.State()) && block.observers == old(block.observers)
      ensures old(block) != block && old(block) != null ==>
        old(block).State() == ReleaseWeak(old(block.State())) &&
        old(block).observers == old(block.observers) - multiset{this}
      ensures old(block) != block && block != null ==>
        block.State() == AcquireWeak(old(other.block.State())) &&
        block.observers == old(other.block.observers) + multiset{this}
      ensures old(block) != null ==> old(block).owners == old(block.owners)
      ensures block != null ==> block.owners == old(other.block.owners)
    {
      if other == this {
        ReassignSelf();
        return;
      }
      var p, b := other.ptr, other.block;
      if b != null && b == block {
        TwoObservers(other);
        Reattach(p);
      } else {
        if b != null {
          other.ObservedBlockNotFreed();
        }
        Switch(p, b);
      }
    }

    /** Move assignment: release, then take `other`'s pointer and block,
        leaving `other` empty; moved into itself, the handle ends empty. */
    method MoveAssign(other: WeakRef)
      requires Valid() && other.Valid()
      modifies this, other, block, other.block
      ensures Valid() && other.Valid()
      ensures other.ptr == Null && other.block == null
      ensures other != this ==> ptr == old(other.ptr) && block == old(other.block)
      ensures other == this ==> ptr == Null && block == null
      ensures old(block) != null ==> old(block).State() == ReleaseWeak(old(block.State()))
      ensures other != this && old(other.block) != null && old(other.block) != old(block) ==>
        old(other.block).State() == old(other.block.State()) &&
        old(other.block).observers == old(other.block.observers) - multiset{other} + multiset{this}
      ensures old(block) != null && (other == this || old(other.block) != old(block)) ==>
        old(block).observers == old(block.observers) - multiset{this}
      ensures old(block) != null && other != this && old(other.block) == old(block) ==>
        old(block).observers == old(block.observers) - multiset{other}
      ensures old(block) != null ==> old(block).owners == old(block.owners)
      ensures old(other.block) != null ==> old(other.block).owners == old(other.block.owners)
    {
      if other == this {
        Reset();
      } else if other.block != null && other.block == block {
        TwoObservers(other);
        MoveWithin(other);
      } else {
        MoveAcross(other);
      }
    }

    /** `lock()`: a new strong handle on the observed block, or an empty
        one when the object has expired. */
    method Lock() returns (r: SharedRef)
      requires Valid()
      modifies block
      ensures Valid() && r.Valid() && fresh(r)
      ensures old(Expired()) ==> r.ptr == Null && r.block == null
      ensures old(Expired()) && block != null ==> block.State() == old(block.State())
      ensures old(Expired()) && block != null ==> block.owners == old(block.owners)
      ensures !old(Expired()) ==> r.ptr == ptr && r.block == block
      ensures !old(Expired()) ==> block.State() == AcquireStrong(old(block.State()))
      ensures !old(Expired()) ==> block.owners == old(block.owners) + multiset{r}
      ensures block != null ==> block.observers == old(block.observers)
    {
      r := new SharedRef();
      if !Expired() {
        r.Attach(ptr, block);
      }
    }

    /** `swap()`: exchange pointers and blocks; no count changes. */
    method Swap(other: WeakRef)
      requires Valid() && other.Valid()
      modifies this, other, block, other.block
      ensures Valid() && other.Valid()
      ensures ptr == old(other.ptr) && block == old(other.block)
      ensures other.ptr == old(ptr) && other.block == old(block)
      ensures old(block) != null ==> old(block).State() == old(block.State())
      ensures old(other.block) != null ==> old(other.block).State() == old(other.block.State())
      ensures old(block) == old(other.block) && old(block) != null ==> old(block).observers == old(block.observers)
      ensures old(block) != old(other.block) && old(block) != null ==>
        old(block).observers == old(block.observers) - multiset{this} + multiset{other}
      ensures old(block) != old(other.block) && old(other.block) != null ==>
        old(other.block).observers == old(other.block.observers) - multiset{other} + multiset{this}
      ensures old(block) != null ==> old(block).owners == old(block.owners)
      ensures old(other.block) != null ==> old(other.block).owners == old(other.block.owners)
    {
      var p1, b1 := ptr, block;
      var p2, b2 := other.ptr, other.block;
      if b1 == b2 {
        ptr, other.ptr := p2, p1;
        return;
      }
      ptr, block := p2, b2;
      other.ptr, other.block := p1, b1;
      if b1 != null {
        b1.PassObserver(this, other);
      }
      if b2 != null {
        b2.PassObserver(other, this);
      }
    }

    /** Observe block `b` with pointer `p`: one more weak count. */
    method Attach(p: Addr, b: ControlBlockBase?)
      requires b != null ==> b.Valid() && !b.freed
      modifies this, b
      ensures Valid() && ptr == p && block == b
      ensures b != null ==> b.State() == AcquireWeak(old(b.State()))
      ensures b != null ==> b.observers == old(b.observers) + multiset{this} && b.owners == old(b.owners)
    {
      ptr, block := p, b;
      if b != null {
        b.AddObserver(this);
      }
    }

    /** Release, then observe the same block again with pointer `p`.  The
        block keeps another handle, so the release frees nothing and the
        re-acquire restores the weak count. */
    method Reattach(p: Addr)
      requires Valid() && block != null && (block.strong > 0 || block.weak >= 2)
      modifies this, block
      ensures Valid() && ptr == p && block == old(block)
      ensures block.State() == old(block.State())
      ensures block.owners == old(block.owners) && block.observers == old(block.observers)
    {
      var b := block;
      Release();
      Attach(p, b);
    }

    /** Release, then observe a different block `b` with pointer `p`. */
    method Switch(p: Addr, b: ControlBlockBase?)
      requires Valid() && (b == null || b != block)
      requires b != null ==> b.Valid() && !b.freed
      modifies this, block, b
      ensures Valid() && ptr == p && block == b
      ensures old(block) != null ==>
        old(block).State() == ReleaseWeak(old(block.State())) &&
        old(block).observers == old(block.observers) - multiset{this} &&
        old(block).owners == old(block.owners)
      ensures b != null ==>
        b.State() == AcquireWeak(old(b.State())) &&
        b.observers == old(b.observers) + multiset{this} && b.owners == old(b.owners)
    {
      Release();
      Attach(p, b);
    }

    /** Move assignment between two handles on one block: the release
        leaves the count held by `other`, which passes to this handle. */
    method MoveWithin(other: WeakRef)
      requires Valid() && other.Valid() && other != this
      requires block != null && block == other.block && block.weak >= 2
      modifies this, other, block
      ensures Valid() && other.Valid()
      ensures ptr == old(other.ptr) && block == old(block)
      ensures other.ptr == Null && other.block == null
      ensures block.State() == ReleaseWeak(old(block.State()))
      ensures block.observers == old(block.observers) - multiset{other} && block.owners == old(block.owners)
    {
      Release();
      TakeFrom(other);
    }

    /** Move assignment between handles on different blocks (or none). */
    method MoveAcross(other: WeakRef)
      requires Valid() && other.Valid() && other != this
      requires other.block == null || other.block != block
      modifies this, other, block, other.block
      ensures Valid() && other.Valid()
      ensures ptr == old(other.ptr) && block == old(other.block)
      ensures other.ptr == Null && other.block == null
      ensures old(block) != null ==>
        old(block).State() == ReleaseWeak(old(block.State())) &&
        old(block).observers == old(block.observers) - multiset{this} &&
        old(block).owners == old(block.owners)
      ensures old(other.block) != null ==>
        old(other.block).State() == old(other.block.State()) &&
        old(other.block).observers == old(other.block.observers) - multiset{other} + multiset{this} &&
        old(other.block).owners == old(other.block.owners)
    {
      Release();
      TakeFrom(other);
    }

    /** Take `other`'s pointer and block and leave `other` empty; no count
        changes. */
    method TakeFrom(other: WeakRef)
      requires other != this && other.Valid()
      modifies this, other, other.block
      ensures Valid() && other.Valid()
      ensures ptr == old(other.ptr) && block == old(other.block)
      ensures other.ptr == Null && other.block == null
      ensures block != null ==> block.State() == old(other.block.State())
      ensures block != null ==> block.observers == old(other.block.observers) - multiset{other} + multiset{this}
      ensures block != null ==> block.owners == old(other.block.owners)
    {
      var p, b := other.ptr, other.block;
      ptr, block := p, b;
      other.ptr, other.block := Null, null;
      if b != null {
        b.PassObserver(other, this);
      }
    }
  }
}
