/**
  The earlier handles of src/shared_ref/: `SharedRef` and `WeakRef` over a
  block of two bare counters (`ref_count`, starting at 1, and `weak_count`,
  starting at 0).  There is no payload variant and no deleter: the handle
  that drops the last strong count deletes its own object pointer.

  The strong release follows the same rule as the current code
  (Counting.ReleaseStrong), but the weak release only decrements
  `weak_count` and never frees the block; `ReleaseWeakAsWritten` states that
  rule and `WeakReleaseAsWrittenLeaks` contrasts it with
  Counting.ReleaseWeak.
*/
module Legacy {
  import opened Counting
  import opened ControlBlock

  /** The legacy weak release: one weak count less, and nothing else, so the
      block is never freed by a weak handle. */
  function ReleaseWeakAsWritten(s: BlockState): (r: BlockState)
    requires s.weak > 0
    ensures r.weak == s.weak - 1 && r.strong == s.strong
    ensures r.freed == s.freed && r.frees == s.frees
    ensures r.payloadLive == s.payloadLive && r.releases == s.releases
  {
    s.(weak := s.weak - 1)
  }

  /** What the legacy block keeps: the object is alive exactly while a strong
      count is left and has been deleted once otherwise, and a freed block
      has no count left.  Unlike Counting.Coherent, a block whose counts are
      both zero may still be allocated. */
  predicate Sound(s: BlockState)
  {
    && (s.payloadLive <==> s.strong > 0)
    && (s.freed ==> s.strong == 0 && s.weak == 0)
    && s.releases == (if s.payloadLive then 0 else 1)
    && s.frees == (if s.freed then 1 else 0)
  }

  /** The strong release keeps a legacy block sound: the object goes at
      the last strong handle, and the block goes with it only when no weak
      handle is left. */
  lemma ReleaseStrongKeepsSound(s: BlockState)
    requires Sound(s) && s.strong > 0
    ensures Sound(ReleaseStrong(s))
    ensures ReleaseStrong(s).payloadLive <==> s.strong > 1
    ensures ReleaseStrong(s).freed <==> s.strong == 1 && s.weak == 0
  {
  }

  /** The legacy weak release keeps the block sound too, although it may
      leave both counts at zero on a block that is never freed. */
  lemma ReleaseWeakAsWrittenKeepsSound(s: BlockState)
    requires Sound(s) && s.weak > 0
    ensures Sound(ReleaseWeakAsWritten(s))
  {
  }

  /** Once the last strong handle is gone while one weak handle is left, the
      legacy weak release leaves a block with both counts at zero that is
      never freed (a leak), where the current rule frees it.  The first
      ensures shows such a state is reached by a weak copy followed by the
      last strong release. */
  lemma WeakReleaseAsWrittenLeaks(s: BlockState)
    requires Coherent(s) && s.strong == 0 && s.weak == 1
    ensures Run(Initial(), [CopyWeak, DropStrong]).Some? &&
            Run(Initial(), [CopyWeak, DropStrong]).value.strong == 0 &&
            Run(Initial(), [CopyWeak, DropStrong]).value.weak == 1
    ensures var t := ReleaseWeakAsWritten(s); t.strong == 0 && t.weak == 0 && !t.freed && !Coherent(t)
    ensures ReleaseWeak(s).freed && ReleaseWeak(s).frees == 1 && Coherent(ReleaseWeak(s))
  {
    ReleaseWeakSpec(s);
  }

  /** Copy assignment of a legacy handle to itself as written: the release
      keeps the block pointer even when it deletes the block, so the
      increment that follows always lands on it. */
  function CopyAssignSelfAsWritten(s: BlockState): (r: BlockState)
    requires s.strong > 0
    ensures r.strong == s.strong && r.weak == s.weak
    ensures r.freed <==> s.freed || (s.strong == 1 && s.weak == 0)
  {
    var t := ReleaseStrong(s);
    t.(strong := t.strong + 1)
  }

  /** For the sole owner with no weak handle, `p = p` deletes the object and
      the block, then writes a count of one into the deleted block. */
  lemma CopyAssignSelfWritesFreedBlock()
    ensures var t := CopyAssignSelfAsWritten(Initial());
      t.freed && t.strong == 1 && !t.payloadLive && !Sound(t)
  {
    assert ReleaseStrong(Initial()) == BlockState(0, 0, false, true, 1, 1);
  }

  /** `internal::ControlBlock`: the two counters, with ghost bookkeeping of
      the object they guard (`target`), whether it has been deleted, whether
      the block has been freed, and the live handles of each kind. */
  class Block {
    var refCount: nat
    var weakCount: nat
    ghost const target: Addr
    ghost var objectLive: bool
    ghost var freed: bool
    ghost var deleted: seq<Addr>
    ghost var frees: nat
    ghost var owners: multiset<object>
    ghost var observers: multiset<object>

    ghost function State(): BlockState
      reads this
    {
      BlockState(refCount, weakCount, objectLive, freed, |deleted|, frees)
    }

    /** The counts are sound, the object has been deleted (once) exactly
        when it is no longer alive, and each count is the number of live
        handles of its kind. */
    ghost predicate Valid()
      reads this
    {
      && Sound(State())
      && deleted == (if objectLive then [] else [target])
      && refCount == |owners| && weakCount == |observers|
    }

    /** `new internal::ControlBlock` for the object at `target`, held by
        `owner`: `ref_count` 1, `weak_count` 0. */
    constructor (ghost target: Addr, ghost owner: object)
      ensures this.target == target && State() == Initial() && Valid()
      ensures owners == multiset{owner} && observers == multiset{} && deleted == []
    {
      this.target := target;
      refCount, weakCount := 1, 0;
      objectLive, freed := true, false;
      deleted, frees := [], 0;
      owners, observers := multiset{owner}, multiset{};
    }

    /** `delete object_pointer`, run by the last strong handle. */
    method DeleteObject()
      requires objectLive
      modifies this
      ensures !objectLive && deleted == old(deleted) + [target]
      ensures refCount == old(refCount) && weakCount == old(weakCount)
      ensures freed == old(freed) && frees == old(frees)
      ensures owners == old(owners) && observers == old(observers)
    {
      objectLive := false;
      deleted := deleted + [target];
    }

    /** `delete block`. */
    method FreeBlock()
      requires !freed
      modifies this
      ensures freed && frees == old(frees) + 1
      ensures refCount == old(refCount) && weakCount == old(weakCount)
      ensures objectLive == old(objectLive) && deleted == old(deleted)
      ensures owners == old(owners) && observers == old(observers)
    {
      freed, frees := true, frees + 1;
    }

    /** `ref_count++` for a new strong handle `h`. */
    method AddOwner(ghost h: object)
      requires Valid() && refCount > 0
      modifies this
      ensures Valid() && State() == AcquireStrong(old(State()))
      ensures owners == old(owners) + multiset{h} && observers == old(observers)
      ensures deleted == old(deleted)
    {
      refCount := refCount + 1;
      owners := owners + multiset{h};
    }

    /** The block side of `SharedRef::destroy_this()` for handle `h`: one
        strong count less; at zero the object is deleted and, when
        `weak_count` is zero too, the block is deleted. */
    method DropOwner(ghost h: object) returns (released: bool, disposed: bool)
      requires Valid() && h in owners
      modifies this
      ensures Valid() && State() == ReleaseStrong(old(State()))
      ensures owners == old(owners) - multiset{h} && observers == old(observers)
      ensures released <==> old(refCount) == 1
      ensures disposed <==> old(refCount) == 1 && old(weakCount) == 0
      ensures deleted == old(deleted) + (if released then [target] else [])
    {
      ghost var s0 := State();
      TakeOne(owners, h);
      refCount := refCount - 1;
      owners := owners - multiset{h};
      released, disposed := false, false;
      if refCount == 0 {
        DeleteObject();
        released := true;
        if weakCount == 0 {
          FreeBlock();
          disposed := true;
        }
      }
      assert State() == ReleaseStrong(s0);
      ReleaseStrongKeepsSound(s0);
    }

    /** `weak_count++` for a new weak handle `w`. */
    method AddObserver(ghost w: object)
      requires Valid() && (refCount > 0 || weakCount > 0)
      modifies this
      ensures Valid() && State() == AcquireWeak(old(State()))
      ensures observers == old(observers) + multiset{w} && owners == old(owners)
      ensures deleted == old(deleted)
    {
      weakCount := weakCount + 1;
      observers := observers + multiset{w};
    }

    /** The block side of `WeakRef::destroy_this()`: `weak_count--` and
        nothing more. */
    method DropObserver(ghost w: object)
      requires Valid() && w in observers
      modifies this
      ensures Valid() && State() == ReleaseWeakAsWritten(old(State()))
      ensures observers == old(observers) - multiset{w} && owners == old(owners)
      ensures deleted == old(deleted)
    {
      TakeOne(observers, w);
      weakCount := weakCount - 1;
      observers := observers - multiset{w};
    }

    /** A move hands the strong count held by `h` over to `g`. */
    ghost method PassOwner(h: object, g: object)
      requires Valid() && h in owners
      modifies this
      ensures Valid() && owners == old(owners) - multiset{h} + multiset{g}
      ensures State() == old(State()) && observers == old(observers) && deleted == old(deleted)
    {
      TakeOne(owners, h);
      owners := owners - multiset{h} + multiset{g};
    }

    /** A move hands the weak count held by `w` over to `v`. */
    ghost method PassObserver(w: object, v: object)
      requires Valid() && w in observers
      modifies this
      ensures Valid() && observers == old(observers) - multiset{w} + multiset{v}
      ensures State() == old(State()) && owners == old(owners) && deleted == old(deleted)
    {
      TakeOne(observers, w);
      observers := observers - multiset{w} + multiset{v};
    }
  }

  /** The earlier `SharedRef<T>`: a block and an object pointer. */
  class SharedRef {
    var block: Block?
    var objectPointer: Addr

    /** A live strong handle: its block is valid, counts it among its owners
        and guards the object it points to. */
    ghost predicate Valid()
      reads this, block
    {
      block != null ==> block.Valid() && this in block.owners && objectPointer == block.target
    }

    /** `use_count()`: `ref_count`, or 0 without a block.  For a live handle
        it is the number of strong handles on the block, this one included. */
    function UseCount(): (n: nat)
      reads this, block
      ensures block == null ==> n == 0
      ensures Valid() && block != null ==> n == |block.owners| && n >= 1
    {
      if block == null then 0
      else
        Member(block.owners, this);
        block.refCount
    }

    /** `operator bool`: tests the object pointer, which for a live handle
        with a block is the object that block guards. */
    function IsTrue(): (r: bool)
      reads this, block
      ensures r <==> objectPointer != Null
      ensures Valid() && block != null ==> (r <==> block.target != Null)
    {
      objectPointer != Null
    }

    /** `get()`: the object pointer, the guarded object for a live handle
        with a block. */
    function Get(): (p: Addr)
      reads this, block
      ensures p != Null <==> IsTrue()
      ensures Valid() && block != null ==> p == block.target
    {
      objectPointer
    }

    /** A block held by a live strong handle still has its object and has
        not been freed. */
    lemma OwnedBlockIsLive()
      requires Valid() && block != null
      ensures block.refCount >= 1 && block.objectLive && !block.freed
    {
      TakeOne(block.owners, this);
    }

    /** Two distinct live strong handles on one block make `ref_count` at
        least two. */
    lemma TwoOwners(other: SharedRef)
      requires Valid() && other.Valid() && other != this
      requires block == other.block && block != null
      ensures block.refCount >= 2
    {
      HoldsTwo(block.owners, this, other);
    }

    /** The default and the `nullptr` constructors. */
    constructor ()
      ensures block == null && objectPointer == Null && Valid() && UseCount() == 0
    {
      block, objectPointer := null, Null;
    }

    /** `SharedRef(T*)`: manage `p` through a new block (`ref_count` 1),
        even when `p` is null. */
    constructor FromPointer(p: Addr)
      ensures Valid() && objectPointer == p && fresh(block)
      ensures block.State() == Initial() && block.owners == multiset{this} && UseCount() == 1
    {
      objectPointer := p;
      new;
      block := new Block(p, this);
    }

    /** The copy constructor: one more strong count on `other`'s block. */
    constructor Copy(other: SharedRef)
      requires other.Valid()
      modifies other.block
      ensures Valid() && other.Valid()
      ensures block == other.block && objectPointer == other.objectPointer
      ensures block != null ==> block.State() == AcquireStrong(old(other.block.State()))
      ensures block != null ==> block.owners == old(other.block.owners) + multiset{this}
      ensures block != null ==> block.observers == old(other.block.observers)
    {
      block, objectPointer := other.block, other.objectPointer;
      new;
      if block != null {
        other.OwnedBlockIsLive();
        block.AddOwner(this);
      }
    }

    /** The move constructor: take over `other`'s block and pointer, leaving
        `other` empty; no count changes. */
    constructor Move(other: SharedRef)
      requires other.Valid()
      modifies other, other.block
      ensures Valid() && other.Valid()
      ensures block == old(other.block) && objectPointer == old(other.objectPointer)
      ensures other.block == null && other.objectPointer == Null
      ensures block != null ==> block.State() == old(other.block.State())
      ensures block != null ==> block.owners == old(other.block.owners) - multiset{other} + multiset{this}
      ensures block != null ==> block.observers == old(other.block.observers)
    {
      block, objectPointer := other.block, other.objectPointer;
      new;
      if block != null {
        block.PassOwner(other, this);
      }
      other.block, other.objectPointer := null, Null;
    }

    /** `destroy_this()`: one strong count less; at zero delete the object
        and null the pointer, and delete the block when `weak_count` is zero.
        The block field is left as it was: the handle is being destroyed or
        is reassigned next. */
    method Release()
      requires Valid()
      modifies this, block
      ensures block == old(block)
      ensures old(block) != null ==> old(block).State() == ReleaseStrong(old(block.State()))
      ensures old(block) != null ==> old(block).Valid()
      ensures old(block) != null ==> old(block).owners == old(block.owners) - multiset{this}
      ensures old(block) != null ==> old(block).observers == old(block.observers)
      ensures old(block) != null ==>
        old(block).deleted == old(block.deleted) + (if old(block.refCount) == 1 then [old(objectPointer)] else [])
      ensures objectPointer == if old(block) != null && old(block.refCount) == 1 then Null else old(objectPointer)
    {
      if block == null {
        return;
      }
      var released, disposed := block.DropOwner(this);
      if released {
        objectPointer := Null;
      }
    }

    /** `reset()` and `operator=(nullptr)`: release, then become empty. */
    method Reset()
      requires Valid()
      modifies this, block
      ensures Valid() && block == null && objectPointer == Null && UseCount() == 0
      ensures old(block) != null ==> old(block).State() == ReleaseStrong(old(block.State()))
      ensures old(block) != null ==> old(block).owners == old(block.owners) - multiset{this}
      ensures old(block) != null ==> old(block).observers == old(block.observers)
    {
      Release();
      block, objectPointer := null, Null;
    }

    /** Copy assignment: release, then share `other`'s block.  Assigning a
        handle to itself is a no-op here; the source as written releases
        first (see Findings). */
    method CopyAssign(other: SharedRef)
      requires Valid() && other.Valid()
      modifies this, block, other.block
      ensures Valid() && other.Valid()
      ensures block == old(other.block) && objectPointer == old(other.objectPointer)
      ensures old(block) == block && block != null ==>
        block.State() == old(block.State()) && block.owners == old(block.owners)
      ensures old(block) != block && old(block) != null ==>
        old(block).State() == ReleaseStrong(old(block.State())) &&
        old(block).owners == old(block.owners) - multiset{this}
      ensures old(block) != block && block != null ==>
        block.State() == AcquireStrong(old(other.block.State())) &&
        block.owners == old(other.block.owners) + multiset{this}
      ensures old(block) != null ==> old(block).observers == old(block.observers)
      ensures block != null ==> block.observers == old(other.block.observers)
    {
      if other == this {
        return;
      }
      var b, p := other.block, other.objectPointer;
      if b != null && b == block {
        TwoOwners(other);
        Reattach(p);
      } else {
        if b != null {
          other.OwnedBlockIsLive();
        }
        Switch(b, p);
      }
    }

    /** Move assignment: release, then take `other`'s block and pointer,
        leaving `other` empty.  Moved into itself, the handle releases its
        count and ends empty, as `reset()` does. */
    method MoveAssign(other: SharedRef)
      requires Valid() && other.Valid()
      modifies this, other, block, other.block
      ensures Valid() && other.Valid()
      ensures other.block == null && other.objectPointer == Null
      ensures other == this ==> block == null && objectPointer == Null
      ensures other != this ==> block == old(other.block) && objectPointer == old(other.objectPointer)
      ensures old(block) != null ==> old(block).State() == ReleaseStrong(old(block.State()))
      ensures other != this && old(other.block) != null && old(other.block) != old(block) ==>
        old(other.block).State() == old(other.block.State()) &&
        old(other.block).owners == old(other.block.owners) - multiset{other} + multiset{this}
      ensures old(block) != null && (other == this || old(other.block) != old(block)) ==>
        old(block).owners == old(block.owners) - multiset{this}
      ensures old(block) != null && other != this && old(other.block) == old(block) ==>
        old(block).owners == old(block.owners) - multiset{other}
      ensures old(block) != null ==> old(block).observers == old(block.observers)
      ensures old(other.block) != null ==> old(other.block).observers == old(other.block.observers)
    {
      if other == this {
        Reset();
      } else if other.block != null && other.block == block {
        TwoOwners(other);
        MoveWithin(other);
      } else {
        MoveAcross(other);
      }
    }

    /** Release, then take the same block again with pointer `p`: copy
        assignment between two handles of one block.  The block keeps
        another handle of this kind, so the release frees nothing and the
        re-acquire restores the count. */
    method Reattach(p: Addr)
      requires Valid() && block != null && block.refCount >= 2 && p == block.target
      modifies this, block
      ensures Valid() && block == old(block) && objectPointer == p
      ensures block.State() == old(block.State())
      ensures block.owners == old(block.owners) && block.observers == old(block.observers)
    {
      var b := block;
      Release();
      Attach(b, p);
    }

    /** Release, then take a different block `b` (or none) with pointer
        `p`. */
    method Switch(b: Block?, p: Addr)
      requires Valid() && (b == null || b != block)
      requires b != null ==> b.Valid() && b.refCount > 0 && p == b.target
      modifies this, block, b
      ensures Valid() && block == b && objectPointer == p
      ensures old(block) != null ==>
        old(block).State() == ReleaseStrong(old(block.State())) &&
        old(block).owners == old(block.owners) - multiset{this} &&
        old(block).observers == old(block.observers)
      ensures b != null ==>
        b.State() == AcquireStrong(old(b.State())) &&
        b.owners == old(b.owners) + multiset{this} && b.observers == old(b.observers)
    {
      Release();
      Attach(b, p);
    }

    /** Move assignment between two handles of one block: the release
        leaves the count held by `other`, which passes to this handle. */
    method MoveWithin(other: SharedRef)
      requires Valid() && other.Valid() && other != this
      requires block != null && block == other.block && block.refCount >= 2
      modifies this, other, block
      ensures Valid() && other.Valid()
      ensures block == old(block) && objectPointer == old(other.objectPointer)
      ensures other.block == null && other.objectPointer == Null
      ensures block.State() == ReleaseStrong(old(block.State()))
      ensures block.owners == old(block.owners) - multiset{other} && block.observers == old(block.observers)
    {
      Release();
      TakeFrom(other);
    }

    /** Move assignment between handles of different blocks (or none). */
    method MoveAcross(other: SharedRef)
      requires Valid() && other.Valid() && other != this
      requires other.block == null || other.block != block
      modifies this, other, block, other.block
      ensures Valid() && other.Valid()
      ensures block == old(other.block) && objectPointer == old(other.objectPointer)
      ensures other.block == null && other.objectPointer == Null
      ensures old(block) != null ==>
        old(block).State() == ReleaseStrong(old(block.State())) &&
        old(block).owners == old(block.owners) - multiset{this} &&
        old(block).observers == old(block.observers)
      ensures old(other.block) != null ==>
        old(other.block).State() == old(other.block.State()) &&
        old(other.block).owners == old(other.block.owners) - multiset{other} + multiset{this} &&
        old(other.block).observers == old(other.block.observers)
    {
      Release();
      TakeFrom(other);
    }

    /** Share block `b` and pointer `p` as one more strong owner. */
    method Attach(b: Block?, p: Addr)
      requires b != null ==> b.Valid() && b.refCount > 0 && p == b.target
      modifies this, b
      ensures Valid() && block == b && objectPointer == p
      ensures b != null ==> b.State() == AcquireStrong(old(b.State()))
      ensures b != null ==> b.owners == old(b.owners) + multiset{this} && b.observers == old(b.observers)
    {
      block, objectPointer := b, p;
      if b != null {
        b.AddOwner(this);
      }
    }

    /** Take `other`'s block and pointer and leave `other` empty; no count
        changes. */
    method TakeFrom(other: SharedRef)
      requires other != this && other.Valid()
      modifies this, other, other.block
      ensures Valid() && other.Valid()
      ensures block == old(other.block) && objectPointer == old(other.objectPointer)
      ensures other.block == null && other.objectPointer == Null
      ensures block != null ==> block.State() == old(other.block.State())
      ensures block != null ==> block.owners == old(other.block.owners) - multiset{other} + multiset{this}
      ensures block != null ==> block.observers == old(other.block.observers)
    {
      var b, p := other.block, other.objectPointer;
      block, objectPointer := b, p;
      other.block, other.objectPointer := null, Null;
      if b != null {
        b.PassOwner(other, this);
      }
    }
  }

  /** The earlier `make_shared<T>(args...)`: an empty handle that then gets
      a new block and a new object, `obj` standing for the address `new T`
      returns. */
  method MakeShared(obj: Addr) returns (r: SharedRef)
    ensures fresh(r) && fresh(r.block) && r.Valid()
    ensures r.objectPointer == obj && r.UseCount() == 1 && r.block.State() == Initial()
  {
    r := new SharedRef();
    r.block := new Block(obj, r);
    r.objectPointer := obj;
  }

  /** The earlier `WeakRef<T>`. */
  class WeakRef {
    var block: Block?
    var objectPointer: Addr

    /** A live weak handle: its block is valid, counts it among its
        observers and guards the object it points to. */
    ghost predicate Valid()
      reads this, block
    {
      block != null ==> block.Valid() && this in block.observers && objectPointer == block.target
    }

    /** `use_count()`: `ref_count`, or 0 without a block; for a live weak
        handle, the number of strong handles on the block. */
    function UseCount(): (n: nat)
      reads this, block
      ensures block == null ==> n == 0
      ensures Valid() && block != null ==> n == |block.owners|
    {
      if block == null then 0 else block.refCount
    }

    /** `expired()`: no block, or no strong count left; for a live weak
        handle, exactly when no strong handle is left, and then the object
        has been deleted. */
    function Expired(): (r: bool)
      reads this, block
      ensures r <==> UseCount() == 0
      ensures Valid() ==> (r <==> block == null || block.owners == multiset{})
      ensures Valid() && block != null && r ==> !block.objectLive && block.deleted == [block.target]
    {
      block == null || block.refCount == 0
    }

    /** A block observed by a live weak handle has not been freed: the
        legacy weak release never frees it, and a strong release frees it
        only when no weak count is left. */
    lemma ObservedBlockNotFreed()
      requires Valid() && block != null
      ensures block.weakCount >= 1 && !block.freed
    {
      TakeOne(block.observers, this);
    }

    /** Two distinct live weak handles on one block make `weak_count` at
        least two. */
    lemma TwoObservers(other: WeakRef)
      requires Valid() && other.Valid() && other != this
      requires block == other.block && block != null
      ensures block.weakCount >= 2
    {
      HoldsTwo(block.observers, this, other);
    }

    /** The default and the `nullptr` constructors. */
    constructor ()
      ensures block == null && objectPointer == Null && Valid() && Expired()
    {
      block, objectPointer := null, Null;
    }

    /** `WeakRef(SharedRef<T>&)`: one more weak count on `s`'s block. */
    constructor FromShared(s: SharedRef)
      requires s.Valid()
      modifies s.block
      ensures Valid() && s.Valid()
      ensures block == s.block && objectPointer == s.objectPointer && UseCount() == s.UseCount()
      ensures block != null ==> block.State() == AcquireWeak(old(s.block.State()))
      ensures block != null ==> block.observers == old(s.block.observers) + multiset{this}
      ensures block != null ==> block.owners == old(s.block.owners)
    {
      block, objectPointer := s.block, s.objectPointer;
      new;
      if block != null {
        s.OwnedBlockIsLive();
        block.AddObserver(this);
      }
    }

    /** The copy constructor. */
    constructor Copy(other: WeakRef)
      requires other.Valid()
      modifies other.block
      ensures Valid() && other.Valid()
      ensures block == other.block && objectPointer == other.objectPointer
      ensures block != null ==> block.State() == AcquireWeak(old(other.block.State()))
      ensures block != null ==> block.observers == old(other.block.observers) + multiset{this}
      ensures block != null ==> block.owners == old(other.block.owners)
    {
      block, objectPointer := other.block, other.objectPointer;
      new;
      if block != null {
        other.ObservedBlockNotFreed();
        block.AddObserver(this);
      }
    }

    /** The move constructor. */
    constructor Move(other: WeakRef)
      requires other.Valid()
      modifies other, other.block
      ensures Valid() && other.Valid()
      ensures block == old(other.block) && objectPointer == old(other.objectPointer)
      ensures other.block == null && other.objectPointer == Null
      ensures block != null ==> block.State() == old(other.block.State())
      ensures block != null ==> block.observers == old(other.block.observers) - multiset{other} + multiset{this}
      ensures block != null ==> block.owners == old(other.block.owners)
    {
      block, objectPointer := other.block, other.objectPointer;
      new;
      if block != null {
        block.PassObserver(other, this);
      }
      other.block, other.objectPointer := null, Null;
    }

    /** `destroy_this()`: `weak_count--`; the block is never freed here (see
        Findings). */
    method Release()
      requires Valid()
      modifies this, block
      ensures block == old(block) && objectPointer == old(objectPointer)
      ensures old(block) != null ==> old(block).State() == ReleaseWeakAsWritten(old(block.State()))
      ensures old(block) != null ==> old(block).Valid()
      ensures old(block) != null ==> old(block).observers == old(block.observers) - multiset{this}
      ensures old(block) != null ==> old(block).owners == old(block.owners)
    {
      if block == null {
        return;
      }
      block.DropObserver(this);
    }

    /** `reset()` and `operator=(nullptr)`: release, then become empty. */
    method Reset()
      requires Valid()
      modifies this, block
      ensures Valid() && block == null && objectPointer == Null && Expired()
      ensures old(block) != null ==> old(block).State() == ReleaseWeakAsWritten(old(block.State()))
      ensures old(block) != null ==> old(block).observers == old(block.observers) - multiset{this}
      ensures old(block) != null ==> old(block).owners == old(block.owners)
    {
      Release();
      block, objectPointer := null, Null;
    }

    /** Copy assignment: release, then observe `other`'s block.  Assigned to
        itself, the handle's release only decrements `weak_count` and the
        re-read block gets it back, so the counts end where they began; the
        model takes that net effect directly. */
    method CopyAssign(other: WeakRef)
      requires Valid() && other.Valid()
      modifies this, block, other.block
      ensures Valid() && other.Valid()
      ensures block == old(other.block) && objectPointer == old(other.objectPointer)
      ensures old(block) == block && block != null ==>
        block.State() == old(block.State()) && block.observers == old(block.observers)
      ensures old(block) != block && old(block) != null ==>
        old(block).State() == ReleaseWeakAsWritten(old(block.State())) &&
        old(block).observers == old(block.observers) - multiset{this}
      ensures old(block) != block && block != null ==>
        block.State() == AcquireWeak(old(other.block.State())) &&
        block.observers == old(other.block.observers) + multiset{this}
      ensures old(block) != null ==> old(block).owners == old(block.owners)
      ensures block != null ==> block.owners == old(other.block.owners)
    {
      if other == this {
        return;
      }
      var b, p := other.block, other.objectPointer;
      if b != null && b == block {
        TwoObservers(other);
        Reattach(p);
      } else {
        if b != null {
          other.ObservedBlockNotFreed();
        }
        Switch(b, p);
      }
    }

    /** Move assignment: release, then take `other`'s block and pointer,
        leaving `other` empty.  Moved into itself, the handle releases its
        count and ends empty, as `reset()` does. */
    method MoveAssign(other: WeakRef)
      requires Valid() && other.Valid()
      modifies this, other, block, other.block
      ensures Valid() && other.Valid()
      ensures other.block == null && other.objectPointer == Null
      ensures other == this ==> block == null && objectPointer == Null
      ensures other != this ==> block == old(other.block) && objectPointer == old(other.objectPointer)
      ensures old(block) != null ==> old(block).State() == ReleaseWeakAsWritten(old(block.State()))
      ensures other != this && old(other.block) != null && old(other.block) != old(block) ==>
        old(other.block).State() == old(other.block.State()) &&
        old(other.block).observers == old(other.block.observers) - multiset{other} + multiset{this}
      ensures old(block) != null && (other == this || old(other.block) != old(block)) ==>
        old(block).observers == old(block.observers) - multiset{this}
      ensures old(block) != null && other != this && old(other.block) == old(block) ==>
        old(block).observers == old(block.observers) - multiset{other}
      ensures old(block) != null ==> old(block).owners == old(block.owners)
      ensures old(other.block) != null ==> old(other.block).owners == old(other.block.owners)
    {
      if other == this {
        Reset();
      } else if other.block != null && other.block == block {
        TwoObservers(other);
        MoveWithin(other);
      } else {
        MoveAcross(other);
      }
    }

    /** Release, then take the same block again with pointer `p`: copy
        assignment between two handles of one block.  The block keeps
        another handle of this kind, so the release frees nothing and the
        re-acquire restores the count. */
    method Reattach(p: Addr)
      requires Valid() && block != null && block.weakCount >= 2 && p == block.target
      modifies this, block
      ensures Valid() && block == old(block) && objectPointer == p
      ensures block.State() == old(block.State())
      ensures block.observers == old(block.observers) && block.owners == old(block.owners)
    {
      var b := block;
      Release();
      Attach(b, p);
    }

    /** Release, then take a different block `b` (or none) with pointer
        `p`. */
    method Switch(b: Block?, p: Addr)
      requires Valid() && (b == null || b != block)
      requires b != null ==> b.Valid() && (b.refCount > 0 || b.weakCount > 0) && p == b.target
      modifies this, block, b
      ensures Valid() && block == b && objectPointer == p
      ensures old(block) != null ==>
        old(block).State() == ReleaseWeakAsWritten(old(block.State())) &&
        old(block).observers == old(block.observers) - multiset{this} &&
        old(block).owners == old(block.owners)
      ensures b != null ==>
        b.State() == AcquireWeak(old(b.State())) &&
        b.observers == old(b.observers) + multiset{this} && b.owners == old(b.owners)
    {
      Release();
      Attach(b, p);
    }

    /** Move assignment between two handles of one block: the release
        leaves the count held by `other`, which passes to this handle. */
    method MoveWithin(other: WeakRef)
      requires Valid() && other.Valid() && other != this
      requires block != null && block == other.block && block.weakCount >= 2
      modifies this, other, block
      ensures Valid() && other.Valid()
      ensures block == old(block) && objectPointer == old(other.objectPointer)
      ensures other.block == null && other.objectPointer == Null
      ensures block.State() == ReleaseWeakAsWritten(old(block.State()))
      ensures block.observers == old(block.observers) - multiset{other} && block.owners == old(block.owners)
    {
      Release();
      TakeFrom(other);
    }

    /** Move assignment between handles of different blocks (or none). */
    method MoveAcross(other: WeakRef)
      requires Valid() && other.Valid() && other != this
      requires other.block == null || other.block != block
      modifies this, other, block, other.block
      ensures Valid() && other.Valid()
      ensures block == old(other.block) && objectPointer == old(other.objectPointer)
      ensures other.block == null && other.objectPointer == Null
      ensures old(block) != null ==>
        old(block).State() == ReleaseWeakAsWritten(old(block.State())) &&
        old(block).observers == old(block.observers) - multiset{this} &&
        old(block).owners == old(block.owners)
      ensures old(other.block) != null ==>
        old(other.block).State() == old(other.block.State()) &&
        old(other.block).observers == old(other.block.observers) - multiset{other} + multiset{this} &&
        old(other.block).owners == old(other.block.owners)
    {
      Release();
      TakeFrom(other);
    }

    /** `lock()`: a strong handle on the observed block, or an empty one
        when the object has expired. */
    method Lock() returns (r: SharedRef)
      requires Valid()
      modifies block
      ensures Valid() && r.Valid() && fresh(r)
      ensures old(Expired()) ==> r.block == null && r.objectPointer == Null
      ensures old(Expired()) && block != null ==> block.State() == old(block.State())
      ensures !old(Expired()) ==> r.block == block && r.objectPointer == objectPointer
      ensures !old(Expired()) ==> block.State() == AcquireStrong(old(block.State()))
      ensures !old(Expired()) ==> block.owners == old(block.owners) + multiset{r}
      ensures block != null ==> block.observers == old(block.observers)
      ensures old(Expired()) && block != null ==> block.owners == old(block.owners)
    {
      r := new SharedRef();
      if !Expired() {
        r.Attach(block, objectPointer);
      }
    }

    /** Observe block `b` with pointer `p`: one more weak count. */
    method Attach(b: Block?, p: Addr)
      requires b != null ==> b.Valid() && (b.refCount > 0 || b.weakCount > 0) && p == b.target
      modifies this, b
      ensures Valid() && block == b && objectPointer == p
      ensures b != null ==> b.State() == AcquireWeak(old(b.State()))
      ensures b != null ==> b.observers == old(b.observers) + multiset{this} && b.owners == old(b.owners)
    {
      block, objectPointer := b, p;
      if b != null {
        b.AddObserver(this);
      }
    }

    /** Take `other`'s block and pointer and leave `other` empty; no count
        changes. */
    method TakeFrom(other: WeakRef)
      requires other != this && other.Valid()
      modifies this, other, other.block
      ensures Valid() && other.Valid()
      ensures block == old(other.block) && objectPointer == old(other.objectPointer)
      ensures other.block == null && other.objectPointer == Null
      ensures block != null ==> block.State() == old(other.block.State())
      ensures block != null ==> block.observers == old(other.block.observers) - multiset{other} + multiset{this}
      ensures block != null ==> block.owners == old(other.block.owners)
    {
      var b, p := other.block, other.objectPointer;
      block, objectPointer := b, p;
      other.block, other.objectPointer := null, Null;
      if b != null {
        b.PassObserver(other, this);
      }
    }
  }
}
