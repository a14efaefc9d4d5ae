/**
  The control block of src/cpp_shared_ref/internal/control_block.hpp: the
  two counters, the type-erased way to release the payload (custom deleter,
  `delete`, or in-place destructor), the `get_deleter` lookup, and the
  constructors that clean up when allocating the block throws.

  The wrapper `internal::ControlBlock` is a single pointer to the block
  (`m_base`); the handles keep that pointer as a `ControlBlockBase?` field,
  so its `operator bool` is `block != null`.
*/
module ControlBlock {
  import opened Wrappers
  import opened Counting

  /** A raw object address; 0 is the null pointer. */
  type Addr = nat

  const Null: Addr := 0

  /** Stands for a `std::type_info`: two deleters have the same type iff
      their tokens are equal. */
  type TypeToken = nat

  /** A deleter object: its type and whatever state it carries. */
  datatype Deleter = Deleter(ty: TypeToken, state: nat)

  /** The three block variants: ControlBlockDeleter (a pointer and a
      deleter), ControlBlockPtr (a pointer released with `delete`) and
      ControlBlockInPlace (an object embedded in the block itself). */
  datatype Payload =
    | Custom(obj: Addr, deleter: Deleter)
    | Default(obj: Addr)
    | InPlace(obj: Addr)

  /** What releasing a payload does to memory. */
  datatype ReleaseAction =
    | RunDeleter(deleter: Deleter, target: Addr)
    | DeleteObject(target: Addr)
    | DestroyInPlace(target: Addr)

  /** The exceptions the library lets through: `std::bad_alloc` from
      allocating a block, and `bad_weak_ref`. */
  datatype Error = BadAlloc | BadWeakRef

  /** `destroy()` of each variant: the custom deleter on the stored pointer,
      `delete` of the stored pointer, or the embedded object's destructor. */
  function Destroy(p: Payload): (a: ReleaseAction)
    ensures a.target == p.obj
    ensures a.RunDeleter? <==> p.Custom?
    ensures a.DeleteObject? <==> p.Default?
    ensures a.DestroyInPlace? <==> p.InPlace?
    ensures a.RunDeleter? ==> a.deleter == p.deleter
  {
    match p
    case Custom(obj, d) => RunDeleter(d, obj)
    case Default(obj) => DeleteObject(obj)
    case InPlace(obj) => DestroyInPlace(obj)
  }

  /** `get_deleter(ti)` of each variant: the stored deleter when its type is
      the one asked for, otherwise nothing; default and in-place blocks have
      no deleter to give. */
  function GetDeleter(p: Payload, ty: TypeToken): (r: Option<Deleter>)
    ensures r.Some? <==> p.Custom? && p.deleter.ty == ty
    ensures r.Some? ==> r.value == p.deleter
  {
    match p
    case Custom(_, d) => if d.ty == ty then Some(d) else None
    case Default(_) => None
    case InPlace(_) => None
  }

  /** The deleter a block was built with can be recovered by its own type
      token and by no other one. */
  lemma GetDeleterRecovers(obj: Addr, d: Deleter, ty: TypeToken)
    ensures GetDeleter(Custom(obj, d), d.ty) == Some(d)
    ensures ty != d.ty ==> GetDeleter(Custom(obj, d), ty) == None
    ensures GetDeleter(Default(obj), ty) == None && GetDeleter(InPlace(obj), ty) == None
  {
  }

  /** Taking one occurrence out of a multiset that holds it shrinks it by
      one. */
  lemma TakeOne<T>(m: multiset<T>, x: T)
    requires x in m
    ensures |m - multiset{x}| == |m| - 1
  {
    assert m == (m - multiset{x}) + multiset{x};
  }

  /** An element of a multiset makes it non-empty, and it is the only
      element exactly when the multiset has size one. */
  lemma Member<T>(m: multiset<T>, x: T)
    ensures x in m ==> |m| >= 1 && (|m| == 1 <==> m == multiset{x})
  {
    if x in m {
      TakeOne(m, x);
      assert m == (m - multiset{x}) + multiset{x};
      if |m| == 1 {
        assert m - multiset{x} == multiset{};
      }
    }
  }

  /** A multiset holding two distinct elements has at least two. */
  lemma HoldsTwo<T>(m: multiset<T>, x: T, y: T)
    requires x in m && y in m && x != y
    ensures |m| >= 2
  {
    TakeOne(m, x);
    assert y in m - multiset{x};
  }

  /** ControlBlockBase and its three subclasses.  The counts are real fields
      that handles update in place; whether the payload and the block still
      exist, and what releases have happened, are ghost.  `owners` and
      `observers` are the live strong and weak handles on the block, one
      occurrence per count a handle holds. */
  class ControlBlockBase {
    var strong: nat
    var weak: nat
    const payload: Payload
    ghost var payloadLive: bool
    ghost var freed: bool
    ghost var releaseLog: seq<ReleaseAction>
    ghost var frees: nat
    ghost var owners: multiset<object>
    ghost var observers: multiset<object>

    ghost function State(): BlockState
      reads this
    {
      BlockState(strong, weak, payloadLive, freed, |releaseLog|, frees)
    }

    /** The counts are coherent (the payload has been released once exactly
        when no strong count is left, and the block freed once exactly when
        no count of either kind is left), and each count is the number of
        live handles of its kind. */
    ghost predicate Valid()
      reads this
    {
      Coherent(State()) && strong == |owners| && weak == |observers|
    }

    /** A new block: strong count 1, held by `owner`, and, as in the
        earlier two-counter block, weak count 0. */
    constructor (payload: Payload, ghost owner: object)
      ensures this.payload == payload && releaseLog == []
      ensures State() == Initial() && Valid()
      ensures owners == multiset{owner} && observers == multiset{}
    {
      this.payload := payload;
      strong, weak := 1, 0;
      payloadLive, freed := true, false;
      releaseLog, frees := [], 0;
      owners, observers := multiset{owner}, multiset{};
    }

    /** `destroy()`: release the payload by the variant's action. */
    method ReleasePayload() returns (a: ReleaseAction)
      requires payloadLive
      modifies this
      ensures a == Destroy(payload)
      ensures !payloadLive && releaseLog == old(releaseLog) + [a]
      ensures strong == old(strong) && weak == old(weak)
      ensures freed == old(freed) && frees == old(frees)
      ensures owners == old(owners) && observers == old(observers)
    {
      a := Destroy(payload);
      payloadLive := false;
      releaseLog := releaseLog + [a];
    }

    /** `delete m_base`: deallocate the block itself. */
    method FreeBlock()
      requires !freed
      modifies this
      ensures freed && frees == old(frees) + 1
      ensures strong == old(strong) && weak == old(weak)
      ensures payloadLive == old(payloadLive) && releaseLog == old(releaseLog)
      ensures owners == old(owners) && observers == old(observers)
    {
      freed := true;
      frees := frees + 1;
    }

    /** `strong_count++` for a new strong handle `h` (copy, aliasing, cast,
        lock, construction from a weak handle). */
    method AddOwner(ghost h: object)
      requires Valid() && strong > 0
      modifies this
      ensures Valid() && State() == AcquireStrong(old(State()))
      ensures owners == old(owners) + multiset{h} && observers == old(observers)
      ensures releaseLog == old(releaseLog)
    {
      AcquireSpec(State());
      strong := strong + 1;
      owners := owners + multiset{h};
    }

    /** The block side of `shared_ref::destroy_this()` for the handle `h`:
        one strong count less; at zero the payload is released and, when no
        weak count is left either, the block is freed.  The results say
        which happened. */
    method DropOwner(ghost h: object) returns (released: bool, disposed: bool)
      requires Valid() && h in owners
      modifies this
      ensures Valid() && State() == ReleaseStrong(old(State()))
      ensures owners == old(owners) - multiset{h} && observers == old(observers)
      ensures released <==> old(strong) == 1
      ensures disposed <==> old(strong) == 1 && old(weak) == 0
      ensures releaseLog == old(releaseLog) + (if released then [Destroy(payload)] else [])
    {
      TakeOne(owners, h);
      if strong == 1 {
        disposed := DropLastOwner(h);
        released := true;
      } else {
        DropOtherOwner(h);
        released, disposed := false, false;
      }
    }

    /** `DropOwner` when other strong handles remain: only the count moves. */
    method DropOtherOwner(ghost h: object)
      requires Valid() && h in owners && strong >= 2
      modifies this
      ensures Valid() && State() == ReleaseStrong(old(State()))
      ensures owners == old(owners) - multiset{h} && observers == old(observers)
      ensures releaseLog == old(releaseLog)
    {
      TakeOne(owners, h);
      strong := strong - 1;
      owners := owners - multiset{h};
    }

    /** `DropOwner` for the last strong handle: the payload is released, and
        the block is freed when no weak count is left. */
    method DropLastOwner(ghost h: object) returns (disposed: bool)
      requires Valid() && h in owners && strong == 1
      modifies this
      ensures Valid() && State() == ReleaseStrong(old(State()))
      ensures owners == old(owners) - multiset{h} && observers == old(observers)
      ensures disposed <==> old(weak) == 0
      ensures releaseLog == old(releaseLog) + [Destroy(payload)]
    {
      TakeOne(owners, h);
      strong := 0;
      owners := owners - multiset{h};
      var a := ReleasePayload();
      disposed := weak == 0;
      if disposed {
        FreeBlock();
      }
    }

    /** `weak_count++` for a new weak handle `w`. */
    method AddObserver(ghost w: object)
      requires Valid() && !freed
      modifies this
      ensures Valid() && State() == AcquireWeak(old(State()))
      ensures observers == old(observers) + multiset{w} && owners == old(owners)
      ensures releaseLog == old(releaseLog)
    {
      AcquireSpec(State());
      weak := weak + 1;
      observers := observers + multiset{w};
    }

    /** The block side of `weak_ref::destroy_this()` for the handle `w`: one
        weak count less, and the block is freed when that leaves no count of
        either kind. */
    method DropObserver(ghost w: object) returns (disposed: bool)
      requires Valid() && w in observers
      modifies this
      ensures Valid() && State() == ReleaseWeak(old(State()))
      ensures observers == old(observers) - multiset{w} && owners == old(owners)
      ensures disposed <==> old(weak) == 1 && old(strong) == 0
      ensures releaseLog == old(releaseLog)
    {
      ghost var s0 := State();
      TakeOne(observers, w);
      weak := weak - 1;
      observers := observers - multiset{w};
      disposed := false;
      if weak == 0 && strong == 0 {
        FreeBlock();
        disposed := true;
      }
      assert State() == ReleaseWeak(s0);
      ReleaseWeakSpec(s0);
    }

    /** A move hands the strong count held by `h` over to `g`; no count
        changes. */
    ghost method PassOwner(h: object, g: object)
      requires Valid() && h in owners
      modifies this
      ensures Valid() && owners == old(owners) - multiset{h} + multiset{g}
      ensures strong == old(strong) && weak == old(weak) && observers == old(observers)
      ensures payloadLive == old(payloadLive) && freed == old(freed)
      ensures releaseLog == old(releaseLog) && frees == old(frees)
    {
      TakeOne(owners, h);
      owners := owners - multiset{h} + multiset{g};
    }

    /** A move hands the weak count held by `w` over to `v`. */
    ghost method PassObserver(w: object, v: object)
      requires Valid() && w in observers
      modifies this
      ensures Valid() && observers == old(observers) - multiset{w} + multiset{v}
      ensures strong == old(strong) && weak == old(weak) && owners == old(owners)
      ensures payloadLive == old(payloadLive) && freed == old(freed)
      ensures releaseLog == old(releaseLog) && frees == old(frees)
    {
      TakeOne(observers, w);
      observers := observers - multiset{w} + multiset{v};
    }
  }

  /** `ControlBlock::dispose()`: delete the block and null the wrapper. */
  method Dispose(b: ControlBlockBase) returns (nb: ControlBlockBase?)
    requires !b.freed
    modifies b
    ensures nb == null
    ensures b.freed && b.frees == old(b.frees) + 1
    ensures b.strong == old(b.strong) && b.weak == old(b.weak)
    ensures b.payloadLive == old(b.payloadLive) && b.releaseLog == old(b.releaseLog)
    ensures b.owners == old(b.owners) && b.observers == old(b.observers)
  {
    b.FreeBlock();
    nb := null;
  }

  /** `ControlBlock(ptr, deleter)`: allocate a deleter block; if that
      throws, run the deleter on `ptr` and rethrow.  `allocFails` stands for
      the allocator's answer.  `cleanup` lists what was released. */
  method NewWithDeleter(ptr: Addr, d: Deleter, allocFails: bool, ghost owner: object)
    returns (r: Result<ControlBlockBase, Error>, cleanup: seq<ReleaseAction>)
    ensures allocFails ==> r == Err(BadAlloc) && cleanup == [Destroy(Custom(ptr, d))]
    ensures !allocFails ==> r.Ok? && fresh(r.value) && cleanup == []
    ensures r.Ok? ==> r.value.payload == Custom(ptr, d) && r.value.State() == Initial() && r.value.Valid()
    ensures r.Ok? ==> r.value.owners == multiset{owner} && r.value.observers == multiset{} && r.value.releaseLog == []
  {
    if allocFails {
      cleanup := [RunDeleter(d, ptr)];
      r := Err(BadAlloc);
    } else {
      var b := new ControlBlockBase(Custom(ptr, d), owner);
      r, cleanup := Ok(b), [];
    }
  }

  /** `ControlBlock(ptr)`: allocate a default block; if that throws,
      `delete ptr` and rethrow. */
  method NewDefault(ptr: Addr, allocFails: bool, ghost owner: object)
    returns (r: Result<ControlBlockBase, Error>, cleanup: seq<ReleaseAction>)
    ensures allocFails ==> r == Err(BadAlloc) && cleanup == [Destroy(Default(ptr))]
    ensures !allocFails ==> r.Ok? && fresh(r.value) && cleanup == []
    ensures r.Ok? ==> r.value.payload == Default(ptr) && r.value.State() == Initial() && r.value.Valid()
    ensures r.Ok? ==> r.value.owners == multiset{owner} && r.value.observers == multiset{} && r.value.releaseLog == []
  {
    if allocFails {
      cleanup := [DeleteObject(ptr)];
      r := Err(BadAlloc);
    } else {
      var b := new ControlBlockBase(Default(ptr), owner);
      r, cleanup := Ok(b), [];
    }
  }

  /** `ControlBlock(ptr, MakeSharedTag, args...)`: allocate a block with the
      object embedded in it and write the object's address into the
      caller's pointer.  `slot` is that address, chosen by the allocator.
      If the allocation or the object's constructor throws, nothing exists
      to release and the caller's pointer is untouched. */
  method NewInPlace(slot: Addr, callerPtr: Addr, allocFails: bool, ghost owner: object)
    returns (r: Result<ControlBlockBase, Error>, ptr: Addr)
    requires slot != Null
    ensures allocFails ==> r == Err(BadAlloc) && ptr == callerPtr
    ensures !allocFails ==> r.Ok? && fresh(r.value) && ptr == slot
    ensures r.Ok? ==> r.value.payload == InPlace(slot) && r.value.State() == Initial() && r.value.Valid()
    ensures r.Ok? ==> r.value.owners == multiset{owner} && r.value.observers == multiset{} && r.value.releaseLog == []
  {
    if allocFails {
      r, ptr := Err(BadAlloc), callerPtr;
    } else {
      var b := new ControlBlockBase(InPlace(slot), owner);
      r := Ok(b);
      ptr := b.payload.obj;
    }
  }
}
