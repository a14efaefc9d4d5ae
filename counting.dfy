/**
  The two counters of a control block and the two release events, as a pure
  state machine.  Every handle operation of the library changes a block by
  one of the four transitions below; the classes in ControlBlock, Memory and
  Legacy are proved against these functions.
*/
module Counting {
  import opened Wrappers

  /** What a control block holds at one moment: the strong and weak counts,
      whether the payload still exists, whether the block itself has been
      deallocated, and how often each release has happened so far. */
  datatype BlockState = BlockState(
    strong: nat,
    weak: nat,
    payloadLive: bool,
    freed: bool,
    releases: nat,
    frees: nat)

  /** The invariant the counting promises: the payload exists exactly while
      some strong handle exists, the block is gone exactly when both counts
      are zero, and each release has happened at most once. */
  predicate Coherent(s: BlockState)
  {
    && (s.payloadLive <==> s.strong > 0)
    && (s.freed <==> s.strong == 0 && s.weak == 0)
    && s.releases == (if s.payloadLive then 0 else 1)
    && s.frees == (if s.freed then 1 else 0)
  }

  /** A freshly built block: one strong owner, no weak observer. */
  function Initial(): (s: BlockState)
    ensures Coherent(s)
    ensures s.strong == 1 && s.weak == 0 && s.payloadLive && !s.freed
  {
    BlockState(1, 0, true, false, 0, 0)
  }

  /** One more strong handle shares the block (copy, aliasing, cast, lock). */
  function AcquireStrong(s: BlockState): (r: BlockState)
    requires s.strong > 0
    ensures r.strong == s.strong + 1
    ensures r.weak == s.weak && r.payloadLive == s.payloadLive && r.freed == s.freed
    ensures r.releases == s.releases && r.frees == s.frees
  {
    s.(strong := s.strong + 1)
  }

  /** A strong handle lets go of the block (destroy_this of shared_ref):
      decrement, and on reaching zero release the payload, then free the
      block if no weak handle remains. */
  function ReleaseStrong(s: BlockState): (r: BlockState)
    requires s.strong > 0
    ensures r.strong == s.strong - 1 && r.weak == s.weak
  {
    var t := s.(strong := s.strong - 1);
    if t.strong == 0 then
      var u := t.(payloadLive := false, releases := t.releases + 1);
      if u.weak == 0 then u.(freed := true, frees := u.frees + 1) else u
    else
      t
  }

  /** One more weak handle observes the block (weak_ref from a shared_ref
      or from another weak_ref). */
  function AcquireWeak(s: BlockState): (r: BlockState)
    requires s.strong > 0 || s.weak > 0
    ensures r.weak == s.weak + 1
    ensures r.strong == s.strong && r.payloadLive == s.payloadLive && r.freed == s.freed
    ensures r.releases == s.releases && r.frees == s.frees
  {
    s.(weak := s.weak + 1)
  }

  /** A weak handle lets go of the block (destroy_this of weak_ref):
      decrement, and free the block when this was the last weak handle and
      no strong handle remains. */
  function ReleaseWeak(s: BlockState): (r: BlockState)
    requires s.weak > 0
    ensures r.weak == s.weak - 1 && r.strong == s.strong
    ensures r.payloadLive == s.payloadLive && r.releases == s.releases
  {
    var t := s.(weak := s.weak - 1);
    if t.weak == 0 && t.strong == 0 then t.(freed := true, frees := t.frees + 1) else t
  }

  lemma ReleaseStrongSpec(s: BlockState)
    requires Coherent(s) && s.strong > 0
    ensures Coherent(ReleaseStrong(s))
    ensures ReleaseStrong(s).payloadLive <==> s.strong > 1
    ensures ReleaseStrong(s).releases == s.releases + (if s.strong == 1 then 1 else 0)
    ensures ReleaseStrong(s).freed <==> s.strong == 1 && s.weak == 0
    ensures ReleaseStrong(s).frees == s.frees + (if s.strong == 1 && s.weak == 0 then 1 else 0)
  {
  }

  lemma ReleaseWeakSpec(s: BlockState)
    requires Coherent(s) && s.weak > 0
    ensures Coherent(ReleaseWeak(s))
    ensures ReleaseWeak(s).freed <==> s.weak == 1 && s.strong == 0
    ensures ReleaseWeak(s).frees == s.frees + (if s.weak == 1 && s.strong == 0 then 1 else 0)
  {
  }

  lemma AcquireSpec(s: BlockState)
    requires Coherent(s)
    ensures s.strong > 0 ==> Coherent(AcquireStrong(s))
    ensures s.strong > 0 || s.weak > 0 ==> Coherent(AcquireWeak(s))
  {
  }

  /** The handle-level events that change a block. */
  datatype Event = CopyStrong | DropStrong | CopyWeak | DropWeak

  /** The block after one event, or None when no handle could issue it
      (nothing to copy from, nothing to drop). */
  function Step(s: BlockState, e: Event): (r: Option<BlockState>)
    ensures r.Some? <==> match e
      case CopyStrong => s.strong > 0
      case DropStrong => s.strong > 0
      case CopyWeak => s.strong > 0 || s.weak > 0
      case DropWeak => s.weak > 0
  {
    match e
    case CopyStrong => if s.strong > 0 then Some(AcquireStrong(s)) else None
    case DropStrong => if s.strong > 0 then Some(ReleaseStrong(s)) else None
    case CopyWeak => if s.strong > 0 || s.weak > 0 then Some(AcquireWeak(s)) else None
    case DropWeak => if s.weak > 0 then Some(ReleaseWeak(s)) else None
  }

  /** The block after a whole sequence of events, or None if one of them
      could not happen. */
  function Run(s: BlockState, es: seq<Event>): Option<BlockState>
    decreases |es|
  {
    if es == [] then Some(s)
    else match Step(s, es[0])
      case None => None
      case Some(t) => Run(t, es[1..])
  }

  lemma StepKeepsCoherent(s: BlockState, e: Event)
    requires Coherent(s)
    ensures Step(s, e).Some? ==> Coherent(Step(s, e).value)
  {
    match e
    case CopyStrong =>
    case DropStrong =>
    case CopyWeak =>
    case DropWeak =>
  }

  /** The payload is released in exactly one step: the one that drops the
      last strong handle; no other event touches it. */
  lemma StepReleasesOnlyAtLastOwner(s: BlockState, e: Event)
    requires Coherent(s) && Step(s, e).Some?
    ensures Step(s, e).value.releases == s.releases + (if e == DropStrong && s.strong == 1 then 1 else 0)
    ensures Step(s, e).value.frees == s.frees +
      (if (e == DropStrong && s.strong == 1 && s.weak == 0) || (e == DropWeak && s.weak == 1 && s.strong == 0) then 1 else 0)
  {
  }

  /** Once the block has been freed no handle can refer to it any more:
      no event is possible. */
  lemma FreedIsFinal(s: BlockState, e: Event)
    requires Coherent(s) && s.freed
    ensures Step(s, e).None?
  {
  }

  /** Any interleaving of strong and weak copies and drops keeps the block
      coherent: the payload is released at most once, and only when the
      strong count is zero; the block is freed at most once, only after the
      payload and only when both counts are zero. */
  lemma {:induction false} RunKeepsCoherent(s: BlockState, es: seq<Event>)
    requires Coherent(s)
    ensures Run(s, es).Some? ==> Coherent(Run(s, es).value)
    ensures Run(s, es).Some? ==> Run(s, es).value.releases <= 1 && Run(s, es).value.frees <= Run(s, es).value.releases
    decreases |es|
  {
    if es != [] {
      StepKeepsCoherent(s, es[0]);
      match Step(s, es[0])
      case None =>
      case Some(t) => RunKeepsCoherent(t, es[1..]);
    }
  }

  /** Weak handles never keep the payload alive: the payload is gone exactly
      when the strong count is zero, however many weak handles remain. */
  lemma {:induction false} ExpiredExactlyWhenNoOwner(es: seq<Event>)
    requires Run(Initial(), es).Some?
    ensures Run(Initial(), es).value.payloadLive <==> Run(Initial(), es).value.strong > 0
  {
    RunKeepsCoherent(Initial(), es);
  }

  predicate StrongOnly(es: seq<Event>)
  {
    forall i :: 0 <= i < |es| ==> es[i] == CopyStrong || es[i] == DropStrong
  }

  /** With the convention that a new block starts with no weak count, a
      block that never gets a weak handle is freed exactly when its last
      strong handle goes. */
  lemma {:induction false} FreedWhenLastStrongDrops(s: BlockState, es: seq<Event>)
    requires Coherent(s) && s.weak == 0 && StrongOnly(es) && Run(s, es).Some?
    ensures Run(s, es).value.freed <==> Run(s, es).value.strong == 0
    decreases |es|
  {
    if es != [] {
      StepKeepsCoherent(s, es[0]);
      var t := Step(s, es[0]).value;
      assert StrongOnly(es[1..]) by {
        forall i | 0 <= i < |es[1..]| ensures es[1..][i] == CopyStrong || es[1..][i] == DropStrong {
          assert es[1..][i] == es[i + 1];
        }
      }
      FreedWhenLastStrongDrops(t, es[1..]);
    }
  }

  /** The initial counts as ControlBlockBase writes them: the weak count
      starts at one although no weak handle exists. */
  function InitialAsWritten(): (s: BlockState)
    ensures Coherent(s) && s.strong == 1 && s.weak == 1
  {
    BlockState(1, 1, true, false, 0, 0)
  }

  /** With the weak count starting at one, a block that never gets a weak
      handle is never freed, even after its last strong handle is gone. */
  lemma {:induction false} NeverFreedWithPhantomWeak(s: BlockState, es: seq<Event>)
    requires s.weak == 1 && !s.freed && StrongOnly(es) && Run(s, es).Some?
    ensures !Run(s, es).value.freed && Run(s, es).value.weak == 1
    decreases |es|
  {
    if es != [] {
      var t := Step(s, es[0]).value;
      assert StrongOnly(es[1..]) by {
        forall i | 0 <= i < |es[1..]| ensures es[1..][i] == CopyStrong || es[1..][i] == DropStrong {
          assert es[1..][i] == es[i + 1];
        }
      }
      NeverFreedWithPhantomWeak(t, es[1..]);
    }
  }

  /** The smallest leaking program, `{ auto p = make_shared<int>(1); }`:
      with the as-written counts the block outlives every handle; with
      the modelled counts it is freed. */
  lemma PhantomWeakLeaks()
    ensures Run(InitialAsWritten(), [DropStrong]).Some?
    ensures var t := Run(InitialAsWritten(), [DropStrong]).value; t.strong == 0 && !t.freed
    ensures Run(Initial(), [DropStrong]).Some? && Run(Initial(), [DropStrong]).value.freed
  {
    var w := ReleaseStrong(InitialAsWritten());
    assert w == BlockState(0, 1, false, false, 1, 0);
    assert Step(InitialAsWritten(), DropStrong) == Some(w);
    assert [DropStrong][1..] == [];
    assert Run(InitialAsWritten(), [DropStrong]) == Run(w, []);
    var f := ReleaseStrong(Initial());
    assert f == BlockState(0, 0, false, true, 1, 1);
    assert Run(Initial(), [DropStrong]) == Run(f, []);
  }

  /** What `p = p` leaves behind as written: the block's state, whether
      the handle still refers to the block, and whether its stored pointer
      is still set. */
  datatype SelfAssignOutcome = SelfAssignOutcome(state: BlockState, holdsBlock: bool, keepsPointer: bool)

  /** Copy assignment of a handle to itself as written: release first (at
      the last strong count the pointer is nulled, and if the block is freed
      the wrapper is emptied), then copy the handle's own pointer and wrapper
      back and, if the wrapper is not empty, increment its strong count. */
  function SelfCopyAssignAsWritten(s: BlockState): (o: SelfAssignOutcome)
    requires s.strong > 0
    ensures o.keepsPointer <==> s.strong > 1
    ensures o.holdsBlock <==> !(s.strong == 1 && s.weak == 0)
  {
    var t := ReleaseStrong(s);
    if s.strong == 1 && s.weak == 0 then SelfAssignOutcome(t, false, false)
    else SelfAssignOutcome(t.(strong := t.strong + 1), true, s.strong > 1)
  }

  /** While other strong handles share the block, `p = p` as written leaves
      the block as it was. */
  lemma SelfCopyAssignAsWrittenHarmlessWhenShared(s: BlockState)
    requires Coherent(s) && s.strong >= 2
    ensures SelfCopyAssignAsWritten(s) == SelfAssignOutcome(s, true, true)
  {
    assert ReleaseStrong(s) == s.(strong := s.strong - 1);
  }

  /** The sole owner with no weak handle, from the modelled start (weak
      count 0): `p = p` destroys the object, frees the block and leaves the
      handle empty. */
  lemma SelfCopyAssignAsWrittenEmpties()
    ensures var o := SelfCopyAssignAsWritten(Initial());
      o.state.freed && !o.state.payloadLive && !o.holdsBlock && !o.keepsPointer
  {
    assert ReleaseStrong(Initial()) == BlockState(0, 0, false, true, 1, 1);
  }

  /** The sole owner with a weak handle on the block: `p = p` destroys the
      object, then puts the strong count back to one on a block whose payload
      is gone.  The block is no longer coherent: `lock()` on the weak handle
      would succeed, and the handle's own release would destroy the payload
      a second time. */
  lemma SelfCopyAssignAsWrittenCorrupts()
    ensures var o := SelfCopyAssignAsWritten(AcquireWeak(Initial()));
      && o.holdsBlock && o.state.strong == 1 && !o.state.payloadLive && !Coherent(o.state)
      && ReleaseStrong(o.state).releases == 2
  {
    assert AcquireWeak(Initial()) == BlockState(1, 1, true, false, 0, 0);
    assert ReleaseStrong(BlockState(1, 1, true, false, 0, 0)) == BlockState(0, 1, false, false, 1, 0);
  }

  /** From the start count as the block initialises it (weak count 1), the
      sole owner is in the corrupting case even without a weak handle:
      `p = p` destroys the object and then counts `p` again on the block, so
      its later release destroys the object a second time. */
  lemma SelfCopyAssignAsWrittenCorruptsFromWrittenStart()
    ensures var o := SelfCopyAssignAsWritten(InitialAsWritten());
      && o.holdsBlock && !o.keepsPointer && o.state.strong == 1 && !o.state.payloadLive
      && ReleaseStrong(o.state).releases == 2
  {
    assert ReleaseStrong(InitialAsWritten()) == BlockState(0, 1, false, false, 1, 0);
  }

  /** reset(p) whose block allocation throws, as written: the old block is
      released, but the handle keeps referring to it unless that release
      freed it (and so emptied the wrapper).  The second component says
      whether the handle still refers to it. */
  function ResetFailureAsWritten(s: BlockState): (r: (BlockState, bool))
    requires s.strong > 0
    ensures r.0.strong == s.strong - 1 && r.0.weak == s.weak
    ensures r.0.payloadLive == (s.payloadLive && s.strong > 1)
    ensures r.1 <==> !(s.strong == 1 && s.weak == 0)
  {
    (ReleaseStrong(s), !(s.strong == 1 && s.weak == 0))
  }

  /** With two owners, a failed reset(p) on one of them leaves it still
      referring to the block with a count of one; its later destruction then
      releases the payload while the other owner still uses it. */
  lemma ResetFailureAsWrittenReleasesEarly()
    ensures var (t, keeps) := ResetFailureAsWritten(AcquireStrong(Initial()));
      keeps && t.strong == 1 && t.payloadLive && !ReleaseStrong(t).payloadLive
  {
  }
}
