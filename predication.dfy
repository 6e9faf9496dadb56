/**
 * The block predication rules of if-conversion: which instructions stop a
 * block from being predicated, and which loads and stores must be masked
 * when it is.
 */
module Predication {
  import opened IRTypes
  import opened LoopIR

  /** What `blockCanBePredicated` does with one instruction. */
  datatype PredStep = Reject | Keep | Mask

  /** The instruction reads memory through a pointer that is not known to be safe. */
  predicate IsUnsafeLoad(i: Inst, safePtrs: set<nat>)
  {
    i.mayReadFromMemory && i.op.LoadOp? && i.op.ptr !in safePtrs
  }

  function Step(i: Inst, safePtrs: set<nat>, isParallel: bool): PredStep
  {
    if i.hasTrappingConstantOperand then Reject
    else if i.mayReadFromMemory && !i.op.LoadOp? then Reject
    else if IsUnsafeLoad(i, safePtrs) then (if isParallel then Keep else Mask)
    else if i.mayWriteToMemory then (if i.op.StoreOp? then Mask else Reject)
    else if i.mayThrow then Reject
    else Keep
  }

  /** Every instruction of the block can be executed under a predicate. */
  predicate Predicable(insts: seq<Inst>, safePtrs: set<nat>, isParallel: bool)
  {
    forall k :: 0 <= k < |insts| ==> Step(insts[k], safePtrs, isParallel) != Reject
  }

  /** The position at which the scan stops: the first rejected instruction, or the end. */
  function FirstReject(insts: seq<Inst>, safePtrs: set<nat>, isParallel: bool): (n: nat)
    ensures n <= |insts|
    ensures forall k :: 0 <= k < n ==> Step(insts[k], safePtrs, isParallel) != Reject
    ensures n < |insts| ==> Step(insts[n], safePtrs, isParallel) == Reject
    decreases |insts|
  {
    if insts == [] then 0
    else if Step(insts[0], safePtrs, isParallel) == Reject then 0
    else 1 + FirstReject(insts[1..], safePtrs, isParallel)
  }

  /** The identities the scan of `insts[..n]` records as needing a mask. */
  function MaskedIds(insts: seq<Inst>, safePtrs: set<nat>, isParallel: bool, n: nat): set<nat>
  {
    set k | 0 <= k < n && k < |insts| && Step(insts[k], safePtrs, isParallel) == Mask :: insts[k].id
  }

  /** The scan stops at `n` exactly when everything before `n` is accepted and `n` is rejected or the end. */
  lemma FirstRejectAt(insts: seq<Inst>, safePtrs: set<nat>, isParallel: bool, n: nat)
    requires n <= |insts|
    requires forall k :: 0 <= k < n ==> Step(insts[k], safePtrs, isParallel) != Reject
    requires n < |insts| ==> Step(insts[n], safePtrs, isParallel) == Reject
    ensures FirstReject(insts, safePtrs, isParallel) == n
  {
  }

  lemma MaskedIdsStep(insts: seq<Inst>, safePtrs: set<nat>, isParallel: bool, n: nat)
    requires n < |insts|
    ensures MaskedIds(insts, safePtrs, isParallel, n + 1) ==
            MaskedIds(insts, safePtrs, isParallel, n) +
            (if Step(insts[n], safePtrs, isParallel) == Mask then {insts[n].id} else {})
  {
  }

  /** The identities of the block's loads and stores. */
  function LoadStoreIds(insts: seq<Inst>): set<nat>
  {
    set k | 0 <= k < |insts| && (insts[k].op.LoadOp? || insts[k].op.StoreOp?) :: insts[k].id
  }

  predicate DistinctIds(insts: seq<Inst>)
  {
    forall j, k :: 0 <= j < |insts| && 0 <= k < |insts| && insts[j].id == insts[k].id ==> j == k
  }

  /** Declarative form of the rules: no trapping constant operand, only loads read memory,
    * only stores (or loads through unsafe pointers) write it, and an instruction that may throw
    * is acceptable only as one of those. */
  predicate Harmless(i: Inst, safePtrs: set<nat>)
  {
    !i.hasTrappingConstantOperand &&
    (i.mayReadFromMemory ==> i.op.LoadOp?) &&
    (i.mayWriteToMemory ==> i.op.StoreOp? || IsUnsafeLoad(i, safePtrs)) &&
    (i.mayThrow ==> i.mayWriteToMemory || IsUnsafeLoad(i, safePtrs))
  }

  lemma StepRejectIff(i: Inst, safePtrs: set<nat>, isParallel: bool)
    ensures Step(i, safePtrs, isParallel) == Reject <==> !Harmless(i, safePtrs)
  {
  }

  /** A block can be predicated exactly when every instruction is harmless; the answer does not
    * depend on whether the loop is annotated parallel. */
  lemma {:induction false} PredicableIff(insts: seq<Inst>, safePtrs: set<nat>, isParallel: bool)
    ensures Predicable(insts, safePtrs, isParallel) <==> forall k :: 0 <= k < |insts| ==> Harmless(insts[k], safePtrs)
    ensures Predicable(insts, safePtrs, isParallel) == Predicable(insts, safePtrs, !isParallel)
  {
    forall k | 0 <= k < |insts|
      ensures Step(insts[k], safePtrs, isParallel) == Reject <==> !Harmless(insts[k], safePtrs)
      ensures Step(insts[k], safePtrs, !isParallel) == Reject <==> !Harmless(insts[k], safePtrs)
    {
      StepRejectIff(insts[k], safePtrs, isParallel);
      StepRejectIff(insts[k], safePtrs, !isParallel);
    }
  }

  /** In a block that can be predicated, every store is recorded as needing a mask. */
  lemma StoresMasked(insts: seq<Inst>, safePtrs: set<nat>, isParallel: bool, k: nat)
    requires Predicable(insts, safePtrs, isParallel)
    requires k < |insts| && insts[k].op.StoreOp? && insts[k].mayWriteToMemory
    ensures FirstReject(insts, safePtrs, isParallel) == |insts|
    ensures insts[k].id in MaskedIds(insts, safePtrs, isParallel, FirstReject(insts, safePtrs, isParallel))
  {
    assert Step(insts[k], safePtrs, isParallel) != Reject;
  }

  /** A load through a safe pointer, or any load of a loop annotated parallel, is never masked. */
  lemma SafeLoadsNotMasked(insts: seq<Inst>, safePtrs: set<nat>, isParallel: bool, k: nat, n: nat)
    requires DistinctIds(insts)
    requires k < |insts| && insts[k].op.LoadOp? && (insts[k].op.ptr in safePtrs || isParallel)
    ensures insts[k].id !in MaskedIds(insts, safePtrs, isParallel, n)
  {
    assert Step(insts[k], safePtrs, isParallel) != Mask;
    forall j | 0 <= j < n && j < |insts| && Step(insts[j], safePtrs, isParallel) == Mask
      ensures insts[j].id != insts[k].id
    {
      assert j != k;
    }
  }

  /** Only loads and stores are ever masked; in a parallel loop, only stores. */
  lemma MaskedAreMemoryOps(insts: seq<Inst>, safePtrs: set<nat>, isParallel: bool, n: nat)
    ensures MaskedIds(insts, safePtrs, isParallel, n) <= LoadStoreIds(insts)
    ensures isParallel ==> forall k :: 0 <= k < n && k < |insts| && Step(insts[k], safePtrs, isParallel) == Mask ==> insts[k].op.StoreOp?
  {
  }

  /** Number of leading phis of a block: the phis `BasicBlock::phis()` visits. */
  function LeadingPhis(insts: seq<Inst>): (n: nat)
    ensures n <= |insts|
    ensures forall k :: 0 <= k < n ==> insts[k].op.PhiOp?
    ensures n < |insts| ==> !insts[n].op.PhiOp?
    decreases |insts|
  {
    if insts == [] || !insts[0].op.PhiOp? then 0 else 1 + LeadingPhis(insts[1..])
  }

  /** No phi of the block has a trapping constant incoming value. */
  predicate PhisIfConvertible(b: Block)
  {
    forall k :: 0 <= k < LeadingPhis(b.insts) ==> !b.insts[k].hasTrappingConstantOperand
  }

  /** `canIfConvertPHINodes`. */
  method CanIfConvertPHINodes(b: Block) returns (r: bool)
    ensures r <==> PhisIfConvertible(b)
  {
    var i := 0;
    while i < |b.insts| && b.insts[i].op.PhiOp?
      invariant 0 <= i <= LeadingPhis(b.insts)
      invariant forall k :: 0 <= k < i ==> !b.insts[k].hasTrappingConstantOperand
    {
      if b.insts[i].hasTrappingConstantOperand {
        return false;
      }
      i := i + 1;
    }
    return true;
  }

  /** When the phis of a block come first, as they do in valid IR, the check covers them all. */
  lemma PhisFirstCovered(b: Block)
    requires forall j, k :: 0 <= j < k < |b.insts| && b.insts[k].op.PhiOp? ==> b.insts[j].op.PhiOp?
    ensures PhisIfConvertible(b) <==>
            forall k :: 0 <= k < |b.insts| && b.insts[k].op.PhiOp? ==> !b.insts[k].hasTrappingConstantOperand
  {
  }
}
