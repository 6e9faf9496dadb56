/**
 * The instruction-level facts the legality analysis reads from one loop.
 * Everything computed by other analyses (recurrence and induction
 * classification, scalar evolution, loop access analysis, the target
 * library info) appears here as an answer already given.
 */
module LoopIR {
  import opened Util
  import opened IRTypes
  import opened LoopNest

  datatype InductionKind = IntInduction | PtrInduction | FPInduction

  /** `InductionDescriptor`, reduced to the facts this file asks of it. */
  datatype InductionDescriptor = InductionDescriptor(
    kind: InductionKind,
    stepIsConstOne: bool,          // getConstIntStepValue() is the constant 1
    startIsNullConstant: bool,     // the start value is a null constant
    casts: seq<nat>,               // getCastInsts()
    unsafeAlgebraInst: Option<nat>)
  {
    /** An integer induction that starts at 0 and steps by 1. */
    predicate IsCanonicalIntInduction()
    {
      kind == IntInduction && stepIsConstOne && startIsNullConstant
    }
  }

  /** `RecurrenceDescriptor`, reduced to the facts this file asks of it. */
  datatype RecurrenceDescriptor = RecurrenceDescriptor(loopExitInstr: nat, unsafeAlgebraInst: Option<nat>)

  /** The answers of the phi classifiers for one header phi. */
  datatype PhiClassifiers = PhiClassifiers(
    reduction: Option<RecurrenceDescriptor>,      // RecurrenceDescriptor::isReductionPHI
    induction: Option<InductionDescriptor>,       // InductionDescriptor::isInductionPHI
    firstOrderRecurrence: bool,                   // RecurrenceDescriptor::isFirstOrderRecurrence
    coercedInduction: Option<InductionDescriptor>,// isInductionPHI after coercion to an AddRec
    coercionPredicates: set<nat>)                 // SCEV predicates that coercion adds to PSE

  /** How `canVectorizeInstrs` classifies a header phi: the first classifier that accepts wins. */
  datatype PhiClass = ReductionPhi | InductionPhi | FirstOrderRecurrencePhi | CoercedInductionPhi | UnidentifiedPhi

  function Classify(c: PhiClassifiers): (r: PhiClass)
    ensures r == ReductionPhi <==> c.reduction.Some?
    ensures r == InductionPhi <==> c.reduction.None? && c.induction.Some?
    ensures r == FirstOrderRecurrencePhi <==> c.reduction.None? && c.induction.None? && c.firstOrderRecurrence
    ensures r == CoercedInductionPhi <==>
            c.reduction.None? && c.induction.None? && !c.firstOrderRecurrence && c.coercedInduction.Some?
  {
    if c.reduction.Some? then ReductionPhi
    else if c.induction.Some? then InductionPhi
    else if c.firstOrderRecurrence then FirstOrderRecurrencePhi
    else if c.coercedInduction.Some? then CoercedInductionPhi
    else UnidentifiedPhi
  }

  /** Whether the classifier behind a class accepts the phi; no classifier stands behind Unidentified. */
  predicate Accepts(c: PhiClassifiers, k: PhiClass)
  {
    match k
    case ReductionPhi => c.reduction.Some?
    case InductionPhi => c.induction.Some?
    case FirstOrderRecurrencePhi => c.firstOrderRecurrence
    case CoercedInductionPhi => c.coercedInduction.Some?
    case UnidentifiedPhi => false
  }

  /** The order in which `canVectorizeInstrs` consults the classifiers. */
  function Rank(k: PhiClass): nat
  {
    match k
    case ReductionPhi => 0
    case InductionPhi => 1
    case FirstOrderRecurrencePhi => 2
    case CoercedInductionPhi => 3
    case UnidentifiedPhi => 4
  }

  /**
   * The class a phi gets is accepted by its classifier and comes before every other class
   * whose classifier accepts the phi; a phi is left unidentified exactly when no classifier accepts it.
   */
  lemma ClassifyIsFirstAccepting(c: PhiClassifiers)
    ensures Classify(c) != UnidentifiedPhi ==> Accepts(c, Classify(c))
    ensures forall k :: Accepts(c, k) ==> Rank(Classify(c)) <= Rank(k)
    ensures Classify(c) == UnidentifiedPhi <==> forall k :: !Accepts(c, k)
  {
    if Classify(c) == UnidentifiedPhi {
      forall k ensures !Accepts(c, k) {
        match k
        case ReductionPhi =>
        case InductionPhi =>
        case FirstOrderRecurrencePhi =>
        case CoercedInductionPhi =>
        case UnidentifiedPhi =>
      }
    } else {
      assert Accepts(c, Classify(c));
    }
  }

  /** A PHI node as a key of the analysis' maps: its identity, type and value from the latch. */
  datatype PhiRef = PhiRef(id: nat, ty: Type, latchIncoming: nat)

  /** What the target library info and intrinsic tables say of a call. */
  datatype CallFacts = CallFacts(
    hasVectorIntrinsic: bool,        // getVectorIntrinsicIDForCall != 0
    isDbgInfoIntrinsic: bool,
    hasVectorLibraryFunction: bool,  // TLI->isFunctionVectorizable
    scalarOperandsInvariant: bool)   // every scalar-only intrinsic operand is loop invariant

  datatype Opcode =
    | PhiOp(numIncoming: nat, latchIncoming: nat, classifiers: PhiClassifiers)
    | LoadOp(ptr: nat)
    | StoreOp(ptr: nat, valueTy: Type)
    | CallOp(call: CallFacts)
    | BinaryOp
    | ExtractElementOp
    | OtherOp

  datatype Inst = Inst(
    id: nat,
    ty: Type,
    op: Opcode,
    hasTrappingConstantOperand: bool,   // some operand is a constant that canTrap()
    mayReadFromMemory: bool,
    mayWriteToMemory: bool,
    mayThrow: bool,
    isFast: bool)

  function PhiOf(i: Inst): PhiRef
  {
    PhiRef(i.id, i.ty, if i.op.PhiOp? then i.op.latchIncoming else 0)
  }

  /** `getLoadStorePointerOperand`. */
  function LoadStorePointer(i: Inst): Option<nat>
  {
    match i.op
    case LoadOp(p) => Some(p)
    case StoreOp(p, _) => Some(p)
    case _ => None
  }

  /** A conditional branch's condition, as the outer-loop check sees it. */
  datatype BranchCondition = BranchCondition(invariantInLoop: bool, targetsLoopHeader: bool)

  datatype Terminator = BranchTerm(cond: Option<BranchCondition>) | NonBranchTerm

  datatype Block = Block(id: nat, insts: seq<Inst>, terminator: Terminator, needsPredication: bool)

  /** What `LoopAccessInfo` reports for the loop. */
  datatype MemoryAnalysis = MemoryAnalysis(
    canVectorizeMemory: bool,
    dependenceOnInvariantAddress: bool,
    numRuntimePointerChecks: nat,
    predicates: set<nat>)

  /** One loop as the legality analysis sees it; its header is the first block. */
  datatype LoopFacts = LoopFacts(
    nest: Loop,
    blocks: seq<Block>,
    outerInvariant: set<nat>,    // values invariant in this loop
    isAnnotatedParallel: bool,
    usedOutside: set<nat>,       // values with a user outside the loop
    hasNoNaNsAttr: bool,         // the function's "no-nans-fp-math" attribute
    memory: MemoryAnalysis)

  /** No two instructions of the loop share an identity. */
  predicate DistinctInstIds(blocks: seq<Block>)
  {
    forall b1, k1, b2, k2 ::
      0 <= b1 < |blocks| && 0 <= k1 < |blocks[b1].insts| && 0 <= b2 < |blocks| && 0 <= k2 < |blocks[b2].insts| &&
      blocks[b1].insts[k1].id == blocks[b2].insts[k2].id
      ==> b1 == b2 && k1 == k2
  }

  /** An integer induction descriptor describes a phi of integer type (asserted by its constructor). */
  predicate InductionTypesAgree(i: Inst)
  {
    i.op.PhiOp? ==>
      (i.op.classifiers.induction.Some? && i.op.classifiers.induction.value.kind == IntInduction ==> i.ty.IntTy?) &&
      (i.op.classifiers.coercedInduction.Some? && i.op.classifiers.coercedInduction.value.kind == IntInduction ==> i.ty.IntTy?)
  }

  /** What every loop handed to the analysis satisfies: distinct instructions, a header no other
    * block repeats, integer inductions of integer type, and no nested loop that is the loop itself. */
  predicate WellFormed(l: LoopFacts)
  {
    && |l.blocks| > 0
    && DistinctInstIds(l.blocks)
    && (forall b :: 0 < b < |l.blocks| ==> l.blocks[b].id != l.blocks[0].id)
    && (forall b, k :: 0 <= b < |l.blocks| && 0 <= k < |l.blocks[b].insts| ==> InductionTypesAgree(l.blocks[b].insts[k]))
    && NestedIdsAvoid(l.nest, l.nest.id)
  }

  /** `hasOutsideLoopUser`: an instruction not already allowed to exit has a user outside the loop. */
  function HasOutsideLoopUser(i: Inst, allowedExit: set<nat>, usedOutside: set<nat>): (r: bool)
    ensures r ==> i.id in usedOutside
    ensures i.id in allowedExit ==> !r
  {
    i.id !in allowedExit && i.id in usedOutside
  }
}
