/**
 * `LoopVectorizationLegality`: decides whether a loop can be vectorized and
 * records what the vectorizer needs to know about it (inductions,
 * reductions, first-order recurrences, values allowed to leave the loop,
 * memory operations that need a mask).
 */
module Legality {
  import opened Util
  import opened Config
  import opened IRTypes
  import opened LoopNest
  import opened LoopIR
  import opened Predication
  import opened Hints
  import opened Requirements

  /** The type recorded as the widest induction type: never a pointer, and at least 32 bits
    * wide unless it is the pointer-sized integer. */
  predicate WidenedInductionType(t: Type, ptrBits: nat)
  {
    !t.PtrTy? && (ScalarSizeInBits(t) >= 32 || t == IntTy(ptrBits))
  }

  /** The classification state that `canVectorizeInstrs` builds up. */
  datatype Classification = Classification(
    inductions: map<PhiRef, InductionDescriptor>,
    reductions: map<PhiRef, RecurrenceDescriptor>,
    firstOrderRecurrences: set<PhiRef>,
    allowedExit: set<nat>,
    predicates: set<nat>,
    unsafeAlgebraInst: Option<nat>,
    widestIndTy: Option<Type>,
    primaryInduction: Option<PhiRef>,
    castsToIgnore: set<nat>)

  /** `s1` differs from `s0` at most by an entry for `p`, and its sets have only grown. */
  predicate Extends(s0: Classification, s1: Classification, p: PhiRef)
  {
    && s1.inductions.Keys <= s0.inductions.Keys + {p}
    && (forall q :: q in s0.inductions && q != p ==> q in s1.inductions && s1.inductions[q] == s0.inductions[q])
    && s1.reductions.Keys <= s0.reductions.Keys + {p}
    && (forall q :: q in s0.reductions && q != p ==> q in s1.reductions && s1.reductions[q] == s0.reductions[q])
    && s0.firstOrderRecurrences <= s1.firstOrderRecurrences
    && s0.allowedExit <= s1.allowedExit
    && s0.predicates <= s1.predicates
    && (s0.unsafeAlgebraInst.Some? ==> s1.unsafeAlgebraInst.Some?)
  }

  /** The values the recorded reductions allow to leave the loop. */
  function ReductionExits(m: map<PhiRef, RecurrenceDescriptor>): set<nat>
  {
    set p | p in m :: m[p].loopExitInstr
  }

  lemma ReductionExitsAdd(m: map<PhiRef, RecurrenceDescriptor>, p: PhiRef, rd: RecurrenceDescriptor)
    requires p !in m
    ensures ReductionExits(m[p := rd]) == ReductionExits(m) + {rd.loopExitInstr}
  {
    var m' := m[p := rd];
    forall x | x in ReductionExits(m)
      ensures x in ReductionExits(m')
    {
      var q :| q in m && m[q].loopExitInstr == x;
      assert q in m' && m'[q] == m[q];
    }
    assert p in m' && m'[p].loopExitInstr == rd.loopExitInstr;
  }

  /** What the classification recorded for a header phi, as the order of the classifiers decides. */
  predicate Remembered(i: Inst, s: Classification, hasNoNaNsAttr: bool)
    requires i.op.PhiOp?
  {
    var c := i.op.classifiers;
    var phi := PhiOf(i);
    match Classify(c)
    case ReductionPhi =>
      && phi in s.reductions && s.reductions[phi] == c.reduction.value
      && c.reduction.value.loopExitInstr in s.allowedExit
      && (c.reduction.value.unsafeAlgebraInst.Some? ==> s.unsafeAlgebraInst.Some?)
    case InductionPhi =>
      && phi in s.inductions && s.inductions[phi] == c.induction.value
      && (c.induction.value.unsafeAlgebraInst.Some? && !hasNoNaNsAttr ==> s.unsafeAlgebraInst.Some?)
    case FirstOrderRecurrencePhi =>
      phi in s.firstOrderRecurrences
    case CoercedInductionPhi =>
      && phi in s.inductions && s.inductions[phi] == c.coercedInduction.value
      && c.coercionPredicates <= s.predicates
    case UnidentifiedPhi =>
      false
  }

  /** `addUnsafeAlgebraInst` on a snapshot: the first instruction recorded is kept. */
  function RecordUnsafe(u: Option<nat>, inst: Option<nat>): Option<nat>
  {
    if u.None? then inst else u
  }

  /** The exits `addInductionPhi` allows: the phi and its latch value, while the SCEV predicate is trivially true. */
  function InductionExits(predicates: set<nat>, phi: PhiRef): set<nat>
  {
    if predicates == {} then {phi.id, phi.latchIncoming} else {}
  }

  /** The first cast of an induction, which `addInductionPhi` marks as ignored. */
  function FirstCast(id: InductionDescriptor): set<nat>
  {
    if |id.casts| > 0 then {id.casts[0]} else {}
  }

  /** The widest induction type after `addInductionPhi` meets a phi of type `ty`. */
  function WidenedBy(widest: Option<Type>, ty: Type, ptrBits: nat): Option<Type>
  {
    if ty.FloatTy? then widest
    else if widest.None? then Some(ConvertPointerToIntegerType(ptrBits, ty))
    else Some(GetWiderType(ptrBits, ty, widest.value))
  }

  /** `addInductionPhi` on a snapshot. */
  function InductionStep(s: Classification, phi: PhiRef, id: InductionDescriptor, ptrBits: nat): Classification
  {
    var widest := WidenedBy(s.widestIndTy, phi.ty, ptrBits);
    s.(inductions := s.inductions[phi := id],
       castsToIgnore := s.castsToIgnore + FirstCast(id),
       widestIndTy := widest,
       primaryInduction := if id.IsCanonicalIntInduction() && (s.primaryInduction.None? || widest == Some(phi.ty))
                           then Some(phi) else s.primaryInduction,
       allowedExit := s.allowedExit + InductionExits(s.predicates, phi))
  }

  /** `addInductionPhi` adds one key, its exits and its first cast, and leaves the other tables alone. */
  lemma InductionStepFrame(s: Classification, phi: PhiRef, id: InductionDescriptor, ptrBits: nat)
    ensures var t := InductionStep(s, phi, id, ptrBits);
            && t.inductions.Keys == s.inductions.Keys + {phi}
            && t.allowedExit == s.allowedExit + InductionExits(s.predicates, phi)
            && t.castsToIgnore == s.castsToIgnore + FirstCast(id)
            && t.reductions == s.reductions && t.firstOrderRecurrences == s.firstOrderRecurrences
            && t.predicates == s.predicates && t.unsafeAlgebraInst == s.unsafeAlgebraInst
  {
  }

  /** Every recorded induction that is not floating point is, once converted, no wider than the widest type. */
  ghost predicate WidestBoundsInductions(s: Classification, ptrBits: nat)
  {
    forall p :: p in s.inductions && !p.ty.FloatTy? ==>
      s.widestIndTy.Some? &&
      ScalarSizeInBits(ConvertPointerToIntegerType(ptrBits, p.ty)) <= ScalarSizeInBits(s.widestIndTy.value)
  }

  /** The widest type is the converted type of a recorded induction that is not floating point. */
  ghost predicate WidestIsRecorded(s: Classification, ptrBits: nat)
  {
    s.widestIndTy.Some? ==>
      exists p :: p in s.inductions && !p.ty.FloatTy? && s.widestIndTy.value == ConvertPointerToIntegerType(ptrBits, p.ty)
  }

  /** Some recorded canonical integer induction has the widest type. */
  ghost predicate CanonicalOfWidestType(s: Classification)
  {
    exists p :: p in s.inductions && s.inductions[p].IsCanonicalIntInduction() && s.widestIndTy == Some(p.ty)
  }

  /** "Use the phi node with the widest type as induction": when a canonical induction has the
    * widest type, so does the primary induction. */
  ghost predicate PrimaryTracksWidest(s: Classification)
  {
    CanonicalOfWidestType(s) ==> s.primaryInduction.Some? && s.widestIndTy == Some(s.primaryInduction.value.ty)
  }

  /** What the recorded inductions say about the widest type and the primary induction. */
  ghost predicate InductionSummary(s: Classification, ptrBits: nat)
  {
    && (s.widestIndTy.Some? ==> s.widestIndTy.value.IntTy?)
    && WidestBoundsInductions(s, ptrBits)
    && (ptrBits >= 32 ==> WidestIsRecorded(s, ptrBits))
    && PrimaryTracksWidest(s)
  }

  /** No induction is recorded yet, as after the constructor. */
  predicate NoInductionsYet(s: Classification)
  {
    s.inductions == map[] && s.widestIndTy.None?
  }

  lemma NoInductionsSummary(s: Classification, ptrBits: nat)
    requires NoInductionsYet(s)
    ensures InductionSummary(s, ptrBits)
  {
  }

  /** The summary reads only the inductions and the widest type and the primary induction. */
  lemma SummaryFrame(s: Classification, t: Classification, ptrBits: nat)
    requires s.inductions == t.inductions && s.widestIndTy == t.widestIndTy && s.primaryInduction == t.primaryInduction
    ensures CanonicalOfWidestType(s) <==> CanonicalOfWidestType(t)
    ensures InductionSummary(s, ptrBits) <==> InductionSummary(t, ptrBits)
  {
    assert CanonicalOfWidestType(s) <==> CanonicalOfWidestType(t);
  }

  /** Converting never narrows an integer type. */
  lemma ConvertNeverNarrowsInt(ptrBits: nat, t: Type)
    requires t.IntTy?
    ensures ScalarSizeInBits(ConvertPointerToIntegerType(ptrBits, t)) >= ScalarSizeInBits(t)
  {
  }

  /** The widest type changes only by growing strictly wider. */
  lemma WidenedGrows(widest: Option<Type>, ty: Type, ptrBits: nat)
    requires widest.Some? ==> WidenedInductionType(widest.value, ptrBits)
    ensures widest.Some? ==> WidenedBy(widest, ty, ptrBits).Some? &&
                             ScalarSizeInBits(WidenedBy(widest, ty, ptrBits).value) >= ScalarSizeInBits(widest.value)
    ensures widest.Some? && WidenedBy(widest, ty, ptrBits) != widest ==>
              ScalarSizeInBits(WidenedBy(widest, ty, ptrBits).value) > ScalarSizeInBits(widest.value)
    ensures (widest.Some? ==> widest.value.IntTy?) && WidenedBy(widest, ty, ptrBits).Some? ==>
              WidenedBy(widest, ty, ptrBits).value.IntTy?
  {
    if widest.Some? && !ty.FloatTy? {
      var w := widest.value;
      var c1 := ConvertPointerToIntegerType(ptrBits, w);
      assert ScalarSizeInBits(w) >= 32 ==> c1 == w;
    }
  }

  /** `addInductionPhi` keeps the summary: the bounds grow with the widest type, and a canonical phi
    * of the new widest type becomes primary. */
  lemma InductionStepSummary(s: Classification, phi: PhiRef, id: InductionDescriptor, ptrBits: nat)
    requires phi !in s.inductions
    requires id.kind == IntInduction ==> phi.ty.IntTy?
    requires s.widestIndTy.Some? ==> WidenedInductionType(s.widestIndTy.value, ptrBits)
    requires InductionSummary(s, ptrBits)
    ensures InductionSummary(InductionStep(s, phi, id, ptrBits), ptrBits)
  {
    var t := InductionStep(s, phi, id, ptrBits);
    WidenedGrows(s.widestIndTy, phi.ty, ptrBits);
    forall p | p in t.inductions && !p.ty.FloatTy?
      ensures t.widestIndTy.Some? &&
              ScalarSizeInBits(ConvertPointerToIntegerType(ptrBits, p.ty)) <= ScalarSizeInBits(t.widestIndTy.value)
    {
      if p != phi {
        assert p in s.inductions;
      }
    }
    if ptrBits >= 32 && t.widestIndTy.Some? {
      if t.widestIndTy == s.widestIndTy {
        var q :| q in s.inductions && !q.ty.FloatTy? && s.widestIndTy.value == ConvertPointerToIntegerType(ptrBits, q.ty);
        assert q in t.inductions;
      } else {
        assert phi in t.inductions;
        if s.widestIndTy.Some? {
          var w := s.widestIndTy.value;
          assert ConvertPointerToIntegerType(ptrBits, w) == w;
        }
      }
    }
    if CanonicalOfWidestType(t) {
      var p :| p in t.inductions && t.inductions[p].IsCanonicalIntInduction() && t.widestIndTy == Some(p.ty);
      if p != phi {
        assert p in s.inductions && s.inductions[p] == t.inductions[p];
        ConvertNeverNarrowsInt(ptrBits, p.ty);
        assert t.widestIndTy == s.widestIndTy;
        assert CanonicalOfWidestType(s);
      }
    }
  }

  /** The last step of `canVectorizeInstrs`: a primary induction not of the widest type is dropped. */
  function ResetPrimary(s: Classification): Classification
  {
    if s.primaryInduction.Some? && s.widestIndTy != Some(s.primaryInduction.value.ty)
    then s.(primaryInduction := None) else s
  }

  /** After the reset, there is a primary induction exactly when a recorded canonical integer induction
    * has the widest type, and the summary still holds. */
  lemma ResetPrimarySpec(s: Classification, ptrBits: nat)
    requires s.primaryInduction.Some? ==>
               s.primaryInduction.value in s.inductions && s.inductions[s.primaryInduction.value].IsCanonicalIntInduction()
    requires InductionSummary(s, ptrBits)
    ensures ResetPrimary(s).primaryInduction.Some? <==> CanonicalOfWidestType(ResetPrimary(s))
    ensures InductionSummary(ResetPrimary(s), ptrBits)
  {
    var r := ResetPrimary(s);
    assert CanonicalOfWidestType(r) <==> CanonicalOfWidestType(s);
    if r.primaryInduction.Some? {
      assert r.primaryInduction.value in r.inductions;
    }
  }

  /**
   * The classification after the phi chain of `canVectorizeInstrs` has visited header phi `i`:
   * only the table of its class, the exits it allows, the predicates a coercion needs and the
   * unsafe-algebra record change, and an induction also goes through `addInductionPhi` with its
   * widest type, primary induction and ignored casts; an unidentified phi changes nothing.
   */
  function ClassifiedState(s: Classification, i: Inst, hasNoNaNsAttr: bool, ptrBits: nat): Classification
    requires i.op.PhiOp?
  {
    var c := i.op.classifiers;
    var phi := PhiOf(i);
    match Classify(c)
    case ReductionPhi =>
      var rd := c.reduction.value;
      s.(reductions := s.reductions[phi := rd], allowedExit := s.allowedExit + {rd.loopExitInstr},
         unsafeAlgebraInst := RecordUnsafe(s.unsafeAlgebraInst, rd.unsafeAlgebraInst))
    case InductionPhi =>
      var id := c.induction.value;
      InductionStep(s, phi, id, ptrBits).(
        unsafeAlgebraInst := if hasNoNaNsAttr then s.unsafeAlgebraInst else RecordUnsafe(s.unsafeAlgebraInst, id.unsafeAlgebraInst))
    case FirstOrderRecurrencePhi =>
      s.(firstOrderRecurrences := s.firstOrderRecurrences + {phi})
    case CoercedInductionPhi =>
      InductionStep(s.(predicates := s.predicates + c.coercionPredicates), phi, c.coercedInduction.value, ptrBits)
    case UnidentifiedPhi =>
      s
  }

  /**
   * Visiting a fresh header phi only extends the classification at that phi, records it as its
   * class says when a classifier accepts it, and, while the SCEV predicate is not trivially true,
   * lets no value but a reduction's exit leave the loop.
   */
  lemma ClassifiedStateSpec(s: Classification, i: Inst, hasNoNaNsAttr: bool, ptrBits: nat)
    requires i.op.PhiOp? && PhiOf(i) !in s.inductions && PhiOf(i) !in s.reductions
    ensures Extends(s, ClassifiedState(s, i, hasNoNaNsAttr, ptrBits), PhiOf(i))
    ensures Classify(i.op.classifiers) != UnidentifiedPhi ==> Remembered(i, ClassifiedState(s, i, hasNoNaNsAttr, ptrBits), hasNoNaNsAttr)
    ensures Classify(i.op.classifiers) == UnidentifiedPhi ==> ClassifiedState(s, i, hasNoNaNsAttr, ptrBits) == s
    ensures var s' := ClassifiedState(s, i, hasNoNaNsAttr, ptrBits);
            && ReductionExits(s.reductions) <= ReductionExits(s'.reductions)
            && (s.predicates != {} ==> s'.allowedExit <= s.allowedExit + ReductionExits(s'.reductions))
  {
    var c := i.op.classifiers;
    if Classify(c) == ReductionPhi {
      ReductionExitsAdd(s.reductions, PhiOf(i), c.reduction.value);
    }
  }

  /** Classifying a fresh header phi keeps the induction summary. */
  lemma ClassifiedStateSummary(s: Classification, i: Inst, hasNoNaNsAttr: bool, ptrBits: nat)
    requires i.op.PhiOp? && PhiOf(i) !in s.inductions && InductionTypesAgree(i)
    requires s.widestIndTy.Some? ==> WidenedInductionType(s.widestIndTy.value, ptrBits)
    requires InductionSummary(s, ptrBits)
    ensures InductionSummary(ClassifiedState(s, i, hasNoNaNsAttr, ptrBits), ptrBits)
  {
    var c := i.op.classifiers;
    var t := ClassifiedState(s, i, hasNoNaNsAttr, ptrBits);
    match Classify(c)
    case InductionPhi =>
      InductionStepSummary(s, PhiOf(i), c.induction.value, ptrBits);
      SummaryFrame(t, InductionStep(s, PhiOf(i), c.induction.value, ptrBits), ptrBits);
    case CoercedInductionPhi =>
      var s1 := s.(predicates := s.predicates + c.coercionPredicates);
      SummaryFrame(s, s1, ptrBits);
      InductionStepSummary(s1, PhiOf(i), c.coercedInduction.value, ptrBits);
    case ReductionPhi =>
      SummaryFrame(s, t, ptrBits);
    case FirstOrderRecurrencePhi =>
      SummaryFrame(s, t, ptrBits);
    case UnidentifiedPhi =>
  }

  /** A call the vectorizer can widen: an intrinsic with a vector form, a debug intrinsic, or a
    * function with a vector library version, whose scalar-only operands are loop invariant. */
  predicate CallAccepted(c: CallFacts)
  {
    (c.hasVectorIntrinsic || c.isDbgInfoIntrinsic || c.hasVectorLibraryFunction) && c.scalarOperandsInvariant
  }

  /** The per-instruction conditions `canVectorizeInstrs` imposes, whatever the state. */
  predicate InstAccepted(i: Inst, inHeader: bool)
  {
    if i.op.PhiOp? then
      IsValidElementType(i.ty) &&
      (inHeader ==> i.op.numIncoming == 2 && Classify(i.op.classifiers) != UnidentifiedPhi)
    else
      && (i.op.CallOp? ==> CallAccepted(i.op.call))
      && (IsValidElementType(i.ty) || i.ty.VoidTy?)
      && !i.op.ExtractElementOp?
      && (i.op.StoreOp? ==> IsValidElementType(i.op.valueTy))
  }

  /** A floating-point operation or call that is not marked fast. */
  predicate UnsafeFPOp(i: Inst)
  {
    !i.op.StoreOp? && i.ty.FloatTy? && (i.op.CallOp? || i.op.BinaryOp?) && !i.isFast
  }

  /** Everything a successful visit of `i` leaves behind in the state. */
  predicate CheckedIn(i: Inst, inHeader: bool, s: Classification, potentiallyUnsafe: bool, f: LoopFacts)
  {
    && InstAccepted(i, inHeader)
    && (i.op.PhiOp? && inHeader ==> Remembered(i, s, f.hasNoNaNsAttr))
    && (!i.op.PhiOp? ==> (i.id in f.usedOutside ==> i.id in s.allowedExit) && (UnsafeFPOp(i) ==> potentiallyUnsafe))
  }

  lemma CheckedInStable(i: Inst, inHeader: bool, s0: Classification, s1: Classification, p: PhiRef,
                        pu0: bool, pu1: bool, f: LoopFacts)
    requires CheckedIn(i, inHeader, s0, pu0, f)
    requires Extends(s0, s1, p) && p != PhiOf(i) && (pu0 ==> pu1)
    ensures CheckedIn(i, inHeader, s1, pu1, f)
  {
  }

  /** The classification after the loop body of `canVectorizeInstrs` has visited `i`: a header phi with
    * two incoming values of an accepted type is classified; an accepted non-phi with a user outside
    * the loop may exit while the SCEV predicate is trivially true; nothing else changes. */
  function CheckedState(s: Classification, i: Inst, inHeader: bool, f: LoopFacts, ptrBits: nat): Classification
  {
    if i.op.PhiOp? then
      if inHeader && IsValidElementType(i.ty) && i.op.numIncoming == 2 then ClassifiedState(s, i, f.hasNoNaNsAttr, ptrBits)
      else s
    else if InstAccepted(i, inHeader) && HasOutsideLoopUser(i, s.allowedExit, f.usedOutside) && s.predicates == {} then
      s.(allowedExit := s.allowedExit + {i.id})
    else s
  }

  /** Visiting a fresh instruction extends the classification at its phi at most, keeps the induction
    * summary, records inductions only for header phis, and bounds the new exits. */
  lemma CheckedStateSpec(s: Classification, i: Inst, inHeader: bool, f: LoopFacts, ptrBits: nat)
    requires PhiOf(i) !in s.inductions && PhiOf(i) !in s.reductions && InductionTypesAgree(i)
    requires s.widestIndTy.Some? ==> WidenedInductionType(s.widestIndTy.value, ptrBits)
    ensures var t := CheckedState(s, i, inHeader, f, ptrBits);
            && Extends(s, t, PhiOf(i))
            && ReductionExits(s.reductions) <= ReductionExits(t.reductions)
            && (s.predicates != {} ==> t.allowedExit <= s.allowedExit + ReductionExits(t.reductions))
            && (InductionSummary(s, ptrBits) ==> InductionSummary(t, ptrBits))
            && (!(i.op.PhiOp? && inHeader) ==> t.inductions == s.inductions)
  {
    var t := CheckedState(s, i, inHeader, f, ptrBits);
    if i.op.PhiOp? && inHeader && IsValidElementType(i.ty) && i.op.numIncoming == 2 {
      ClassifiedStateSpec(s, i, f.hasNoNaNsAttr, ptrBits);
      if InductionSummary(s, ptrBits) {
        ClassifiedStateSummary(s, i, f.hasNoNaNsAttr, ptrBits);
      }
    } else {
      SummaryFrame(s, t, ptrBits);
    }
  }

  /** The classification after the first `k` instructions of block `b` have been visited. */
  function ScanInsts(s: Classification, f: LoopFacts, b: nat, k: nat, ptrBits: nat): Classification
    requires 0 < |f.blocks| && b < |f.blocks| && k <= |f.blocks[b].insts|
  {
    if k == 0 then s
    else CheckedState(ScanInsts(s, f, b, k - 1, ptrBits), f.blocks[b].insts[k - 1], InHeader(f, b), f, ptrBits)
  }

  /** The classification after the first `b` blocks have been visited. */
  function ScanBlocks(s: Classification, f: LoopFacts, b: nat, ptrBits: nat): Classification
    requires 0 < |f.blocks| && b <= |f.blocks|
  {
    if b == 0 then s
    else ScanInsts(ScanBlocks(s, f, b - 1, ptrBits), f, b - 1, |f.blocks[b - 1].insts|, ptrBits)
  }

  /** The keys of the phis among the first `n` instructions. */
  function PhiKeys(insts: seq<Inst>, n: nat): set<PhiRef>
    requires n <= |insts|
  {
    if n == 0 then {}
    else PhiKeys(insts, n - 1) + (if insts[n - 1].op.PhiOp? then {PhiOf(insts[n - 1])} else {})
  }

  /** What the instruction loop over block `b` has done once it has visited `k` instructions,
    * starting from `s0`. */
  ghost predicate ScanProgress(f: LoopFacts, s0: Classification, s: Classification, b: nat, k: nat, ptrBits: nat)
    requires 0 < |f.blocks| && b < |f.blocks| && k <= |f.blocks[b].insts|
  {
    && s0.predicates <= s.predicates
    && (s0.predicates != {} ==> s.allowedExit <= s0.allowedExit + ReductionExits(s.reductions))
    && ReductionExits(s0.reductions) <= ReductionExits(s.reductions)
    && s.inductions.Keys <= s0.inductions.Keys + (if InHeader(f, b) then PhiKeys(f.blocks[b].insts, k) else {})
  }

  /** Visiting one more fresh instruction keeps the scan's progress. */
  lemma ScanProgressStep(f: LoopFacts, s0: Classification, b: nat, k: nat, ptrBits: nat)
    requires 0 < |f.blocks| && b < |f.blocks| && k < |f.blocks[b].insts|
    requires ScanProgress(f, s0, ScanInsts(s0, f, b, k, ptrBits), b, k, ptrBits)
    requires FreshWhenVisited(f, s0, b, k, ptrBits)
    requires var s := ScanInsts(s0, f, b, k, ptrBits); s.widestIndTy.Some? ==> WidenedInductionType(s.widestIndTy.value, ptrBits)
    ensures ScanProgress(f, s0, ScanInsts(s0, f, b, k + 1, ptrBits), b, k + 1, ptrBits)
  {
    CheckedStateSpec(ScanInsts(s0, f, b, k, ptrBits), f.blocks[b].insts[k], InHeader(f, b), f, ptrBits);
  }

  /** Visiting one more fresh instruction keeps the induction summary. */
  lemma ScanSummaryStep(f: LoopFacts, s0: Classification, b: nat, k: nat, ptrBits: nat)
    requires 0 < |f.blocks| && b < |f.blocks| && k < |f.blocks[b].insts|
    requires FreshWhenVisited(f, s0, b, k, ptrBits)
    requires var s := ScanInsts(s0, f, b, k, ptrBits);
             && (s.widestIndTy.Some? ==> WidenedInductionType(s.widestIndTy.value, ptrBits))
             && InductionSummary(s, ptrBits)
    ensures InductionSummary(ScanInsts(s0, f, b, k + 1, ptrBits), ptrBits)
  {
    CheckedStateSummary(ScanInsts(s0, f, b, k, ptrBits), f.blocks[b].insts[k], InHeader(f, b), f, ptrBits);
  }

  /** The instruction scan keeps a converted widest type. */
  lemma {:induction false} ScanInstsWidened(f: LoopFacts, s0: Classification, b: nat, k: nat, ptrBits: nat)
    requires 0 < |f.blocks| && b < |f.blocks| && k <= |f.blocks[b].insts|
    requires s0.widestIndTy.Some? ==> WidenedInductionType(s0.widestIndTy.value, ptrBits)
    ensures var s := ScanInsts(s0, f, b, k, ptrBits); s.widestIndTy.Some? ==> WidenedInductionType(s.widestIndTy.value, ptrBits)
    decreases k
  {
    if k > 0 {
      ScanInstsWidened(f, s0, b, k - 1, ptrBits);
      CheckedStateWidened(ScanInsts(s0, f, b, k - 1, ptrBits), f.blocks[b].insts[k - 1], InHeader(f, b), f, ptrBits);
    }
  }


  /** Every widening leaves a converted type: never a pointer, and at least 32 bits or pointer-sized. */
  lemma CheckedStateWidened(s: Classification, i: Inst, inHeader: bool, f: LoopFacts, ptrBits: nat)
    requires s.widestIndTy.Some? ==> WidenedInductionType(s.widestIndTy.value, ptrBits)
    ensures var t := CheckedState(s, i, inHeader, f, ptrBits);
            t.widestIndTy.Some? ==> WidenedInductionType(t.widestIndTy.value, ptrBits)
  {
  }

  /** The instruction at `(b, k)` is not yet recorded when every key is behind `(b, k)`. */
  lemma KeysNotAheadFresh(f: LoopFacts, s: Classification, b: nat, k: nat)
    requires IsPosition(f, b, k) && KeysNotAhead(f, s, b, k)
    ensures PhiOf(f.blocks[b].insts[k]) !in s.inductions && PhiOf(f.blocks[b].insts[k]) !in s.reductions
  {
    assert !Before(b, k, b, k);
  }

  /** Recording at most the phi of the instruction at `(b, k)` keeps every key behind the scan. */
  lemma KeysNotAheadStep(f: LoopFacts, s: Classification, t: Classification, b: nat, k: nat)
    requires WellFormed(f) && IsPosition(f, b, k)
    requires KeysNotAhead(f, s, b, k) && Extends(s, t, PhiOf(f.blocks[b].insts[k]))
    ensures KeysNotAhead(f, t, b, k + 1)
  {
  }

  /** The keys behind the end of block `b` are behind the start of block `b + 1`. */
  lemma KeysNotAheadNextBlock(f: LoopFacts, s: Classification, b: nat)
    requires 0 < |f.blocks| && b < |f.blocks|
    requires KeysNotAhead(f, s, b, |f.blocks[b].insts|)
    ensures KeysNotAhead(f, s, b + 1, 0)
  {
    forall b1: nat, k1: nat | IsPosition(f, b1, k1)
      ensures Before(b1, k1, b + 1, 0) <==> Before(b1, k1, b, |f.blocks[b].insts|)
    {
    }
  }

  /** Visiting an instruction records at most its own phi. */
  lemma CheckedStateExtends(s: Classification, i: Inst, inHeader: bool, f: LoopFacts, ptrBits: nat)
    requires PhiOf(i) !in s.inductions && PhiOf(i) !in s.reductions
    ensures Extends(s, CheckedState(s, i, inHeader, f, ptrBits), PhiOf(i))
  {
    if i.op.PhiOp? && inHeader && IsValidElementType(i.ty) && i.op.numIncoming == 2 {
      ClassifiedStateSpec(s, i, f.hasNoNaNsAttr, ptrBits);
    }
  }

  /** Scanning the first `k` instructions of block `b` from a state whose keys are all behind the
    * block keeps every key behind the scan, so each visited instruction is fresh when visited. */
  lemma {:induction false} ScanInstsKeys(f: LoopFacts, s0: Classification, b: nat, k: nat, ptrBits: nat)
    requires WellFormed(f) && b < |f.blocks| && k <= |f.blocks[b].insts|
    requires KeysNotAhead(f, s0, b, 0)
    requires s0.widestIndTy.Some? ==> WidenedInductionType(s0.widestIndTy.value, ptrBits)
    ensures var s := ScanInsts(s0, f, b, k, ptrBits);
            && KeysNotAhead(f, s, b, k)
            && (s.widestIndTy.Some? ==> WidenedInductionType(s.widestIndTy.value, ptrBits))
    decreases k
  {
    if k > 0 {
      ScanInstsKeys(f, s0, b, k - 1, ptrBits);
      ScanStepKeys(f, s0, b, k - 1, ptrBits);
    }
  }

  /** One visit keeps every key behind the scan and a converted widest type. */
  lemma ScanStepKeys(f: LoopFacts, s0: Classification, b: nat, k: nat, ptrBits: nat)
    requires WellFormed(f) && IsPosition(f, b, k)
    requires var s := ScanInsts(s0, f, b, k, ptrBits);
             && KeysNotAhead(f, s, b, k)
             && (s.widestIndTy.Some? ==> WidenedInductionType(s.widestIndTy.value, ptrBits))
    ensures var t := ScanInsts(s0, f, b, k + 1, ptrBits);
            && KeysNotAhead(f, t, b, k + 1)
            && (t.widestIndTy.Some? ==> WidenedInductionType(t.widestIndTy.value, ptrBits))
  {
    var s := ScanInsts(s0, f, b, k, ptrBits);
    var i := f.blocks[b].insts[k];
    KeysNotAheadFresh(f, s, b, k);
    CheckedStateExtends(s, i, InHeader(f, b), f, ptrBits);
    CheckedStateWidened(s, i, InHeader(f, b), f, ptrBits);
    KeysNotAheadStep(f, s, CheckedState(s, i, InHeader(f, b), f, ptrBits), b, k);
  }


  /** Visiting a fresh instruction keeps the induction summary. */
  lemma CheckedStateSummary(s: Classification, i: Inst, inHeader: bool, f: LoopFacts, ptrBits: nat)
    requires PhiOf(i) !in s.inductions && InductionTypesAgree(i)
    requires s.widestIndTy.Some? ==> WidenedInductionType(s.widestIndTy.value, ptrBits)
    requires InductionSummary(s, ptrBits)
    ensures InductionSummary(CheckedState(s, i, inHeader, f, ptrBits), ptrBits)
  {
    if i.op.PhiOp? && inHeader && IsValidElementType(i.ty) && i.op.numIncoming == 2 {
      ClassifiedStateSummary(s, i, f.hasNoNaNsAttr, ptrBits);
    } else {
      SummaryFrame(s, CheckedState(s, i, inHeader, f, ptrBits), ptrBits);
    }
  }

  /** Scanning the first `k` instructions of block `b` from a state whose keys are all behind the
    * block keeps the induction summary. */
  lemma {:induction false} ScanInstsSummary(f: LoopFacts, s0: Classification, b: nat, k: nat, ptrBits: nat)
    requires WellFormed(f) && b < |f.blocks| && k <= |f.blocks[b].insts|
    requires KeysNotAhead(f, s0, b, 0)
    requires s0.widestIndTy.Some? ==> WidenedInductionType(s0.widestIndTy.value, ptrBits)
    requires InductionSummary(s0, ptrBits)
    ensures InductionSummary(ScanInsts(s0, f, b, k, ptrBits), ptrBits)
    decreases k
  {
    if k > 0 {
      ScanInstsSummary(f, s0, b, k - 1, ptrBits);
      ScanInstsFresh(f, s0, b, k - 1, ptrBits);
      ScanInstsWidened(f, s0, b, k - 1, ptrBits);
      ScanSummaryStep(f, s0, b, k - 1, ptrBits);
    }
  }

  /**
   * Scanning the first `k` instructions of block `b` from a state whose keys are all behind the
   * block records inductions only for the phis it visits in the header, only adds SCEV
   * predicates, and while the SCEV predicate is not trivially true lets only reduction exits out.
   */
  lemma {:induction false} ScanInstsProgress(f: LoopFacts, s0: Classification, b: nat, k: nat, ptrBits: nat)
    requires WellFormed(f) && b < |f.blocks| && k <= |f.blocks[b].insts|
    requires KeysNotAhead(f, s0, b, 0)
    requires s0.widestIndTy.Some? ==> WidenedInductionType(s0.widestIndTy.value, ptrBits)
    ensures ScanProgress(f, s0, ScanInsts(s0, f, b, k, ptrBits), b, k, ptrBits)
    decreases k
  {
    if k > 0 {
      ScanInstsProgress(f, s0, b, k - 1, ptrBits);
      ScanInstsFresh(f, s0, b, k - 1, ptrBits);
      ScanInstsWidened(f, s0, b, k - 1, ptrBits);
      ScanProgressStep(f, s0, b, k - 1, ptrBits);
    }
  }

  /** What the block loop of `canVectorizeInstrs` has done once it has visited `b` blocks from `s0`. */
  ghost predicate BlocksProgress(f: LoopFacts, s0: Classification, s: Classification, ptrBits: nat)
    requires 0 < |f.blocks|
  {
    && s0.predicates <= s.predicates
    && (s0.predicates != {} ==> s.allowedExit <= s0.allowedExit + ReductionExits(s.reductions))
    && ReductionExits(s0.reductions) <= ReductionExits(s.reductions)
    && (InductionSummary(s0, ptrBits) ==> InductionSummary(s, ptrBits))
    && s.inductions.Keys <= s0.inductions.Keys + PhiKeys(f.blocks[0].insts, |f.blocks[0].insts|)
  }

  /** Scanning the first `b` blocks from a state whose keys are not instructions of the loop keeps
    * every key behind the scan. */
  lemma {:induction false} ScanBlocksKeys(f: LoopFacts, s0: Classification, b: nat, ptrBits: nat)
    requires WellFormed(f) && b <= |f.blocks|
    requires KeysNotAhead(f, s0, 0, 0)
    requires s0.widestIndTy.Some? ==> WidenedInductionType(s0.widestIndTy.value, ptrBits)
    ensures var s := ScanBlocks(s0, f, b, ptrBits);
            && KeysNotAhead(f, s, b, 0)
            && (s.widestIndTy.Some? ==> WidenedInductionType(s.widestIndTy.value, ptrBits))
    decreases b
  {
    if b > 0 {
      ScanBlocksKeys(f, s0, b - 1, ptrBits);
      var s := ScanBlocks(s0, f, b - 1, ptrBits);
      var n := |f.blocks[b - 1].insts|;
      ScanInstsKeys(f, s, b - 1, n, ptrBits);
      KeysNotAheadNextBlock(f, ScanInsts(s, f, b - 1, n, ptrBits), b - 1);
    }
  }

  /**
   * Scanning the first `b` blocks from a state whose keys are not instructions of the loop keeps
   * the induction summary, and every new induction is a phi of the header.
   */
  lemma {:induction false} ScanBlocksProgress(f: LoopFacts, s0: Classification, b: nat, ptrBits: nat)
    requires WellFormed(f) && b <= |f.blocks|
    requires KeysNotAhead(f, s0, 0, 0)
    requires s0.widestIndTy.Some? ==> WidenedInductionType(s0.widestIndTy.value, ptrBits)
    ensures BlocksProgress(f, s0, ScanBlocks(s0, f, b, ptrBits), ptrBits)
    decreases b
  {
    if b > 0 {
      ScanBlocksProgress(f, s0, b - 1, ptrBits);
      ScanBlocksKeys(f, s0, b - 1, ptrBits);
      var s := ScanBlocks(s0, f, b - 1, ptrBits);
      var n := |f.blocks[b - 1].insts|;
      ScanInstsProgress(f, s, b - 1, n, ptrBits);
      if InductionSummary(s, ptrBits) {
        ScanInstsSummary(f, s, b - 1, n, ptrBits);
      }
      assert b - 1 > 0 ==> !InHeader(f, b - 1);
    }
  }

  lemma PhiKeysMonotone(insts: seq<Inst>, m: nat, n: nat)
    requires m <= n <= |insts|
    ensures PhiKeys(insts, m) <= PhiKeys(insts, n)
    decreases n
  {
    if m < n {
      PhiKeysMonotone(insts, m, n - 1);
    }
  }

  /** The pointer operands of the loads and stores in `insts`. */
  function PointersOf(insts: seq<Inst>): set<nat>
    decreases |insts|
  {
    if insts == [] then {}
    else PointersOf(insts[..|insts| - 1]) +
         (match LoadStorePointer(insts[|insts| - 1]) case Some(p) => {p} case None => {})
  }

  lemma {:induction false} PointersOfIff(insts: seq<Inst>, p: nat)
    ensures p in PointersOf(insts) <==> exists k :: 0 <= k < |insts| && LoadStorePointer(insts[k]) == Some(p)
    decreases |insts|
  {
    if insts != [] {
      var init := insts[..|insts| - 1];
      PointersOfIff(init, p);
      if p in PointersOf(init) {
        var k :| 0 <= k < |init| && LoadStorePointer(init[k]) == Some(p);
        assert insts[k] == init[k];
      }
      forall k | 0 <= k < |init| && LoadStorePointer(insts[k]) == Some(p)
        ensures p in PointersOf(init)
      {
        assert init[k] == insts[k];
      }
    }
  }

  /** The safe pointers of `canVectorizeWithIfConvert`: those accessed in blocks that do not
    * need predication. */
  function SafePointers(blocks: seq<Block>): set<nat>
    decreases |blocks|
  {
    if blocks == [] then {}
    else SafePointers(blocks[..|blocks| - 1]) +
         (if blocks[|blocks| - 1].needsPredication then {} else PointersOf(blocks[|blocks| - 1].insts))
  }

  lemma {:induction false} SafePointersIff(blocks: seq<Block>, p: nat)
    ensures p in SafePointers(blocks) <==>
            exists b, k :: 0 <= b < |blocks| && !blocks[b].needsPredication && 0 <= k < |blocks[b].insts| &&
                           LoadStorePointer(blocks[b].insts[k]) == Some(p)
    decreases |blocks|
  {
    if blocks != [] {
      var init := blocks[..|blocks| - 1];
      var last := blocks[|blocks| - 1];
      SafePointersIff(init, p);
      PointersOfIff(last.insts, p);
      if p in SafePointers(init) {
        var b, k :| 0 <= b < |init| && !init[b].needsPredication && 0 <= k < |init[b].insts| &&
                    LoadStorePointer(init[b].insts[k]) == Some(p);
        assert blocks[b] == init[b];
      }
      forall b, k | 0 <= b < |init| && !blocks[b].needsPredication && 0 <= k < |blocks[b].insts| &&
                    LoadStorePointer(blocks[b].insts[k]) == Some(p)
        ensures p in SafePointers(init)
      {
        assert init[b] == blocks[b];
      }
    }
  }

  /** What `canVectorizeWithIfConvert` demands of one block. */
  predicate BlockIfConvertible(bb: Block, headerId: nat, safePtrs: set<nat>, isParallel: bool)
  {
    && bb.terminator.BranchTerm?
    && (if bb.needsPredication then Predicable(bb.insts, safePtrs, isParallel)
        else bb.id != headerId ==> PhisIfConvertible(bb))
  }

  /** The loads and stores masked when every block that needs predication is predicated. */
  function MaskedInBlocks(blocks: seq<Block>, safePtrs: set<nat>, isParallel: bool): set<nat>
    decreases |blocks|
  {
    if blocks == [] then {}
    else
      var last := blocks[|blocks| - 1];
      MaskedInBlocks(blocks[..|blocks| - 1], safePtrs, isParallel) +
      (if last.needsPredication then MaskedIds(last.insts, safePtrs, isParallel, |last.insts|) else {})
  }

  /** Position `(b1, k1)` comes before `(b, k)` in the scan of blocks and instructions. */
  predicate Before(b1: nat, k1: nat, b: nat, k: nat)
  {
    b1 < b || (b1 == b && k1 < k)
  }

  predicate IsPosition(f: LoopFacts, b: nat, k: nat)
  {
    b < |f.blocks| && k < |f.blocks[b].insts|
  }

  /** `BB == Header` in the scan over the loop's blocks. */
  predicate InHeader(f: LoopFacts, b: nat)
    requires 0 < |f.blocks| && b < |f.blocks|
  {
    f.blocks[b].id == f.blocks[0].id
  }

  /** Every instruction before `(b, k)` has been checked, with the results recorded in `s`. */
  ghost predicate AllCheckedBefore(f: LoopFacts, s: Classification, potentiallyUnsafe: bool, b: nat, k: nat)
    requires 0 < |f.blocks|
  {
    forall b1: nat, k1: nat {:trigger CheckedIn(f.blocks[b1].insts[k1], InHeader(f, b1), s, potentiallyUnsafe, f)} ::
      IsPosition(f, b1, k1) && Before(b1, k1, b, k) ==>
      CheckedIn(f.blocks[b1].insts[k1], InHeader(f, b1), s, potentiallyUnsafe, f)
  }

  /** No recorded induction or reduction phi is an instruction at or after `(b, k)`. */
  ghost predicate KeysNotAhead(f: LoopFacts, s: Classification, b: nat, k: nat)
  {
    && (forall p, b1: nat, k1: nat {:trigger p in s.inductions, f.blocks[b1].insts[k1].id} ::
          p in s.inductions && IsPosition(f, b1, k1) && !Before(b1, k1, b, k) ==> f.blocks[b1].insts[k1].id != p.id)
    && (forall p, b1: nat, k1: nat {:trigger p in s.reductions, f.blocks[b1].insts[k1].id} ::
          p in s.reductions && IsPosition(f, b1, k1) && !Before(b1, k1, b, k) ==> f.blocks[b1].insts[k1].id != p.id)
  }

  /** Every instruction of the loop meets the conditions of `canVectorizeInstrs`. */
  predicate AllInstsAccepted(f: LoopFacts)
    requires 0 < |f.blocks|
  {
    forall b, k :: 0 <= b < |f.blocks| && 0 <= k < |f.blocks[b].insts| ==>
      InstAccepted(f.blocks[b].insts[k], InHeader(f, b))
  }

  lemma AdvanceInst(f: LoopFacts, s0: Classification, s1: Classification, pu0: bool, pu1: bool, b: nat, k: nat)
    requires WellFormed(f) && IsPosition(f, b, k)
    requires AllCheckedBefore(f, s0, pu0, b, k) && KeysNotAhead(f, s0, b, k)
    requires Extends(s0, s1, PhiOf(f.blocks[b].insts[k])) && (pu0 ==> pu1)
    requires CheckedIn(f.blocks[b].insts[k], InHeader(f, b), s1, pu1, f)
    ensures AllCheckedBefore(f, s1, pu1, b, k + 1) && KeysNotAhead(f, s1, b, k + 1)
  {
    var inst := f.blocks[b].insts[k];
    forall b1: nat, k1: nat | IsPosition(f, b1, k1) && Before(b1, k1, b, k + 1)
      ensures CheckedIn(f.blocks[b1].insts[k1], InHeader(f, b1), s1, pu1, f)
    {
      if Before(b1, k1, b, k) {
        assert f.blocks[b1].insts[k1].id != inst.id;
        CheckedInStable(f.blocks[b1].insts[k1], InHeader(f, b1), s0, s1, PhiOf(inst), pu0, pu1, f);
      }
    }
  }

  lemma AdvanceBlock(f: LoopFacts, s: Classification, pu: bool, b: nat)
    requires 0 < |f.blocks| && b < |f.blocks|
    requires AllCheckedBefore(f, s, pu, b, |f.blocks[b].insts|) && KeysNotAhead(f, s, b, |f.blocks[b].insts|)
    ensures AllCheckedBefore(f, s, pu, b + 1, 0) && KeysNotAhead(f, s, b + 1, 0)
  {
    forall b1: nat, k1: nat | IsPosition(f, b1, k1)
      ensures Before(b1, k1, b + 1, 0) <==> Before(b1, k1, b, |f.blocks[b].insts|)
    {
    }
  }

  /** Each of the first `k` instructions of block `b` was checked in against the state right after
    * its own visit. */
  ghost predicate BlockChecked(f: LoopFacts, s0: Classification, b: nat, k: nat, ptrBits: nat, pu: bool)
    requires 0 < |f.blocks| && b < |f.blocks| && k <= |f.blocks[b].insts|
    decreases k
  {
    k == 0 ||
    (BlockChecked(f, s0, b, k - 1, ptrBits, pu) &&
     CheckedIn(f.blocks[b].insts[k - 1], InHeader(f, b), ScanInsts(s0, f, b, k, ptrBits), pu, f))
  }

  lemma {:induction false} BlockCheckedMorePu(f: LoopFacts, s0: Classification, b: nat, k: nat, ptrBits: nat, pu0: bool, pu1: bool)
    requires 0 < |f.blocks| && b < |f.blocks| && k <= |f.blocks[b].insts|
    requires BlockChecked(f, s0, b, k, ptrBits, pu0) && (pu0 ==> pu1)
    ensures BlockChecked(f, s0, b, k, ptrBits, pu1)
    decreases k
  {
    if k > 0 {
      BlockCheckedMorePu(f, s0, b, k - 1, ptrBits, pu0, pu1);
    }
  }

  /** The instruction at `(b, k)` is not yet recorded, and its induction types agree, when the scan
    * of block `b` from `s0` reaches it. */
  ghost predicate FreshWhenVisited(f: LoopFacts, s0: Classification, b: nat, k: nat, ptrBits: nat)
    requires 0 < |f.blocks| && b < |f.blocks| && k < |f.blocks[b].insts|
  {
    var s := ScanInsts(s0, f, b, k, ptrBits); var i := f.blocks[b].insts[k];
    PhiOf(i) !in s.inductions && PhiOf(i) !in s.reductions && InductionTypesAgree(i)
  }

  /** Every instruction of block `b` is fresh when visited, if every key is behind the block. */
  lemma ScanInstsFresh(f: LoopFacts, s0: Classification, b: nat, k: nat, ptrBits: nat)
    requires WellFormed(f) && b < |f.blocks| && k < |f.blocks[b].insts|
    requires KeysNotAhead(f, s0, b, 0)
    requires s0.widestIndTy.Some? ==> WidenedInductionType(s0.widestIndTy.value, ptrBits)
    ensures FreshWhenVisited(f, s0, b, k, ptrBits)
  {
    ScanInstsKeys(f, s0, b, k, ptrBits);
    KeysNotAheadFresh(f, ScanInsts(s0, f, b, k, ptrBits), b, k);
  }

  /** The facts each visit left behind hold together in the state after the last visit. */
  lemma {:induction false} BlockCheckedAll(f: LoopFacts, s0: Classification, pu0: bool, b: nat, n: nat, ptrBits: nat, pu: bool)
    requires WellFormed(f) && b < |f.blocks| && n <= |f.blocks[b].insts|
    requires KeysNotAhead(f, s0, b, 0) && AllCheckedBefore(f, s0, pu0, b, 0) && (pu0 ==> pu)
    requires s0.widestIndTy.Some? ==> WidenedInductionType(s0.widestIndTy.value, ptrBits)
    requires BlockChecked(f, s0, b, n, ptrBits, pu)
    ensures AllCheckedBefore(f, ScanInsts(s0, f, b, n, ptrBits), pu, b, n)
    decreases n
  {
    if n == 0 {
      forall b1: nat, k1: nat | IsPosition(f, b1, k1) && Before(b1, k1, b, 0)
        ensures CheckedIn(f.blocks[b1].insts[k1], InHeader(f, b1), s0, pu, f)
      {
        assert CheckedIn(f.blocks[b1].insts[k1], InHeader(f, b1), s0, pu0, f);
      }
    } else {
      BlockCheckedAll(f, s0, pu0, b, n - 1, ptrBits, pu);
      var s := ScanInsts(s0, f, b, n - 1, ptrBits);
      var i := f.blocks[b].insts[n - 1];
      ScanInstsKeys(f, s0, b, n - 1, ptrBits);
      KeysNotAheadFresh(f, s, b, n - 1);
      CheckedStateExtends(s, i, InHeader(f, b), f, ptrBits);
      AdvanceInst(f, s, ScanInsts(s0, f, b, n, ptrBits), pu, pu, b, n - 1);
    }
  }

  /** Resetting the primary induction keeps every fact the instruction scan recorded. */
  lemma AllCheckedResetPrimary(f: LoopFacts, s: Classification, pu: bool)
    requires 0 < |f.blocks|
    requires AllCheckedBefore(f, s, pu, |f.blocks|, 0)
    ensures AllCheckedBefore(f, ResetPrimary(s), pu, |f.blocks|, 0)
  {
    forall b1: nat, k1: nat | IsPosition(f, b1, k1) && Before(b1, k1, |f.blocks|, 0)
      ensures CheckedIn(f.blocks[b1].insts[k1], InHeader(f, b1), ResetPrimary(s), pu, f)
    {
      assert CheckedIn(f.blocks[b1].insts[k1], InHeader(f, b1), s, pu, f);
    }
  }

  /** Adding SCEV predicates keeps every fact the instruction scan recorded. */
  lemma AllCheckedMorePredicates(f: LoopFacts, s: Classification, pu: bool, extra: set<nat>)
    requires 0 < |f.blocks|
    requires AllCheckedBefore(f, s, pu, |f.blocks|, 0)
    ensures AllCheckedBefore(f, s.(predicates := s.predicates + extra), pu, |f.blocks|, 0)
  {
    forall b1: nat, k1: nat | IsPosition(f, b1, k1) && Before(b1, k1, |f.blocks|, 0)
      ensures CheckedIn(f.blocks[b1].insts[k1], InHeader(f, b1), s.(predicates := s.predicates + extra), pu, f)
    {
      assert CheckedIn(f.blocks[b1].insts[k1], InHeader(f, b1), s, pu, f);
    }
  }

  /** What a successful scan of every block leaves behind once the primary induction is reset. */
  lemma ScanOutcome(f: LoopFacts, s0: Classification, s: Classification, pu: bool, ptrBits: nat)
    requires 0 < |f.blocks|
    requires s.primaryInduction.Some? ==>
               s.primaryInduction.value in s.inductions && s.inductions[s.primaryInduction.value].IsCanonicalIntInduction()
    requires AllCheckedBefore(f, s, pu, |f.blocks|, 0)
    requires BlocksProgress(f, s0, s, ptrBits)
    ensures AllInstsAccepted(f)
    ensures var t := ResetPrimary(s);
            && AllCheckedBefore(f, t, pu, |f.blocks|, 0)
            && (InductionSummary(s0, ptrBits) ==>
                  InductionSummary(t, ptrBits) && (t.primaryInduction.Some? <==> CanonicalOfWidestType(t)))
  {
    CheckedImpliesAccepted(f, s, pu);
    AllCheckedResetPrimary(f, s, pu);
    if InductionSummary(s0, ptrBits) {
      ResetPrimarySpec(s, ptrBits);
    }
  }

  lemma CheckedImpliesAccepted(f: LoopFacts, s: Classification, pu: bool)
    requires 0 < |f.blocks|
    requires AllCheckedBefore(f, s, pu, |f.blocks|, 0)
    ensures AllInstsAccepted(f)
  {
    forall b, k | 0 <= b < |f.blocks| && 0 <= k < |f.blocks[b].insts|
      ensures InstAccepted(f.blocks[b].insts[k], InHeader(f, b))
    {
      assert IsPosition(f, b, k) && Before(b, k, |f.blocks|, 0);
      assert CheckedIn(f.blocks[b].insts[k], InHeader(f, b), s, pu, f);
    }
  }

  /** The loads and stores masked when every block is predicated with no safe pointers. */
  function MaskedInEveryBlock(blocks: seq<Block>, isParallel: bool): set<nat>
    decreases |blocks|
  {
    if blocks == [] then {}
    else
      var last := blocks[|blocks| - 1];
      MaskedInEveryBlock(blocks[..|blocks| - 1], isParallel) + MaskedIds(last.insts, {}, isParallel, |last.insts|)
  }

  /** What `setupOuterLoopInductions` accepts: an integer induction. */
  predicate OuterPhiSupported(i: Inst)
  {
    i.op.PhiOp? && i.op.classifiers.induction.Some? && i.op.classifiers.induction.value.kind == IntInduction
  }

  /** The keys of the first `n` phis of a block. */
  function HeaderPhiRefs(insts: seq<Inst>, n: nat): set<PhiRef>
    requires n <= |insts|
  {
    if n == 0 then {} else HeaderPhiRefs(insts, n - 1) + {PhiOf(insts[n - 1])}
  }

  /** The keys of a prefix of the phis are among the keys of a longer prefix. */
  lemma HeaderPhiRefsMonotone(insts: seq<Inst>, m: nat, n: nat)
    requires m <= n <= |insts|
    ensures HeaderPhiRefs(insts, m) <= HeaderPhiRefs(insts, n)
    decreases n
  {
    if m < n {
      HeaderPhiRefsMonotone(insts, m, n - 1);
    }
  }

  /** How many leading phis `all_of` accepts before it meets the first unsupported one. */
  function SupportedPrefix(insts: seq<Inst>): (n: nat)
    ensures n <= LeadingPhis(insts)
    ensures forall k :: 0 <= k < n ==> OuterPhiSupported(insts[k])
    ensures n < LeadingPhis(insts) ==> !OuterPhiSupported(insts[n])
  {
    if insts == [] || !insts[0].op.PhiOp? || !OuterPhiSupported(insts[0]) then 0
    else 1 + SupportedPrefix(insts[1..])
  }

  /** `setupOuterLoopInductions` on a snapshot: `addInductionPhi` on each of the first `n` header
    * phis in order, each with its integer induction descriptor. */
  function OuterScan(s: Classification, insts: seq<Inst>, n: nat, ptrBits: nat): Classification
    requires n <= SupportedPrefix(insts)
  {
    if n == 0 then s
    else InductionStep(OuterScan(s, insts, n - 1, ptrBits), PhiOf(insts[n - 1]),
                       insts[n - 1].op.classifiers.induction.value, ptrBits)
  }

  /** The values leaving the loop that the first `n` phis allow: each phi and its latch value. */
  function PhiExits(insts: seq<Inst>, n: nat): set<nat>
    requires n <= |insts|
  {
    if n == 0 then {} else PhiExits(insts, n - 1) + {PhiOf(insts[n - 1]).id, PhiOf(insts[n - 1]).latchIncoming}
  }

  /** The first casts of the induction descriptors of the first `n` phis. */
  function FirstCasts(insts: seq<Inst>, n: nat): set<nat>
    requires n <= SupportedPrefix(insts)
  {
    if n == 0 then {} else FirstCasts(insts, n - 1) + FirstCast(insts[n - 1].op.classifiers.induction.value)
  }

  /** The first `n` phis have distinct ids, none the id of an already recorded induction. */
  ghost predicate OuterPhisFresh(s: Classification, insts: seq<Inst>, n: nat)
    requires n <= |insts|
  {
    && (forall j, k :: 0 <= j < k < n ==> insts[j].id != insts[k].id)
    && (forall p, j :: p in s.inductions && 0 <= j < n ==> insts[j].id != p.id)
  }

  /** Before any instruction of the loop is visited, the header phis are fresh. */
  lemma HeaderPhisFresh(f: LoopFacts, s: Classification)
    requires WellFormed(f) && KeysNotAhead(f, s, 0, 0)
    ensures OuterPhisFresh(s, f.blocks[0].insts, |f.blocks[0].insts|)
  {
    var insts := f.blocks[0].insts;
    forall j, k | 0 <= j < k < |insts|
      ensures insts[j].id != insts[k].id
    {
      assert IsPosition(f, 0, j) && IsPosition(f, 0, k);
    }
    forall p, j | p in s.inductions && 0 <= j < |insts|
      ensures insts[j].id != p.id
    {
      assert IsPosition(f, 0, j) && !Before(0, j, 0, 0);
    }
  }

  /** Scanning the header phis records exactly the phis visited. */
  lemma {:induction false} OuterScanKeys(s: Classification, insts: seq<Inst>, n: nat, ptrBits: nat)
    requires n <= SupportedPrefix(insts)
    ensures OuterScan(s, insts, n, ptrBits).inductions.Keys == s.inductions.Keys + HeaderPhiRefs(insts, n)
    decreases n
  {
    if n > 0 {
      OuterScanKeys(s, insts, n - 1, ptrBits);
      InductionStepFrame(OuterScan(s, insts, n - 1, ptrBits), PhiOf(insts[n - 1]),
                         insts[n - 1].op.classifiers.induction.value, ptrBits);
    }
  }

  /**
   * Scanning the header phis lets out the phis visited and their latch values while the SCEV
   * predicate is trivially true, ignores their first casts, and leaves the other tables alone.
   */
  lemma {:induction false} OuterScanFrame(s: Classification, insts: seq<Inst>, n: nat, ptrBits: nat)
    requires n <= SupportedPrefix(insts)
    ensures var t := OuterScan(s, insts, n, ptrBits);
            && t.allowedExit == s.allowedExit + (if s.predicates == {} then PhiExits(insts, n) else {})
            && t.castsToIgnore == s.castsToIgnore + FirstCasts(insts, n)
            && t.reductions == s.reductions && t.firstOrderRecurrences == s.firstOrderRecurrences
            && t.predicates == s.predicates && t.unsafeAlgebraInst == s.unsafeAlgebraInst
    decreases n
  {
    if n > 0 {
      OuterScanFrame(s, insts, n - 1, ptrBits);
      InductionStepFrame(OuterScan(s, insts, n - 1, ptrBits), PhiOf(insts[n - 1]),
                         insts[n - 1].op.classifiers.induction.value, ptrBits);
    }
  }

  /** Over fresh phis, the scan keeps every earlier entry and maps each visited phi to its descriptor. */
  lemma {:induction false} OuterScanEntries(s: Classification, insts: seq<Inst>, n: nat, ptrBits: nat)
    requires n <= SupportedPrefix(insts) && OuterPhisFresh(s, insts, n)
    ensures var t := OuterScan(s, insts, n, ptrBits);
            && (forall p :: p in s.inductions ==> p in t.inductions && t.inductions[p] == s.inductions[p])
            && (forall k :: 0 <= k < n ==>
                  PhiOf(insts[k]) in t.inductions && t.inductions[PhiOf(insts[k])] == insts[k].op.classifiers.induction.value)
    decreases n
  {
    if n > 0 {
      OuterScanEntries(s, insts, n - 1, ptrBits);
      var t := OuterScan(s, insts, n - 1, ptrBits);
      forall p | p in s.inductions
        ensures p != PhiOf(insts[n - 1])
      {
        assert insts[n - 1].id != p.id;
      }
      forall k | 0 <= k < n - 1
        ensures PhiOf(insts[k]) != PhiOf(insts[n - 1])
      {
        assert insts[k].id != insts[n - 1].id;
      }
    }
  }

  /** The next phi of a fresh scan is not yet recorded. */
  lemma OuterScanNextFresh(s: Classification, insts: seq<Inst>, n: nat, ptrBits: nat)
    requires n < SupportedPrefix(insts) && OuterPhisFresh(s, insts, n + 1)
    ensures PhiOf(insts[n]) !in OuterScan(s, insts, n, ptrBits).inductions
  {
    OuterScanKeys(s, insts, n, ptrBits);
    HeaderPhiRefsFresh(insts, n, insts[n].id);
    assert PhiOf(insts[n]).id == insts[n].id;
  }

  /** No phi among the first `n` has an id that none of them has. */
  lemma {:induction false} HeaderPhiRefsFresh(insts: seq<Inst>, n: nat, id: nat)
    requires n <= |insts| && forall k :: 0 <= k < n ==> insts[k].id != id
    ensures forall p :: p in HeaderPhiRefs(insts, n) ==> p.id != id
    decreases n
  {
    if n > 0 {
      HeaderPhiRefsFresh(insts, n - 1, id);
    }
  }

  /** One step of the outer scan keeps the induction summary and a widened widest type. */
  lemma OuterStepSummary(t: Classification, i: Inst, ptrBits: nat)
    requires OuterPhiSupported(i) && InductionTypesAgree(i) && PhiOf(i) !in t.inductions
    requires t.widestIndTy.Some? ==> WidenedInductionType(t.widestIndTy.value, ptrBits)
    requires InductionSummary(t, ptrBits)
    ensures var u := InductionStep(t, PhiOf(i), i.op.classifiers.induction.value, ptrBits);
            && InductionSummary(u, ptrBits)
            && (u.widestIndTy.Some? ==> WidenedInductionType(u.widestIndTy.value, ptrBits))
  {
    InductionStepSummary(t, PhiOf(i), i.op.classifiers.induction.value, ptrBits);
    WidenedGrows(t.widestIndTy, PhiOf(i).ty, ptrBits);
  }

  /** The `m`-th header phi is not yet recorded when the outer scan reaches it, and its induction
    * types agree. */
  ghost predicate OuterStepReady(s: Classification, insts: seq<Inst>, m: nat, ptrBits: nat)
    requires m < SupportedPrefix(insts)
  {
    PhiOf(insts[m]) !in OuterScan(s, insts, m, ptrBits).inductions && InductionTypesAgree(insts[m])
  }

  /** Over fresh phis of integer type, the scan keeps the induction summary and a converted widest type. */
  lemma {:induction false} OuterScanSummary(s: Classification, insts: seq<Inst>, n: nat, ptrBits: nat)
    requires n <= SupportedPrefix(insts)
    requires forall m :: 0 <= m < n ==> OuterStepReady(s, insts, m, ptrBits)
    requires s.widestIndTy.Some? ==> WidenedInductionType(s.widestIndTy.value, ptrBits)
    requires InductionSummary(s, ptrBits)
    ensures var t := OuterScan(s, insts, n, ptrBits);
            && InductionSummary(t, ptrBits)
            && (t.widestIndTy.Some? ==> WidenedInductionType(t.widestIndTy.value, ptrBits))
    decreases n
  {
    if n > 0 {
      OuterScanSummary(s, insts, n - 1, ptrBits);
      assert OuterStepReady(s, insts, n - 1, ptrBits);
      OuterStepSummary(OuterScan(s, insts, n - 1, ptrBits), insts[n - 1], ptrBits);
    }
  }


  /**
   * `setupOuterLoopInductions` has no reset of the primary induction: over a canonical `i32`
   * induction followed by a wider non-canonical one, the narrower phi stays primary although no
   * canonical induction has the widest type.
   */
  lemma OuterPrimaryMayBeNarrower()
    ensures var canonical := InductionDescriptor(IntInduction, true, true, [], None);
            var stepped := InductionDescriptor(IntInduction, false, true, [], None);
            var phi0 := Inst(1, IntTy(32), PhiOp(2, 3, PhiClassifiers(None, Some(canonical), false, None, {})),
                             false, false, false, false, false);
            var phi1 := Inst(4, IntTy(64), PhiOp(2, 5, PhiClassifiers(None, Some(stepped), false, None, {})),
                             false, false, false, false, false);
            var insts := [phi0, phi1];
            var s := Classification(map[], map[], {}, {}, {}, None, None, None, {});
            var t := OuterScan(s, insts, 2, 64);
            && SupportedPrefix(insts) == 2
            && t.primaryInduction == Some(PhiOf(phi0))
            && t.widestIndTy == Some(IntTy(64))
            && !CanonicalOfWidestType(t)
  {
    var canonical := InductionDescriptor(IntInduction, true, true, [], None);
    var stepped := InductionDescriptor(IntInduction, false, true, [], None);
    var phi0 := Inst(1, IntTy(32), PhiOp(2, 3, PhiClassifiers(None, Some(canonical), false, None, {})),
                     false, false, false, false, false);
    var phi1 := Inst(4, IntTy(64), PhiOp(2, 5, PhiClassifiers(None, Some(stepped), false, None, {})),
                     false, false, false, false, false);
    var insts := [phi0, phi1];
    assert insts[1..][1..] == [];
    assert SupportedPrefix(insts) == 2;
    var s := Classification(map[], map[], {}, {}, {}, None, None, None, {});
    var t1 := OuterScan(s, insts, 1, 64);
    assert t1 == InductionStep(s, PhiOf(phi0), canonical, 64) by {
      assert OuterScan(s, insts, 0, 64) == s && insts[0] == phi0;
    }
    assert ConvertPointerToIntegerType(64, IntTy(32)) == IntTy(32);
    assert t1.widestIndTy == Some(IntTy(32)) && t1.primaryInduction == Some(PhiOf(phi0));
    var t := OuterScan(s, insts, 2, 64);
    assert t == InductionStep(t1, PhiOf(phi1), stepped, 64) by {
      assert insts[1] == phi1;
    }
    assert GetWiderType(64, IntTy(64), IntTy(32)) == IntTy(64);
    assert t.widestIndTy == Some(IntTy(64));
    assert t.inductions == map[PhiOf(phi0) := canonical, PhiOf(phi1) := stepped];
  }

  predicate OuterHeaderPhisSupported(header: Block)
  {
    forall k :: 0 <= k < LeadingPhis(header.insts) ==> OuterPhiSupported(header.insts[k])
  }

  /** The terminators `canVectorizeOuterLoop` understands: branches, and unless VPlan predication
    * is enabled, only unconditional ones, ones on a loop-invariant condition, or backedges. */
  predicate OuterBranchOk(t: Terminator, enableVPlanPredication: bool)
  {
    && t.BranchTerm?
    && (enableVPlanPredication || t.cond.None? || t.cond.value.invariantInLoop || t.cond.value.targetsLoopHeader)
  }

  /** The verdict of `canVectorizeOuterLoop`. */
  predicate OuterLoopOk(f: LoopFacts, cfg: Config)
    requires 0 < |f.blocks|
  {
    && (forall b :: 0 <= b < |f.blocks| ==> OuterBranchOk(f.blocks[b].terminator, cfg.enableVPlanPredication))
    && IsUniformLoopNest(f.nest, f.nest.id, f.outerInvariant)
    && OuterHeaderPhisSupported(f.blocks[0])
  }

  /** What loop access analysis must report for `canVectorizeMemory` to succeed. */
  predicate MemoryOk(m: MemoryAnalysis)
  {
    m.canVectorizeMemory && !m.dependenceOnInvariantAddress
  }

  /** The SCEV check threshold of `canVectorize`: the pragma threshold when vectorization is forced. */
  function SCEVThreshold(cfg: Config, force: ForceKind): (t: nat)
    ensures force == ForceEnabled ==> t == cfg.pragmaScevCheckThreshold
    ensures force != ForceEnabled ==> t == cfg.scevCheckThreshold
  {
    if force == ForceEnabled then cfg.pragmaScevCheckThreshold else cfg.scevCheckThreshold
  }

  /**
   * The SCEV threshold `canVectorize` compares against follows the enable pragma: an enable of 1
   * selects the pragma threshold and an enable of 0 the normal one. With the file's defaults
   * (16 and 128) an enable of 1 never lowers the threshold the loop had before the pragma, so
   * the pragma only admits more loops.
   */
  lemma SCEVThresholdOfEnablePragma(cfg: Config, h: HintValues, v: nat)
    requires v <= 1
    ensures var h' := SetHintValues(h, Prefix + HintName(HintForce), ConstInt(v), cfg.maxVectorWidth);
            SCEVThreshold(cfg, ForceOf(h'.force)) == if v == 1 then cfg.pragmaScevCheckThreshold else cfg.scevCheckThreshold
    ensures var h' := SetHintValues(h, Prefix + HintName(HintForce), ConstInt(v), cfg.maxVectorWidth);
            HasFileDefaults(cfg) && v == 1 ==> SCEVThreshold(cfg, ForceOf(h'.force)) >= SCEVThreshold(cfg, ForceOf(h.force))
  {
    var h' := SetHintValues(h, Prefix + HintName(HintForce), ConstInt(v), cfg.maxVectorWidth);
    assert Validate(HintForce, Truncate32(v), cfg.maxVectorWidth);
    assert h'.Get(HintForce) == v;
  }

  class LoopVectorizationLegality {
    const theLoop: LoopFacts
    const cfg: Config
    const hints: LoopVectorizeHints
    const requirements: LoopVectorizationRequirements

    var primaryInduction: Option<PhiRef>
    var widestIndTy: Option<Type>
    var inductions: map<PhiRef, InductionDescriptor>
    var inductionCastsToIgnore: set<nat>
    var reductions: map<PhiRef, RecurrenceDescriptor>
    var firstOrderRecurrences: set<PhiRef>
    var allowedExit: set<nat>
    var maskedOp: set<nat>
    var psePredicates: set<nat>     // the union predicate of the predicated scalar evolution

    /** The primary induction is a recorded canonical integer induction, and the widest
      * induction type is a converted type. */
    predicate Valid()
      reads this
    {
      && (primaryInduction.Some? ==>
            && primaryInduction.value in inductions
            && inductions[primaryInduction.value].IsCanonicalIntInduction()
            && widestIndTy.Some?)
      && (widestIndTy.Some? ==> WidenedInductionType(widestIndTy.value, cfg.ptrBits))
    }

    function Snapshot(): Classification
      reads this, requirements
    {
      Classification(inductions, reductions, firstOrderRecurrences, allowedExit, psePredicates,
                     requirements.unsafeAlgebraInst, widestIndTy, primaryInduction, inductionCastsToIgnore)
    }

    constructor (theLoop: LoopFacts, cfg: Config, hints: LoopVectorizeHints, requirements: LoopVectorizationRequirements)
      ensures this.theLoop == theLoop && this.cfg == cfg && this.hints == hints && this.requirements == requirements
      ensures primaryInduction.None? && widestIndTy.None?
      ensures inductions == map[] && reductions == map[] && firstOrderRecurrences == {}
      ensures inductionCastsToIgnore == {} && allowedExit == {} && maskedOp == {} && psePredicates == {}
      ensures Valid()
    {
      this.theLoop := theLoop;
      this.cfg := cfg;
      this.hints := hints;
      this.requirements := requirements;
      primaryInduction := None;
      widestIndTy := None;
      inductions := map[];
      inductionCastsToIgnore := {};
      reductions := map[];
      firstOrderRecurrences := {};
      allowedExit := {};
      maskedOp := {};
      psePredicates := {};
    }

    /** With a pointer size of at least 32 bits the widest induction type is at least 32 bits wide. */
    lemma WidestAtLeast32()
      requires Valid() && widestIndTy.Some? && cfg.ptrBits >= 32
      ensures ScalarSizeInBits(widestIndTy.value) >= 32
    {
    }

    /** `addInductionPhi`. */
    method AddInductionPhi(phi: PhiRef, id: InductionDescriptor)
      requires Valid()
      requires phi !in inductions
      requires id.kind == IntInduction ==> phi.ty.IntTy?
      modifies this`inductions, this`inductionCastsToIgnore, this`widestIndTy, this`primaryInduction, this`allowedExit
      ensures Valid()
      ensures inductions == old(inductions)[phi := id]
      ensures inductionCastsToIgnore == old(inductionCastsToIgnore) + (if |id.casts| > 0 then {id.casts[0]} else {})
      ensures widestIndTy ==
              if phi.ty.FloatTy? then old(widestIndTy)
              else if old(widestIndTy).None? then Some(ConvertPointerToIntegerType(cfg.ptrBits, phi.ty))
              else Some(GetWiderType(cfg.ptrBits, phi.ty, old(widestIndTy).value))
      ensures primaryInduction ==
              if id.IsCanonicalIntInduction() && (old(primaryInduction).None? || widestIndTy == Some(phi.ty))
              then Some(phi) else old(primaryInduction)
      ensures allowedExit == old(allowedExit) + (if psePredicates == {} then {phi.id, phi.latchIncoming} else {})
      ensures Snapshot() == InductionStep(old(Snapshot()), phi, id, cfg.ptrBits)
    {
      inductions := inductions[phi := id];
      inductionCastsToIgnore := inductionCastsToIgnore + FirstCast(id);
      widestIndTy := WidenedBy(widestIndTy, phi.ty, cfg.ptrBits);
      if id.IsCanonicalIntInduction() && (primaryInduction.None? || widestIndTy == Some(phi.ty)) {
        primaryInduction := Some(phi);
      }
      allowedExit := allowedExit + InductionExits(psePredicates, phi);
    }

    /** `blockCanBePredicated`: the verdict, and the loads and stores recorded as needing a mask. */
    method BlockCanBePredicated(bb: Block, safePtrs: set<nat>) returns (r: bool)
      modifies this`maskedOp
      ensures r <==> Predicable(bb.insts, safePtrs, theLoop.isAnnotatedParallel)
      ensures maskedOp == old(maskedOp) +
              MaskedIds(bb.insts, safePtrs, theLoop.isAnnotatedParallel,
                        FirstReject(bb.insts, safePtrs, theLoop.isAnnotatedParallel))
    {
      var par := theLoop.isAnnotatedParallel;
      var i := 0;
      while i < |bb.insts|
        invariant 0 <= i <= |bb.insts|
        invariant forall k :: 0 <= k < i ==> Step(bb.insts[k], safePtrs, par) != Reject
        invariant maskedOp == old(maskedOp) + MaskedIds(bb.insts, safePtrs, par, i)
      {
        var inst := bb.insts[i];
        MaskedIdsStep(bb.insts, safePtrs, par, i);
        if inst.hasTrappingConstantOperand {
          FirstRejectAt(bb.insts, safePtrs, par, i);
          return false;
        }
        if inst.mayReadFromMemory && !inst.op.LoadOp? {
          FirstRejectAt(bb.insts, safePtrs, par, i);
          return false;
        }
        if inst.mayReadFromMemory && inst.op.ptr !in safePtrs {
          if !par {
            maskedOp := maskedOp + {inst.id};
          }
        } else if inst.mayWriteToMemory {
          if !inst.op.StoreOp? {
            FirstRejectAt(bb.insts, safePtrs, par, i);
            return false;
          }
          maskedOp := maskedOp + {inst.id};
        } else if inst.mayThrow {
          FirstRejectAt(bb.insts, safePtrs, par, i);
          return false;
        }
        i := i + 1;
      }
      FirstRejectAt(bb.insts, safePtrs, par, i);
      return true;
    }
    /** The first loop of `canVectorizeWithIfConvert`: collect the pointers of unpredicated blocks. */
    static method CollectSafePointers(blocks: seq<Block>) returns (safePtrs: set<nat>)
      ensures safePtrs == SafePointers(blocks)
    {
      safePtrs := {};
      var b := 0;
      while b < |blocks|
        invariant 0 <= b <= |blocks|
        invariant safePtrs == SafePointers(blocks[..b])
      {
        if !blocks[b].needsPredication {
          var insts := blocks[b].insts;
          var k := 0;
          while k < |insts|
            invariant 0 <= k <= |insts|
            invariant safePtrs == SafePointers(blocks[..b]) + PointersOf(insts[..k])
          {
            assert insts[..k + 1][..k] == insts[..k];
            match LoadStorePointer(insts[k]) {
              case Some(p) => safePtrs := safePtrs + {p};
              case None =>
            }
            k := k + 1;
          }
          assert insts[..k] == insts;
        }
        assert blocks[..b + 1][..b] == blocks[..b];
        b := b + 1;
      }
      assert blocks[..b] == blocks;
    }

    /** One iteration of the block loop of `canVectorizeWithIfConvert`. */
    method IfConvertBlock(bb: Block, headerId: nat, safePtrs: set<nat>) returns (ok: bool)
      modifies this`maskedOp
      ensures ok <==> BlockIfConvertible(bb, headerId, safePtrs, theLoop.isAnnotatedParallel)
      ensures old(maskedOp) <= maskedOp
      ensures ok ==> maskedOp == old(maskedOp) +
                     (if bb.needsPredication then MaskedIds(bb.insts, safePtrs, theLoop.isAnnotatedParallel, |bb.insts|) else {})
    {
      if !bb.terminator.BranchTerm? {
        return false;
      }
      if bb.needsPredication {
        ok := BlockCanBePredicated(bb, safePtrs);
        if ok {
          FirstRejectAt(bb.insts, safePtrs, theLoop.isAnnotatedParallel, |bb.insts|);
        }
      } else if bb.id != headerId {
        ok := CanIfConvertPHINodes(bb);
      } else {
        ok := true;
      }
    }

    /** `canVectorizeWithIfConvert`: if-conversion is enabled and every block is if-convertible
      * with the pointers of the unpredicated blocks taken as safe. */
    method CanVectorizeWithIfConvert() returns (r: bool)
      requires |theLoop.blocks| > 1
      modifies this`maskedOp
      ensures r <==> cfg.enableIfConversion &&
                     forall b :: 0 <= b < |theLoop.blocks| ==>
                       BlockIfConvertible(theLoop.blocks[b], theLoop.blocks[0].id,
                                          SafePointers(theLoop.blocks), theLoop.isAnnotatedParallel)
      ensures old(maskedOp) <= maskedOp
      ensures r ==> maskedOp == old(maskedOp) +
                    MaskedInBlocks(theLoop.blocks, SafePointers(theLoop.blocks), theLoop.isAnnotatedParallel)
    {
      if !cfg.enableIfConversion {
        return false;
      }
      var blocks := theLoop.blocks;
      var par := theLoop.isAnnotatedParallel;
      var safePtrs := CollectSafePointers(blocks);
      var headerId := blocks[0].id;
      var b := 0;
      while b < |blocks|
        invariant 0 <= b <= |blocks|
        invariant forall j :: 0 <= j < b ==> BlockIfConvertible(blocks[j], headerId, safePtrs, par)
        invariant maskedOp == old(maskedOp) + MaskedInBlocks(blocks[..b], safePtrs, par)
      {
        assert blocks[..b + 1][..b] == blocks[..b];
        var ok := IfConvertBlock(blocks[b], headerId, safePtrs);
        if !ok {
          return false;
        }
        b := b + 1;
      }
      assert blocks[..b] == blocks;
      return true;
    }
    /** The reduction branch of `canVectorizeInstrs`: record the descriptor, note its unsafe
      * algebra, and allow its exit value to leave the loop. */
    method AddReductionPhi(phi: PhiRef, rd: RecurrenceDescriptor)
      requires phi !in reductions
      modifies this`reductions, this`allowedExit, requirements`unsafeAlgebraInst
      ensures Snapshot() == old(Snapshot()).(
                reductions := old(reductions)[phi := rd],
                allowedExit := old(allowedExit) + {rd.loopExitInstr},
                unsafeAlgebraInst := if old(requirements.unsafeAlgebraInst).None? then rd.unsafeAlgebraInst
                                     else old(requirements.unsafeAlgebraInst))
      ensures ReductionExits(reductions) == ReductionExits(old(reductions)) + {rd.loopExitInstr}
    {
      if rd.unsafeAlgebraInst.Some? {
        requirements.AddUnsafeAlgebraInst(rd.unsafeAlgebraInst.value);
      }
      allowedExit := allowedExit + {rd.loopExitInstr};
      ReductionExitsAdd(reductions, phi, rd);
      reductions := reductions[phi := rd];
    }

    /** The classification chain of `canVectorizeInstrs` for a header phi with two incoming values:
      * reduction, then induction, then first-order recurrence, then coerced induction. */
    method ClassifyHeaderPhi(inst: Inst) returns (ok: bool)
      requires Valid()
      requires inst.op.PhiOp? && InductionTypesAgree(inst)
      requires PhiOf(inst) !in inductions && PhiOf(inst) !in reductions
      modifies this`inductions, this`inductionCastsToIgnore, this`widestIndTy, this`primaryInduction,
               this`allowedExit, this`reductions, this`firstOrderRecurrences, this`psePredicates,
               requirements`unsafeAlgebraInst
      ensures Valid()
      ensures Snapshot() == ClassifiedState(old(Snapshot()), inst, theLoop.hasNoNaNsAttr, cfg.ptrBits)
      ensures ok <==> Classify(inst.op.classifiers) != UnidentifiedPhi
    {
      var c := inst.op.classifiers;
      var phi := PhiOf(inst);
      if c.reduction.Some? {
        AddReductionPhi(phi, c.reduction.value);
        return true;
      }
      if c.induction.Some? {
        AddInductionPhi(phi, c.induction.value);
        if c.induction.value.unsafeAlgebraInst.Some? && !theLoop.hasNoNaNsAttr {
          requirements.AddUnsafeAlgebraInst(c.induction.value.unsafeAlgebraInst.value);
        }
        return true;
      }
      if c.firstOrderRecurrence {
        firstOrderRecurrences := firstOrderRecurrences + {phi};
        return true;
      }
      if c.coercedInduction.Some? {
        psePredicates := psePredicates + c.coercionPredicates;
        AddInductionPhi(phi, c.coercedInduction.value);
        return true;
      }
      return false;
    }

    /** The body of the instruction loop of `canVectorizeInstrs`, for one instruction. */
    method CheckInstruction(inst: Inst, inHeader: bool) returns (ok: bool)
      requires Valid()
      requires InductionTypesAgree(inst)
      requires PhiOf(inst) !in inductions && PhiOf(inst) !in reductions
      modifies this`inductions, this`inductionCastsToIgnore, this`widestIndTy, this`primaryInduction,
               this`allowedExit, this`reductions, this`firstOrderRecurrences, this`psePredicates,
               requirements`unsafeAlgebraInst, hints`potentiallyUnsafe
      ensures Valid()
      ensures Extends(old(Snapshot()), Snapshot(), PhiOf(inst))
      ensures old(hints.potentiallyUnsafe) ==> hints.potentiallyUnsafe
      ensures ok ==> CheckedIn(inst, inHeader, Snapshot(), hints.potentiallyUnsafe, theLoop)
      ensures !InstAccepted(inst, inHeader) ==> !ok
      ensures old(psePredicates) != {} ==> allowedExit <= old(allowedExit) + ReductionExits(reductions)
      ensures ReductionExits(old(reductions)) <= ReductionExits(reductions)
      ensures Snapshot() == CheckedState(old(Snapshot()), inst, inHeader, theLoop, cfg.ptrBits)
      ensures !(inst.op.PhiOp? && inHeader) ==> inductions == old(inductions)
    {
      CheckedStateSpec(Snapshot(), inst, inHeader, theLoop, cfg.ptrBits);
      if inst.op.PhiOp? {
        ok := CheckPhi(inst, inHeader);
      } else {
        ok := CheckNonPhi(inst, inHeader);
      }
    }

    /** The phi part of the loop body of `canVectorizeInstrs`. */
    method CheckPhi(inst: Inst, inHeader: bool) returns (ok: bool)
      requires Valid()
      requires inst.op.PhiOp? && InductionTypesAgree(inst)
      requires PhiOf(inst) !in inductions && PhiOf(inst) !in reductions
      modifies this`inductions, this`inductionCastsToIgnore, this`widestIndTy, this`primaryInduction,
               this`allowedExit, this`reductions, this`firstOrderRecurrences, this`psePredicates,
               requirements`unsafeAlgebraInst
      ensures Valid()
      ensures ok ==> CheckedIn(inst, inHeader, Snapshot(), hints.potentiallyUnsafe, theLoop)
      ensures !InstAccepted(inst, inHeader) ==> !ok
      ensures Snapshot() == CheckedState(old(Snapshot()), inst, inHeader, theLoop, cfg.ptrBits)
    {
      if !IsValidElementType(inst.ty) {
        return false;
      }
      if !inHeader {
        return true;
      }
      if inst.op.numIncoming != 2 {
        return false;
      }
      ClassifiedStateSpec(Snapshot(), inst, theLoop.hasNoNaNsAttr, cfg.ptrBits);
      ok := ClassifyHeaderPhi(inst);
    }

    /** The part of the loop body of `canVectorizeInstrs` for instructions other than phis. */
    method CheckNonPhi(inst: Inst, inHeader: bool) returns (ok: bool)
      requires !inst.op.PhiOp?
      modifies this`allowedExit, hints`potentiallyUnsafe
      ensures old(hints.potentiallyUnsafe) ==> hints.potentiallyUnsafe
      ensures ok ==> CheckedIn(inst, inHeader, Snapshot(), hints.potentiallyUnsafe, theLoop)
      ensures !InstAccepted(inst, inHeader) ==> !ok
      ensures Snapshot() == CheckedState(old(Snapshot()), inst, inHeader, theLoop, cfg.ptrBits)
    {
      if inst.op.CallOp? {
        var call := inst.op.call;
        if !call.hasVectorIntrinsic && !call.isDbgInfoIntrinsic && !call.hasVectorLibraryFunction {
          return false;
        }
        if !call.scalarOperandsInvariant {
          return false;
        }
      }
      if (!IsValidElementType(inst.ty) && !inst.ty.VoidTy?) || inst.op.ExtractElementOp? {
        return false;
      }
      if inst.op.StoreOp? {
        if !IsValidElementType(inst.op.valueTy) {
          return false;
        }
      } else if inst.ty.FloatTy? && (inst.op.CallOp? || inst.op.BinaryOp?) && !inst.isFast {
        hints.SetPotentiallyUnsafe();
      }
      if HasOutsideLoopUser(inst, allowedExit, theLoop.usedOutside) {
        if psePredicates == {} {
          allowedExit := allowedExit + {inst.id};
          return true;
        }
        return false;
      }
      return true;
    }

    /** The instruction loop of `canVectorizeInstrs` over block `b`: each instruction is checked
      * in order, and the scan of the block stops at the first rejection. */
    method CheckBlockInstrs(b: nat) returns (ok: bool)
      requires b < |theLoop.blocks|
      requires Valid() && WellFormed(theLoop)
      requires AllCheckedBefore(theLoop, Snapshot(), hints.potentiallyUnsafe, b, 0)
      requires KeysNotAhead(theLoop, Snapshot(), b, 0)
      modifies this`inductions, this`inductionCastsToIgnore, this`widestIndTy, this`primaryInduction,
               this`allowedExit, this`reductions, this`firstOrderRecurrences, this`psePredicates,
               requirements`unsafeAlgebraInst, hints`potentiallyUnsafe
      ensures Valid()
      ensures ok ==> AllCheckedBefore(theLoop, Snapshot(), hints.potentiallyUnsafe, b + 1, 0)
      ensures ok ==> KeysNotAhead(theLoop, Snapshot(), b + 1, 0)
      ensures old(psePredicates) <= psePredicates
      ensures old(psePredicates) != {} ==> allowedExit <= old(allowedExit) + ReductionExits(reductions)
      ensures ReductionExits(old(reductions)) <= ReductionExits(reductions)
      ensures ok ==> Snapshot() == ScanInsts(old(Snapshot()), theLoop, b, |theLoop.blocks[b].insts|, cfg.ptrBits)
      ensures ok && InductionSummary(old(Snapshot()), cfg.ptrBits) ==> InductionSummary(Snapshot(), cfg.ptrBits)
      ensures ok ==> inductions.Keys <= old(inductions).Keys +
                     if InHeader(theLoop, b) then PhiKeys(theLoop.blocks[b].insts, |theLoop.blocks[b].insts|) else {}
    {
      ghost var start := Snapshot();
      ghost var puStart := hints.potentiallyUnsafe;
      forall k | 0 <= k < |theLoop.blocks[b].insts|
        ensures FreshWhenVisited(theLoop, start, b, k, cfg.ptrBits)
      {
        ScanInstsFresh(theLoop, start, b, k, cfg.ptrBits);
      }
      ghost var n;
      ok, n := VisitInsts(b);
      ScanInstsProgress(theLoop, start, b, n, cfg.ptrBits);
      if ok {
        BlockCheckedAll(theLoop, start, puStart, b, n, cfg.ptrBits, hints.potentiallyUnsafe);
        ScanInstsKeys(theLoop, start, b, n, cfg.ptrBits);
        AdvanceBlock(theLoop, Snapshot(), hints.potentiallyUnsafe, b);
        if InductionSummary(start, cfg.ptrBits) {
          ScanInstsSummary(theLoop, start, b, n, cfg.ptrBits);
        }
      }
    }

    /** The instruction loop over block `b`: the instructions are visited in order, and the visit
      * stops after the first rejected one; `n` counts the instructions visited. */
    method VisitInsts(b: nat) returns (ok: bool, ghost n: nat)
      requires b < |theLoop.blocks|
      requires Valid()
      requires forall k :: 0 <= k < |theLoop.blocks[b].insts| ==> FreshWhenVisited(theLoop, Snapshot(), b, k, cfg.ptrBits)
      modifies this`inductions, this`inductionCastsToIgnore, this`widestIndTy, this`primaryInduction,
               this`allowedExit, this`reductions, this`firstOrderRecurrences, this`psePredicates,
               requirements`unsafeAlgebraInst, hints`potentiallyUnsafe
      ensures Valid()
      ensures n <= |theLoop.blocks[b].insts| && (ok ==> n == |theLoop.blocks[b].insts|)
      ensures Snapshot() == ScanInsts(old(Snapshot()), theLoop, b, n, cfg.ptrBits)
      ensures old(hints.potentiallyUnsafe) ==> hints.potentiallyUnsafe
      ensures ok ==> BlockChecked(theLoop, old(Snapshot()), b, n, cfg.ptrBits, hints.potentiallyUnsafe)
    {
      ghost var start := Snapshot();
      ghost var puStart := hints.potentiallyUnsafe;
      var insts := theLoop.blocks[b].insts;
      var inHeader := theLoop.blocks[b].id == theLoop.blocks[0].id;
      assert inHeader == InHeader(theLoop, b);
      var k := 0;
      while k < |insts|
        invariant 0 <= k <= |insts|
        invariant Snapshot() == ScanInsts(start, theLoop, b, k, cfg.ptrBits)
        invariant Valid()
        invariant puStart ==> hints.potentiallyUnsafe
        invariant BlockChecked(theLoop, start, b, k, cfg.ptrBits, hints.potentiallyUnsafe)
      {
        ghost var pu0 := hints.potentiallyUnsafe;
        assert FreshWhenVisited(theLoop, start, b, k, cfg.ptrBits);
        var accepted := CheckInstruction(insts[k], inHeader);
        if !accepted {
          return false, k + 1;
        }
        BlockCheckedMorePu(theLoop, start, b, k, cfg.ptrBits, pu0, hints.potentiallyUnsafe);
        k := k + 1;
      }
      return true, k;
    }

    /** The block loop of `canVectorizeInstrs`: the blocks are scanned in order, and the scan stops
      * at the first block with a rejected instruction. */
    method CheckBlocks() returns (ok: bool)
      requires Valid() && WellFormed(theLoop)
      requires KeysNotAhead(theLoop, Snapshot(), 0, 0)
      modifies this`inductions, this`inductionCastsToIgnore, this`widestIndTy, this`primaryInduction,
               this`allowedExit, this`reductions, this`firstOrderRecurrences, this`psePredicates,
               requirements`unsafeAlgebraInst, hints`potentiallyUnsafe
      ensures Valid()
      ensures ok ==> AllCheckedBefore(theLoop, Snapshot(), hints.potentiallyUnsafe, |theLoop.blocks|, 0)
      ensures old(psePredicates) != {} ==> allowedExit <= old(allowedExit) + ReductionExits(reductions)
      ensures ok ==> Snapshot() == ScanBlocks(old(Snapshot()), theLoop, |theLoop.blocks|, cfg.ptrBits)
      ensures ok ==> BlocksProgress(theLoop, old(Snapshot()), Snapshot(), cfg.ptrBits)
    {
      ghost var start := Snapshot();
      var blocks := theLoop.blocks;
      var b := 0;
      while b < |blocks|
        invariant 0 <= b <= |blocks|
        invariant Valid()
        invariant AllCheckedBefore(theLoop, Snapshot(), hints.potentiallyUnsafe, b, 0)
        invariant Snapshot() == ScanBlocks(start, theLoop, b, cfg.ptrBits)
      {
        ScanBlocksKeys(theLoop, start, b, cfg.ptrBits);
        ScanBlocksProgress(theLoop, start, b, cfg.ptrBits);
        ok := CheckBlockInstrs(b);
        if !ok {
          return;
        }
        b := b + 1;
      }
      ScanBlocksProgress(theLoop, start, |blocks|, cfg.ptrBits);
      return true;
    }

    /** `canVectorizeInstrs`. */
    method CanVectorizeInstrs() returns (r: bool)
      requires Valid() && WellFormed(theLoop)
      requires KeysNotAhead(theLoop, Snapshot(), 0, 0)
      modifies this`inductions, this`inductionCastsToIgnore, this`widestIndTy, this`primaryInduction,
               this`allowedExit, this`reductions, this`firstOrderRecurrences, this`psePredicates,
               requirements`unsafeAlgebraInst, hints`potentiallyUnsafe
      ensures Valid()
      ensures r ==> AllCheckedBefore(theLoop, Snapshot(), hints.potentiallyUnsafe, |theLoop.blocks|, 0)
      ensures r ==> AllInstsAccepted(theLoop)
      ensures r ==> inductions != map[] && widestIndTy.Some?
      ensures r ==> primaryInduction.None? || widestIndTy == Some(primaryInduction.value.ty)
      ensures old(psePredicates) != {} ==> allowedExit <= old(allowedExit) + ReductionExits(reductions)
      ensures r ==> Snapshot() == ResetPrimary(ScanBlocks(old(Snapshot()), theLoop, |theLoop.blocks|, cfg.ptrBits))
      ensures r ==> inductions.Keys <= old(inductions).Keys + PhiKeys(theLoop.blocks[0].insts, |theLoop.blocks[0].insts|)
      ensures r && InductionSummary(old(Snapshot()), cfg.ptrBits) ==> InductionSummary(Snapshot(), cfg.ptrBits)
      ensures r && InductionSummary(old(Snapshot()), cfg.ptrBits) ==>
              (primaryInduction.Some? <==> CanonicalOfWidestType(Snapshot()))
    {
      ghost var start := Snapshot();
      r := CheckBlocks();
      if r {
        ScanOutcome(theLoop, start, Snapshot(), hints.potentiallyUnsafe, cfg.ptrBits);
        r := CheckPrimaryInduction();
      }
    }

    /** The end of `canVectorizeInstrs`: without a primary induction the loop needs at least one
      * induction and a widest induction type; a primary induction that does not have the widest
      * type is dropped. */
    method CheckPrimaryInduction() returns (r: bool)
      requires Valid()
      modifies this`primaryInduction
      ensures Valid()
      ensures r <==> old(primaryInduction).Some? || (inductions != map[] && widestIndTy.Some?)
      ensures Snapshot() == if r then ResetPrimary(old(Snapshot())) else old(Snapshot())
    {
      if primaryInduction.None? {
        if inductions == map[] {
          return false;
        } else if widestIndTy.None? {
          return false;
        }
      }
      if primaryInduction.Some? && widestIndTy != Some(primaryInduction.value.ty) {
        primaryInduction := None;
      }
      return true;
    }

    /** `setupOuterLoopInductions`: every header phi of the outer loop is an integer induction,
      * recorded as one; the scan stops at the first that is not. */
    method SetupOuterLoopInductions() returns (r: bool)
      requires Valid() && WellFormed(theLoop)
      requires KeysNotAhead(theLoop, Snapshot(), 0, 0)
      modifies this`inductions, this`inductionCastsToIgnore, this`widestIndTy, this`primaryInduction, this`allowedExit
      ensures Valid()
      ensures r <==> OuterHeaderPhisSupported(theLoop.blocks[0])
      ensures Snapshot() == OuterScan(old(Snapshot()), theLoop.blocks[0].insts, SupportedPrefix(theLoop.blocks[0].insts), cfg.ptrBits)
      ensures var insts := theLoop.blocks[0].insts;
              && inductions.Keys == old(inductions).Keys + HeaderPhiRefs(insts, SupportedPrefix(insts))
              && (forall p :: p in old(inductions) ==> p in inductions && inductions[p] == old(inductions)[p])
              && (forall k :: 0 <= k < SupportedPrefix(insts) ==>
                    PhiOf(insts[k]) in inductions && inductions[PhiOf(insts[k])] == insts[k].op.classifiers.induction.value)
      ensures var insts := theLoop.blocks[0].insts;
              && allowedExit == old(allowedExit) + (if psePredicates == {} then PhiExits(insts, SupportedPrefix(insts)) else {})
              && inductionCastsToIgnore == old(inductionCastsToIgnore) + FirstCasts(insts, SupportedPrefix(insts))
      ensures InductionSummary(old(Snapshot()), cfg.ptrBits) ==> InductionSummary(Snapshot(), cfg.ptrBits)
    {
      var insts := theLoop.blocks[0].insts;
      var n := LeadingPhis(insts);
      ghost var start := Snapshot();
      HeaderPhisFresh(theLoop, start);
      var i := 0;
      while i < n && OuterPhiSupported(insts[i])
        invariant 0 <= i <= SupportedPrefix(insts) && Valid()
        invariant Snapshot() == OuterScan(start, insts, i, cfg.ptrBits)
      {
        OuterScanNextFresh(start, insts, i, cfg.ptrBits);
        assert InductionTypesAgree(insts[i]) by {
          assert IsPosition(theLoop, 0, i);
        }
        AddInductionPhi(PhiOf(insts[i]), insts[i].op.classifiers.induction.value);
        i := i + 1;
      }
      OuterScanKeys(start, insts, i, cfg.ptrBits);
      OuterScanEntries(start, insts, i, cfg.ptrBits);
      OuterScanFrame(start, insts, i, cfg.ptrBits);
      if InductionSummary(start, cfg.ptrBits) {
        forall k | 0 <= k < i
          ensures OuterStepReady(start, insts, k, cfg.ptrBits)
        {
          assert IsPosition(theLoop, 0, k);
          OuterScanNextFresh(start, insts, k, cfg.ptrBits);
        }
        OuterScanSummary(start, insts, i, cfg.ptrBits);
      }
      return i == n;
    }

    /** `canVectorizeOuterLoop`: the verdict is the same whether or not every failure is reported. */
    method CanVectorizeOuterLoop() returns (r: bool)
      requires theLoop.nest.subLoops != []
      requires Valid() && WellFormed(theLoop)
      requires KeysNotAhead(theLoop, Snapshot(), 0, 0)
      modifies this`inductions, this`inductionCastsToIgnore, this`widestIndTy, this`primaryInduction, this`allowedExit
      ensures Valid()
      ensures r <==> OuterLoopOk(theLoop, cfg)
      ensures var insts := theLoop.blocks[0].insts;
              && inductions.Keys <= old(inductions).Keys + HeaderPhiRefs(insts, LeadingPhis(insts))
              && (forall p :: p in old(inductions) ==> p in inductions && inductions[p] == old(inductions)[p])
              && (r ==> inductions.Keys == old(inductions).Keys + HeaderPhiRefs(insts, LeadingPhis(insts)))
              && (r ==> forall k :: 0 <= k < LeadingPhis(insts) ==>
                          PhiOf(insts[k]) in inductions && inductions[PhiOf(insts[k])] == insts[k].op.classifiers.induction.value)
      ensures var insts := theLoop.blocks[0].insts;
              || Snapshot() == old(Snapshot())
              || Snapshot() == OuterScan(old(Snapshot()), insts, SupportedPrefix(insts), cfg.ptrBits)
      ensures var insts := theLoop.blocks[0].insts;
              r ==> && SupportedPrefix(insts) == LeadingPhis(insts)
                    && allowedExit == old(allowedExit) + (if psePredicates == {} then PhiExits(insts, LeadingPhis(insts)) else {})
                    && inductionCastsToIgnore == old(inductionCastsToIgnore) + FirstCasts(insts, LeadingPhis(insts))
      ensures InductionSummary(old(Snapshot()), cfg.ptrBits) ==> InductionSummary(Snapshot(), cfg.ptrBits)
    {
      var doExtraAnalysis := cfg.doExtraAnalysis;
      var blocks := theLoop.blocks;
      var result := true;
      var b := 0;
      while b < |blocks|
        invariant 0 <= b <= |blocks|
        invariant result <==> forall j :: 0 <= j < b ==> OuterBranchOk(blocks[j].terminator, cfg.enableVPlanPredication)
        invariant !doExtraAnalysis ==> result
      {
        var t := blocks[b].terminator;
        if !t.BranchTerm? {
          if doExtraAnalysis {
            result := false;
          } else {
            return false;
          }
        }
        if !cfg.enableVPlanPredication && t.BranchTerm? && t.cond.Some? &&
           !t.cond.value.invariantInLoop && !t.cond.value.targetsLoopHeader {
          if doExtraAnalysis {
            result := false;
          } else {
            return false;
          }
        }
        b := b + 1;
      }
      if !IsUniformLoopNest(theLoop.nest, theLoop.nest.id, theLoop.outerInvariant) {
        if doExtraAnalysis {
          result := false;
        } else {
          return false;
        }
      }
      HeaderPhiRefsMonotone(blocks[0].insts, SupportedPrefix(blocks[0].insts), LeadingPhis(blocks[0].insts));
      var inductionsOk := SetupOuterLoopInductions();
      if !inductionsOk {
        if doExtraAnalysis {
          result := false;
        } else {
          return false;
        }
      }
      return result;
    }

    /** `canVectorizeMemory`: accept what loop access analysis accepts, unless a dependence
      * involves a loop-invariant address; on success record its runtime checks and predicates. */
    method CanVectorizeMemory() returns (r: bool)
      modifies requirements`numRuntimePointerChecks, this`psePredicates
      ensures r <==> MemoryOk(theLoop.memory)
      ensures r ==> requirements.numRuntimePointerChecks == theLoop.memory.numRuntimePointerChecks &&
                    psePredicates == old(psePredicates) + theLoop.memory.predicates
      ensures !r ==> requirements.numRuntimePointerChecks == old(requirements.numRuntimePointerChecks) &&
                     psePredicates == old(psePredicates)
    {
      var lai := theLoop.memory;
      if !lai.canVectorizeMemory {
        return false;
      }
      if lai.dependenceOnInvariantAddress {
        return false;
      }
      requirements.AddRuntimePointerChecks(lai.numRuntimePointerChecks);
      psePredicates := psePredicates + lai.predicates;
      return true;
    }

    /** `canFoldTailByMasking`: a primary induction, no reductions, no value allowed to exit the
      * loop actually used outside it, and every block predicable with no safe pointers. */
    method CanFoldTailByMasking() returns (r: bool)
      modifies this`maskedOp
      ensures r <==> && primaryInduction.Some?
                     && reductions == map[]
                     && allowedExit !! theLoop.usedOutside
                     && forall b :: 0 <= b < |theLoop.blocks| ==>
                          Predicable(theLoop.blocks[b].insts, {}, theLoop.isAnnotatedParallel)
      ensures old(maskedOp) <= maskedOp
      ensures r ==> maskedOp == old(maskedOp) + MaskedInEveryBlock(theLoop.blocks, theLoop.isAnnotatedParallel)
    {
      if primaryInduction.None? {
        return false;
      }
      if reductions != map[] {
        return false;
      }
      var remaining := allowedExit;
      while remaining != {}
        invariant remaining <= allowedExit
        invariant forall v :: v in allowedExit && v !in remaining ==> v !in theLoop.usedOutside
        decreases remaining
      {
        var ae :| ae in remaining;
        if ae in theLoop.usedOutside {
          return false;
        }
        remaining := remaining - {ae};
      }
      var blocks := theLoop.blocks;
      var par := theLoop.isAnnotatedParallel;
      var b := 0;
      while b < |blocks|
        invariant 0 <= b <= |blocks|
        invariant forall j :: 0 <= j < b ==> Predicable(blocks[j].insts, {}, par)
        invariant maskedOp == old(maskedOp) + MaskedInEveryBlock(blocks[..b], par)
      {
        assert blocks[..b + 1][..b] == blocks[..b];
        var ok := BlockCanBePredicated(blocks[b], {});
        if !ok {
          return false;
        }
        FirstRejectAt(blocks[b].insts, {}, par, |blocks[b].insts|);
        b := b + 1;
      }
      assert blocks[..b] == blocks;
      return true;
    }

    /** The checks `canVectorize` runs on an innermost loop after its shape: if-conversion when it has
      * more than one block, then the instructions, memory, and the size of the SCEV predicate. */
    method CanVectorizeInnerLoop() returns (r: bool)
      requires theLoop.nest.subLoops == []
      requires Valid() && WellFormed(theLoop)
      requires KeysNotAhead(theLoop, Snapshot(), 0, 0)
      modifies this, requirements`unsafeAlgebraInst, requirements`numRuntimePointerChecks, hints`potentiallyUnsafe
      ensures Valid()
      ensures r ==>
              && (|theLoop.blocks| == 1 ||
                  (cfg.enableIfConversion &&
                   forall b :: 0 <= b < |theLoop.blocks| ==>
                     BlockIfConvertible(theLoop.blocks[b], theLoop.blocks[0].id,
                                        SafePointers(theLoop.blocks), theLoop.isAnnotatedParallel)))
              && AllInstsAccepted(theLoop)
              && MemoryOk(theLoop.memory)
              && |psePredicates| <= SCEVThreshold(cfg, hints.GetForce())
              && inductions != map[]
              && (primaryInduction.None? || widestIndTy == Some(primaryInduction.value.ty))
      ensures r ==>
              && maskedOp == old(maskedOp) +
                   (if |theLoop.blocks| == 1 then {}
                    else MaskedInBlocks(theLoop.blocks, SafePointers(theLoop.blocks), theLoop.isAnnotatedParallel))
              && AllCheckedBefore(theLoop, Snapshot(), hints.potentiallyUnsafe, |theLoop.blocks|, 0)
              && requirements.numRuntimePointerChecks == theLoop.memory.numRuntimePointerChecks
      ensures r ==> var s := ResetPrimary(ScanBlocks(old(Snapshot()), theLoop, |theLoop.blocks|, cfg.ptrBits));
                    Snapshot() == s.(predicates := s.predicates + theLoop.memory.predicates)
      ensures r ==> inductions.Keys <= old(inductions).Keys + PhiKeys(theLoop.blocks[0].insts, |theLoop.blocks[0].insts|)
      ensures r && InductionSummary(old(Snapshot()), cfg.ptrBits) ==> InductionSummary(Snapshot(), cfg.ptrBits)
      ensures r && InductionSummary(old(Snapshot()), cfg.ptrBits) ==>
              (primaryInduction.Some? <==> CanonicalOfWidestType(Snapshot()))
    {
      var result := true;
      if |theLoop.blocks| != 1 {
        var ifConvertOk := CanVectorizeWithIfConvert();
        if !ifConvertOk {
          if cfg.doExtraAnalysis {
            result := false;
          } else {
            return false;
          }
        }
      }
      var bodyOk := CanVectorizeLoopBody();
      return result && bodyOk;
    }

    /** The instruction, memory and SCEV predicate checks of `canVectorize` on an innermost loop;
      * without extra analysis the first failure ends them. */
    method CanVectorizeLoopBody() returns (r: bool)
      requires Valid() && WellFormed(theLoop)
      requires KeysNotAhead(theLoop, Snapshot(), 0, 0)
      modifies this`inductions, this`inductionCastsToIgnore, this`widestIndTy, this`primaryInduction,
               this`allowedExit, this`reductions, this`firstOrderRecurrences, this`psePredicates,
               requirements`unsafeAlgebraInst, requirements`numRuntimePointerChecks, hints`potentiallyUnsafe
      ensures Valid()
      ensures r ==>
              && AllInstsAccepted(theLoop)
              && MemoryOk(theLoop.memory)
              && |psePredicates| <= SCEVThreshold(cfg, hints.GetForce())
              && inductions != map[]
              && (primaryInduction.None? || widestIndTy == Some(primaryInduction.value.ty))
              && AllCheckedBefore(theLoop, Snapshot(), hints.potentiallyUnsafe, |theLoop.blocks|, 0)
              && requirements.numRuntimePointerChecks == theLoop.memory.numRuntimePointerChecks
      ensures r ==> var s := ResetPrimary(ScanBlocks(old(Snapshot()), theLoop, |theLoop.blocks|, cfg.ptrBits));
                    Snapshot() == s.(predicates := s.predicates + theLoop.memory.predicates)
      ensures r ==> inductions.Keys <= old(inductions).Keys + PhiKeys(theLoop.blocks[0].insts, |theLoop.blocks[0].insts|)
      ensures r && InductionSummary(old(Snapshot()), cfg.ptrBits) ==> InductionSummary(Snapshot(), cfg.ptrBits)
      ensures r && InductionSummary(old(Snapshot()), cfg.ptrBits) ==>
              (primaryInduction.Some? <==> CanonicalOfWidestType(Snapshot()))
    {
      var doExtraAnalysis := cfg.doExtraAnalysis;
      var result := true;
      var instrsOk := CanVectorizeInstrs();
      if !instrsOk {
        if doExtraAnalysis {
          result := false;
        } else {
          return false;
        }
      }
      ghost var scanned := Snapshot();
      var memoryOk := CanVectorizeMemory();
      if !memoryOk {
        if doExtraAnalysis {
          result := false;
        } else {
          return false;
        }
      }
      if result {
        AllCheckedMorePredicates(theLoop, scanned, hints.potentiallyUnsafe, theLoop.memory.predicates);
        SummaryFrame(scanned, Snapshot(), cfg.ptrBits);
      }
      if |psePredicates| > SCEVThreshold(cfg, hints.GetForce()) {
        if doExtraAnalysis {
          result := false;
        } else {
          return false;
        }
      }
      return result;
    }

    /** `canVectorize`. An outer loop is decided by its nest's shape and the outer-loop checks
      * alone; an inner loop is accepted only when its shape and every further check pass. */
    method CanVectorize(useVPlanNativePath: bool) returns (r: bool)
      requires theLoop.nest.subLoops != [] ==> useVPlanNativePath
      requires Valid() && WellFormed(theLoop)
      requires KeysNotAhead(theLoop, Snapshot(), 0, 0)
      modifies this, requirements`unsafeAlgebraInst, requirements`numRuntimePointerChecks, hints`potentiallyUnsafe
      ensures Valid()
      ensures r ==> NestCFGOk(theLoop.nest)
      ensures theLoop.nest.subLoops != [] ==> (r <==> NestCFGOk(theLoop.nest) && OuterLoopOk(theLoop, cfg))
      ensures theLoop.nest.subLoops == [] && r ==>
              && (|theLoop.blocks| == 1 ||
                  (cfg.enableIfConversion &&
                   forall b :: 0 <= b < |theLoop.blocks| ==>
                     BlockIfConvertible(theLoop.blocks[b], theLoop.blocks[0].id,
                                        SafePointers(theLoop.blocks), theLoop.isAnnotatedParallel)))
              && AllInstsAccepted(theLoop)
              && MemoryOk(theLoop.memory)
              && |psePredicates| <= SCEVThreshold(cfg, hints.GetForce())
              && inductions != map[]
              && (primaryInduction.None? || widestIndTy == Some(primaryInduction.value.ty))
      ensures theLoop.nest.subLoops == [] && r ==>
              && maskedOp == old(maskedOp) +
                   (if |theLoop.blocks| == 1 then {}
                    else MaskedInBlocks(theLoop.blocks, SafePointers(theLoop.blocks), theLoop.isAnnotatedParallel))
              && AllCheckedBefore(theLoop, Snapshot(), hints.potentiallyUnsafe, |theLoop.blocks|, 0)
              && requirements.numRuntimePointerChecks == theLoop.memory.numRuntimePointerChecks
      ensures theLoop.nest.subLoops == [] && r ==>
              var s := ResetPrimary(ScanBlocks(old(Snapshot()), theLoop, |theLoop.blocks|, cfg.ptrBits));
              Snapshot() == s.(predicates := s.predicates + theLoop.memory.predicates)
      ensures theLoop.nest.subLoops == [] && r ==>
              inductions.Keys <= old(inductions).Keys + PhiKeys(theLoop.blocks[0].insts, |theLoop.blocks[0].insts|)
      ensures theLoop.nest.subLoops == [] && r && InductionSummary(old(Snapshot()), cfg.ptrBits) ==>
              && InductionSummary(Snapshot(), cfg.ptrBits)
              && (primaryInduction.Some? <==> CanonicalOfWidestType(Snapshot()))
      ensures theLoop.nest.subLoops != [] ==>
              && reductions == old(reductions) && firstOrderRecurrences == old(firstOrderRecurrences)
              && psePredicates == old(psePredicates) && maskedOp == old(maskedOp)
              && requirements.unsafeAlgebraInst == old(requirements.unsafeAlgebraInst)
              && (var insts := theLoop.blocks[0].insts;
                  && inductions.Keys <= old(inductions).Keys + HeaderPhiRefs(insts, LeadingPhis(insts))
                  && (r ==> inductions.Keys == old(inductions).Keys + HeaderPhiRefs(insts, LeadingPhis(insts)))
                  && (r ==> forall k :: 0 <= k < LeadingPhis(insts) ==>
                              PhiOf(insts[k]) in inductions &&
                              inductions[PhiOf(insts[k])] == insts[k].op.classifiers.induction.value))
      ensures theLoop.nest.subLoops != [] ==>
              var insts := theLoop.blocks[0].insts;
              && (|| Snapshot() == old(Snapshot())
                  || Snapshot() == OuterScan(old(Snapshot()), insts, SupportedPrefix(insts), cfg.ptrBits))
              && (r ==> && SupportedPrefix(insts) == LeadingPhis(insts)
                        && allowedExit == old(allowedExit) + (if psePredicates == {} then PhiExits(insts, LeadingPhis(insts)) else {})
                        && inductionCastsToIgnore == old(inductionCastsToIgnore) + FirstCasts(insts, LeadingPhis(insts)))
              && (InductionSummary(old(Snapshot()), cfg.ptrBits) ==> InductionSummary(Snapshot(), cfg.ptrBits))
    {
      var cfgOk, _ := CanVectorizeLoopNestCFG(theLoop.nest, cfg.doExtraAnalysis);
      if !cfgOk && !cfg.doExtraAnalysis {
        return false;
      }
      if theLoop.nest.subLoops != [] {
        var outerOk := CanVectorizeOuterLoop();
        return cfgOk && outerOk;
      }
      var innerOk := CanVectorizeInnerLoop();
      return cfgOk && innerOk;
    }
  }
}
