/**
 * `LoopVectorizationRequirements`: legality requirements that are only
 * decided once the hints are known (unsafe floating-point reassociation and
 * the number of runtime pointer checks).
 */
module Requirements {
  import opened Util
  import opened Config

  /** The two rejections `doesNotMeet` can report; both are evaluated on every call. */
  datatype RequirementFailures = RequirementFailures(cantReorderFPOps: bool, cantReorderMemOps: bool)
  {
    predicate Any() { cantReorderFPOps || cantReorderMemOps }
  }

  /**
   * The verdicts of the two independent checks: the floating-point one fails
   * when an unsafe-algebra instruction was recorded and reordering is not
   * allowed; the memory one when the checks exceed the pragma threshold, or
   * the normal threshold while reordering is not allowed.
   */
  function Evaluate(unsafeAlgebraInst: Option<nat>, numChecks: nat, allowReordering: bool, cfg: Config): (f: RequirementFailures)
    ensures f.cantReorderFPOps <==> unsafeAlgebraInst.Some? && !allowReordering
    ensures f.cantReorderMemOps <==>
            numChecks > cfg.pragmaMemoryCheckThreshold || (numChecks > cfg.runtimeMemoryCheckThreshold && !allowReordering)
  {
    var fp := unsafeAlgebraInst.Some? && !allowReordering;
    var pragmaThresholdReached := numChecks > cfg.pragmaMemoryCheckThreshold;
    var thresholdReached := numChecks > cfg.runtimeMemoryCheckThreshold;
    RequirementFailures(fp, (thresholdReached && !allowReordering) || pragmaThresholdReached)
  }

  /** More runtime checks never turn a failing verdict into a passing one. */
  lemma DoesNotMeetMonotone(u: Option<nat>, n: nat, m: nat, allowReordering: bool, cfg: Config)
    requires n <= m
    ensures Evaluate(u, n, allowReordering, cfg).Any() ==> Evaluate(u, m, allowReordering, cfg).Any()
  {
  }

  /**
   * With reordering disallowed and no unsafe algebra, the verdict flips
   * exactly when the count passes the smaller of the two thresholds.
   */
  lemma DoesNotMeetThresholdFlip(n: nat, cfg: Config)
    ensures Evaluate(None, n, false, cfg).Any() <==>
            n > cfg.runtimeMemoryCheckThreshold || n > cfg.pragmaMemoryCheckThreshold
  {
  }

  /** With reordering allowed only the pragma threshold matters for memory checks. */
  lemma AllowReorderingRelaxesMemoryChecks(u: Option<nat>, n: nat, cfg: Config)
    ensures Evaluate(u, n, true, cfg).Any() <==> n > cfg.pragmaMemoryCheckThreshold
  {
  }

  /** Permission to reorder never adds a failure. */
  lemma AllowReorderingNeverAddsFailure(u: Option<nat>, n: nat, cfg: Config)
    ensures Evaluate(u, n, true, cfg).Any() ==> Evaluate(u, n, false, cfg).Any()
  {
  }

  /**
   * A recorded unsafe-algebra instruction fails the requirements unless reordering is allowed,
   * and once it is allowed, whether such an instruction was recorded no longer matters.
   */
  lemma UnsafeAlgebraNeedsReordering(inst: nat, n: nat, cfg: Config)
    ensures Evaluate(Some(inst), n, false, cfg).Any()
    ensures Evaluate(Some(inst), n, true, cfg) == Evaluate(None, n, true, cfg)
  {
  }

  class LoopVectorizationRequirements {
    var unsafeAlgebraInst: Option<nat>
    var numRuntimePointerChecks: nat

    constructor ()
      ensures unsafeAlgebraInst == None && numRuntimePointerChecks == 0
    {
      unsafeAlgebraInst := None;
      numRuntimePointerChecks := 0;
    }

    /** Records the first instruction that required unsafe floating-point algebra. */
    method AddUnsafeAlgebraInst(inst: nat)
      modifies this`unsafeAlgebraInst
      ensures unsafeAlgebraInst == if old(unsafeAlgebraInst).None? then Some(inst) else old(unsafeAlgebraInst)
    {
      if unsafeAlgebraInst.None? {
        unsafeAlgebraInst := Some(inst);
      }
    }

    method AddRuntimePointerChecks(num: nat)
      modifies this`numRuntimePointerChecks
      ensures numRuntimePointerChecks == num
    {
      numRuntimePointerChecks := num;
    }

    /**
     * `doesNotMeet`: true iff either check of `Evaluate` fails. A loop that meets the requirements
     * needs no more runtime checks than the pragma threshold, and, without permission to reorder,
     * needs no unsafe algebra and no more checks than the normal threshold.
     */
    function DoesNotMeet(allowReordering: bool, cfg: Config): (r: bool)
      reads this
      ensures r <==> Evaluate(unsafeAlgebraInst, numRuntimePointerChecks, allowReordering, cfg).Any()
      ensures !r ==> numRuntimePointerChecks <= cfg.pragmaMemoryCheckThreshold
      ensures !r && !allowReordering ==>
                unsafeAlgebraInst.None? && numRuntimePointerChecks <= cfg.runtimeMemoryCheckThreshold
    {
      Evaluate(unsafeAlgebraInst, numRuntimePointerChecks, allowReordering, cfg).Any()
    }
  }
}
