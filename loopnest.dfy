/**
 * The loop tree and the structural checks made on it: the canonical CFG
 * shape (`canVectorizeLoopCFG`, `canVectorizeLoopNestCFG`) and the
 * uniformity of inner loops for outer-loop vectorization (`isUniformLoop`,
 * `isUniformLoopNest`).
 */
module LoopNest {
  import opened Util

  /** The condition of a latch branch: a compare of two values, or something else. */
  datatype LatchCondition = CmpCond(op0: nat, op1: nat) | NotCmpCond

  datatype LatchTerminator = CondBranch(cond: LatchCondition) | UncondBranch | NotBranch

  /** The loop queries the analysis makes, for one loop of a nest. */
  datatype Loop = Loop(
    id: nat,
    hasPreheader: bool,                // getLoopPreheader() != null
    numBackEdges: nat,                 // getNumBackEdges()
    exitingBlock: Option<nat>,         // getExitingBlock(): the unique exiting block
    latch: Option<nat>,                // getLoopLatch(): the unique latch
    canonicalIVUpdate: Option<nat>,    // the canonical IV's incoming value from the latch
    latchTerminator: LatchTerminator,
    subLoops: seq<Loop>)

  /** The four CFG shape checks, in the order they run. */
  datatype CFGFailure = NoPreheader | NotSingleBackedge | NoExitingBlock | ExitingNotLatch

  /** The canonical shape: a preheader, one backedge, an exiting block, and that block is the latch. */
  predicate LoopCFGOk(lp: Loop)
  {
    lp.hasPreheader && lp.numBackEdges == 1 && lp.exitingBlock.Some? && lp.exitingBlock == lp.latch
  }

  /** Every failing shape check of one loop, in order. */
  function CFGFailures(lp: Loop): (r: seq<CFGFailure>)
    ensures r == [] <==> LoopCFGOk(lp)
  {
    (if !lp.hasPreheader then [NoPreheader] else [])
    + (if lp.numBackEdges != 1 then [NotSingleBackedge] else [])
    + (if lp.exitingBlock.None? then [NoExitingBlock] else [])
    + (if lp.exitingBlock != lp.latch then [ExitingNotLatch] else [])
  }

  /** What fail-fast mode reports of a list of failures: only the first. */
  function FirstFailure<T>(fs: seq<T>): (r: seq<T>)
    ensures |r| <= 1 && (r == [] <==> fs == [])
    ensures fs != [] ==> r == [fs[0]]
  {
    if fs == [] then [] else [fs[0]]
  }

  /** True of `lp` and of every loop nested in it. */
  predicate HoldsThroughout(lp: Loop, p: Loop -> bool)
    decreases lp
  {
    p(lp) && forall i :: 0 <= i < |lp.subLoops| ==> HoldsThroughout(lp.subLoops[i], p)
  }

  /** No loop nested in `lp`, at any depth, has the id `id`. */
  predicate NestedIdsAvoid(lp: Loop, id: nat)
    decreases lp
  {
    forall i :: 0 <= i < |lp.subLoops| ==> lp.subLoops[i].id != id && NestedIdsAvoid(lp.subLoops[i], id)
  }

  /** `l` is `lp` or a loop nested in it, at any depth. */
  predicate InNest(l: Loop, lp: Loop)
    decreases lp
  {
    l == lp || exists i :: 0 <= i < |lp.subLoops| && InNest(l, lp.subLoops[i])
  }

  /** The recursive traversal visits every loop of the tree. */
  lemma {:induction false} HoldsThroughoutIff(lp: Loop, p: Loop -> bool)
    ensures HoldsThroughout(lp, p) <==> forall l :: InNest(l, lp) ==> p(l)
    decreases lp
  {
    forall i | 0 <= i < |lp.subLoops| {
      HoldsThroughoutIff(lp.subLoops[i], p);
    }
    if HoldsThroughout(lp, p) {
      forall l | InNest(l, lp) ensures p(l) {
        if l != lp {
          var i :| 0 <= i < |lp.subLoops| && InNest(l, lp.subLoops[i]);
        }
      }
    }
    if forall l :: InNest(l, lp) ==> p(l) {
      assert InNest(lp, lp);
      forall i, l | 0 <= i < |lp.subLoops| && InNest(l, lp.subLoops[i]) ensures p(l) {
        assert InNest(l, lp);
      }
    }
  }

  /** `canVectorizeLoopNestCFG`'s verdict: every loop of the nest has the canonical shape. */
  predicate NestCFGOk(lp: Loop)
  {
    HoldsThroughout(lp, LoopCFGOk)
  }

  /** Every failure the nest check reports when it collects all reasons, loop before its children. */
  function NestFailures(lp: Loop): seq<CFGFailure>
    decreases lp, |lp.subLoops| + 1
  {
    CFGFailures(lp) + ChildFailures(lp, |lp.subLoops|)
  }

  /** The failures of the first `k` children of `lp`. */
  function ChildFailures(lp: Loop, k: nat): seq<CFGFailure>
    requires k <= |lp.subLoops|
    decreases lp, k
  {
    if k == 0 then [] else ChildFailures(lp, k - 1) + NestFailures(lp.subLoops[k - 1])
  }

  lemma {:induction false} NestFailuresEmpty(lp: Loop)
    ensures NestFailures(lp) == [] <==> NestCFGOk(lp)
    decreases lp, |lp.subLoops| + 1
  {
    ChildFailuresEmpty(lp, |lp.subLoops|);
  }

  lemma {:induction false} ChildFailuresEmpty(lp: Loop, k: nat)
    requires k <= |lp.subLoops|
    ensures ChildFailures(lp, k) == [] <==> forall j :: 0 <= j < k ==> NestCFGOk(lp.subLoops[j])
    decreases lp, k
  {
    if k > 0 {
      ChildFailuresEmpty(lp, k - 1);
      NestFailuresEmpty(lp.subLoops[k - 1]);
    }
  }

  /** Once some child failed, later children do not change the first failure. */
  lemma {:induction false} FirstFailureStable(lp: Loop, i: nat, k: nat)
    requires i <= k <= |lp.subLoops|
    requires ChildFailures(lp, i) != []
    ensures FirstFailure(ChildFailures(lp, k)) == FirstFailure(ChildFailures(lp, i))
    decreases k
  {
    if k > i {
      FirstFailureStable(lp, i, k - 1);
      var a, b := ChildFailures(lp, k - 1), NestFailures(lp.subLoops[k - 1]);
      assert ChildFailures(lp, k) == a + b;
      assert (a + b)[0] == a[0];
    }
  }

  lemma ChildStep(lp: Loop, i: nat)
    requires i < |lp.subLoops|
    ensures ChildFailures(lp, i + 1) == ChildFailures(lp, i) + NestFailures(lp.subLoops[i])
    ensures NestFailures(lp.subLoops[i]) == [] <==> NestCFGOk(lp.subLoops[i])
  {
    NestFailuresEmpty(lp.subLoops[i]);
  }

  lemma FirstChildFailure(lp: Loop, i: nat)
    requires i < |lp.subLoops|
    requires ChildFailures(lp, i) == [] && NestFailures(lp.subLoops[i]) != []
    ensures FirstFailure(ChildFailures(lp, |lp.subLoops|)) == FirstFailure(NestFailures(lp.subLoops[i]))
  {
    ChildStep(lp, i);
    var nf := NestFailures(lp.subLoops[i]);
    assert ChildFailures(lp, i + 1) == [] + nf;
    assert [] + nf == nf;
    FirstFailureStable(lp, i + 1, |lp.subLoops|);
  }

  lemma OwnFailureFirst(lp: Loop)
    requires !LoopCFGOk(lp)
    ensures FirstFailure(NestFailures(lp)) == FirstFailure(CFGFailures(lp))
  {
    var a, b := CFGFailures(lp), ChildFailures(lp, |lp.subLoops|);
    assert (a + b)[0] == a[0];
  }

  /**
   * `canVectorizeLoopCFG`. In extra-analysis mode every check runs and all
   * failures are reported; otherwise the first failure returns. The verdict
   * is the same in both modes.
   */
  method CanVectorizeLoopCFG(lp: Loop, doExtraAnalysis: bool) returns (result: bool, reported: seq<CFGFailure>)
    ensures result <==> LoopCFGOk(lp)
    ensures doExtraAnalysis ==> reported == CFGFailures(lp)
    ensures !doExtraAnalysis ==> reported == FirstFailure(CFGFailures(lp))
  {
    result := true;
    reported := [];
    if !lp.hasPreheader {
      reported := reported + [NoPreheader];
      if doExtraAnalysis { result := false; } else { return false, reported; }
    }
    if lp.numBackEdges != 1 {
      reported := reported + [NotSingleBackedge];
      if doExtraAnalysis { result := false; } else { return false, reported; }
    }
    if lp.exitingBlock.None? {
      reported := reported + [NoExitingBlock];
      if doExtraAnalysis { result := false; } else { return false, reported; }
    }
    if lp.exitingBlock != lp.latch {
      reported := reported + [ExitingNotLatch];
      if doExtraAnalysis { result := false; } else { return false, reported; }
    }
  }

  /**
   * `canVectorizeLoopNestCFG`: the loop's own shape, then each child nest in
   * order. In both modes the verdict is that every loop in the tree has the
   * canonical shape; fail-fast mode reports the first failure of the
   * collect-all mode and nothing else.
   */
  method CanVectorizeLoopNestCFG(lp: Loop, doExtraAnalysis: bool) returns (result: bool, reported: seq<CFGFailure>)
    ensures result <==> NestCFGOk(lp)
    ensures doExtraAnalysis ==> reported == NestFailures(lp)
    ensures !doExtraAnalysis ==> reported == FirstFailure(NestFailures(lp))
    decreases lp, 1
  {
    var ok, own := CanVectorizeLoopCFG(lp, doExtraAnalysis);
    if !ok && !doExtraAnalysis {
      OwnFailureFirst(lp);
      return false, own;
    }
    var childrenOk, fromChildren := CanVectorizeSubLoopNests(lp, doExtraAnalysis);
    result := ok && childrenOk;
    reported := own + fromChildren;
    NestFailuresEmpty(lp);
  }

  /** The loop over the sub-loops in `canVectorizeLoopNestCFG`. */
  method CanVectorizeSubLoopNests(lp: Loop, doExtraAnalysis: bool) returns (result: bool, reported: seq<CFGFailure>)
    ensures result <==> forall j :: 0 <= j < |lp.subLoops| ==> NestCFGOk(lp.subLoops[j])
    ensures doExtraAnalysis ==> reported == ChildFailures(lp, |lp.subLoops|)
    ensures !doExtraAnalysis ==> reported == FirstFailure(ChildFailures(lp, |lp.subLoops|))
    decreases lp, 0
  {
    var subs := lp.subLoops;
    result := true;
    reported := [];
    var i := 0;
    while i < |subs|
      invariant 0 <= i <= |subs|
      invariant result <==> ChildFailures(lp, i) == []
      invariant reported == if doExtraAnalysis then ChildFailures(lp, i) else []
      invariant !doExtraAnalysis ==> result
    {
      var okSub, fromSub := CanVectorizeLoopNestCFG(subs[i], doExtraAnalysis);
      ChildStep(lp, i);
      if !okSub && !doExtraAnalysis {
        FirstChildFailure(lp, i);
        return false, fromSub;
      }
      reported := reported + fromSub;
      if !okSub {
        result := false;
      }
      i := i + 1;
    }
    ChildFailuresEmpty(lp, |subs|);
  }

  /**
   * `isUniformLoop`: the outer loop itself is uniform; an inner loop is when
   * it has a canonical IV and its latch ends in a conditional branch on a
   * compare of the IV's update with a value invariant in the outer loop.
   */
  predicate IsUniformLoop(lp: Loop, outerId: nat, outerInvariant: set<nat>)
  {
    lp.id == outerId ||
    (match (lp.canonicalIVUpdate, lp.latchTerminator)
     case (Some(ivUpdate), CondBranch(CmpCond(op0, op1))) =>
       (op0 == ivUpdate && op1 in outerInvariant) || (op1 == ivUpdate && op0 in outerInvariant)
     case _ => false)
  }

  /** An inner loop without a canonical IV, or whose latch is not a compare branch, is never uniform. */
  lemma UniformNeedsCanonicalIV(lp: Loop, outerId: nat, outerInvariant: set<nat>)
    requires lp.id != outerId
    requires lp.canonicalIVUpdate.None? || !lp.latchTerminator.CondBranch? || lp.latchTerminator.cond.NotCmpCond?
    ensures !IsUniformLoop(lp, outerId, outerInvariant)
  {
  }

  /** `isUniformLoopNest`: uniform at every level of the nest. */
  predicate IsUniformLoopNest(lp: Loop, outerId: nat, outerInvariant: set<nat>)
  {
    HoldsThroughout(lp, l => IsUniformLoop(l, outerId, outerInvariant))
  }

  /** Checking the nest of the outer loop itself only constrains the loops inside it. */
  lemma UniformNestOfOuter(lp: Loop, outerInvariant: set<nat>)
    ensures IsUniformLoopNest(lp, lp.id, outerInvariant) <==>
            forall i :: 0 <= i < |lp.subLoops| ==> IsUniformLoopNest(lp.subLoops[i], lp.id, outerInvariant)
  {
  }

  /** The nest is uniform iff every loop in it is. */
  lemma UniformNestIff(lp: Loop, outerId: nat, outerInvariant: set<nat>)
    ensures IsUniformLoopNest(lp, outerId, outerInvariant) <==>
            forall l :: InNest(l, lp) ==> IsUniformLoop(l, outerId, outerInvariant)
  {
    HoldsThroughoutIff(lp, l => IsUniformLoop(l, outerId, outerInvariant));
  }

  /** The nest check accepts iff every loop in the tree has the canonical shape. */
  lemma NestCFGOkIff(lp: Loop)
    ensures NestCFGOk(lp) <==> forall l :: InNest(l, lp) ==> LoopCFGOk(l)
  {
    HoldsThroughoutIff(lp, LoopCFGOk);
  }
}
