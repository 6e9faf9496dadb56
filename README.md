# Loop vectorization legality, modelled in Dafny

This project models LLVM 9.0.0's loop-vectorization legality analysis
(`lib/Transforms/Vectorize/LoopVectorizationLegality.cpp`). The analysis
decides whether the loop vectorizer may transform a loop. While it does so, it
records what the vectorizer will need:

- the inductions and the primary induction;
- the widest induction type;
- the reductions and the first-order recurrences;
- the values allowed to be used after the loop;
- the loads and stores that need a mask.

The model proves properties of each decision rule.

The modules follow the structure of the source:

| module | models |
|---|---|
| `Util` | 32-bit truncation, `isPowerOf2_32`, string prefixes |
| `Config` | the `cl::opt` options and `VectorizerParams`, as one immutable record |
| `IRTypes` | IR types reduced to kind and width; `convertPointerToIntegerType`, `getWiderType` |
| `Hints` | `LoopVectorizeHints`: validation, `setHint`, reading the loop ID, the constructor, `setAlreadyVectorized`, `allowVectorization`, `vectorizeAnalysisPassName` |
| `Requirements` | `LoopVectorizationRequirements` and `doesNotMeet` |
| `LoopNest` | the loop tree; `canVectorizeLoopCFG`, `canVectorizeLoopNestCFG`, `isUniformLoop`, `isUniformLoopNest` |
| `LoopIR` | the instruction, block and loop facts the analysis reads, with other analyses' answers supplied as data |
| `Predication` | the rules of `blockCanBePredicated` as a specification; `canIfConvertPHINodes` |
| `Legality` | the `LoopVectorizationLegality` class: `addInductionPhi`, `blockCanBePredicated`, `canVectorizeWithIfConvert`, `canVectorizeInstrs`, `setupOuterLoopInductions`, `canVectorizeOuterLoop`, `canVectorizeMemory`, `canVectorize`, `canFoldTailByMasking` |

Where the source mutates state, the model does too:

- `LoopVectorizeHints`, `LoopVectorizationRequirements` and `LoopVectorizationLegality` are classes.
- Their methods update fields under `modifies` frames.
- Their loops carry invariants.

Each such method is specified against a pure function or predicate, and lemmas about that function state what the source promises.

Three properties cover each mode-dependent check (`canVectorizeLoopCFG`, `canVectorizeLoopNestCFG`, `canVectorizeOuterLoop`):

- The checks run either in "collect every reason" mode or in "fail fast" mode.
- The verdict is proved to be the same in both modes.
- For the loop-nest CFG check, fail-fast mode reports exactly the first failure that collect-all mode would report.

Facts computed by other LLVM analyses become fields of the `LoopIR` datatypes, and the model takes them as given:

- recurrence and induction classification;
- scalar evolution and its predicates;
- loop access analysis and the "block needs predication" query;
- the target library info and the vector intrinsic tables;
- the "used outside the loop" relation;
- loop invariance.

The pointer width that `DataLayout` would supply is the `ptrBits` parameter.

## Model

| member | source | states |
|---|---|---|
| Util.Truncate32 | llvm-9.0.0/lib/Transforms/Vectorize/LoopVectorizationLegality.cpp:251 | the value of an integer-constant hint is `getZExtValue` narrowed to `unsigned`: always below 2^32, and unchanged when it already fits |
| Util.PowerOfTwoIff | llvm-9.0.0/lib/Transforms/Vectorize/LoopVectorizationLegality.cpp:85-87 | the power-of-two test used by validation holds exactly for the numbers 2^k |
| Util.StripPrefix | llvm-9.0.0/lib/Transforms/Vectorize/LoopVectorizationLegality.cpp:244-246 | a name starts with the prefix and its remainder after the prefix is `rest` iff the name is prefix followed by `rest` |
| IRTypes.ConvertPointerToIntegerType | llvm-9.0.0/lib/Transforms/Vectorize/LoopVectorizationLegality.cpp:395-405 | a pointer becomes the pointer-sized integer; the result is never a pointer; a non-pointer result is at least 32 bits wide; a non-pointer of 32 bits or more is kept unchanged |
| IRTypes.ConvertedIsAtLeast32 | llvm-9.0.0/lib/Transforms/Vectorize/LoopVectorizationLegality.cpp:395-405 | when pointers are at least 32 bits wide, no converted type is narrower than 32 bits |
| IRTypes.GetWiderType | llvm-9.0.0/lib/Transforms/Vectorize/LoopVectorizationLegality.cpp:407-413 | the result is one of the two converted types; it is at least as wide as both; on equal widths it is the second |
| IRTypes.WiderTypeIsUpperBound | llvm-9.0.0/lib/Transforms/Vectorize/LoopVectorizationLegality.cpp:407-413 | widening in sequence yields a type at least as wide as every converted input |
| Hints.KindOfName | llvm-9.0.0/lib/Transforms/Vectorize/LoopVectorizationLegality.cpp:253-256 | a stripped name selects a hint iff it equals some hint's name, and then the hint of that name |
| Hints.ValidateWidth | llvm-9.0.0/lib/Transforms/Vectorize/LoopVectorizationLegality.cpp:84-85 | a width is accepted iff it is 2^k for some k and at most MaxVectorWidth |
| Hints.ValidateInterleave | llvm-9.0.0/lib/Transforms/Vectorize/LoopVectorizationLegality.cpp:86-87 | an interleave count is accepted iff it is one of 1, 2, 4, 8, 16 (powers of two up to MaxInterleaveFactor) |
| Hints.ValidateFlags | llvm-9.0.0/lib/Transforms/Vectorize/LoopVectorizationLegality.cpp:88-91 | force and isvectorized each accept exactly 0 and 1; the undefined force marker is never accepted |
| Hints.HintValues.Set | llvm-9.0.0/lib/Transforms/Vectorize/LoopVectorizationLegality.cpp:257-258 | writing one hint sets it and leaves the other three unchanged |
| Hints.MarkVectorized | llvm-9.0.0/lib/Transforms/Vectorize/LoopVectorizationLegality.cpp:134-135 | marking sets isvectorized to 1 and keeps the other hints |
| Hints.MarkVectorizedIdempotent | llvm-9.0.0/lib/Transforms/Vectorize/LoopVectorizationLegality.cpp:119-169 | marking twice equals marking once, and a marked loop is never allowed to vectorize |
| Hints.SetHintValues | llvm-9.0.0/lib/Transforms/Vectorize/LoopVectorizationLegality.cpp:243-263 | no prefix or a non-integer argument changes nothing; any hint that changes is the one named, and it takes the validated 32-bit value; a named hint with a valid value takes it |
| Hints.AllowVectorizationModes | llvm-9.0.0/lib/Transforms/Vectorize/LoopVectorizationLegality.cpp:138-169 | vectorizing only forced loops is the stricter mode: what it allows the default mode allows too; with an explicit enable both modes agree; an explicit disable forbids vectorization in both |
| Hints.EnablePragmaDecides | llvm-9.0.0/lib/Transforms/Vectorize/LoopVectorizationLegality.cpp:243-263 | an enable pragma of 0 or 1 sets only the force hint; with 0 the loop is never vectorized and rejections are not always printed; with 1 it is vectorized in either mode iff it is not already vectorized |
| Hints.PassNameOfHints | llvm-9.0.0/lib/Transforms/Vectorize/LoopVectorizationLegality.cpp:197-205 | before any pragma, rejections are always printed iff the command-line vector width is above 1; an explicit enable with a width other than 1 always prints them |
| Hints.HintsFromOperandsValidated | llvm-9.0.0/lib/Transforms/Vectorize/LoopVectorizationLegality.cpp:207-263 | after reading the loop ID, each hint still has its default or holds a value its kind accepts |
| Hints.NonNodeOperandsIgnored | llvm-9.0.0/lib/Transforms/Vectorize/LoopVectorizationLegality.cpp:218-240 | loop ID operands that are not nodes (bare strings included) change no hint |
| Hints.LoopVectorizeHints.constructor | llvm-9.0.0/lib/Transforms/Vectorize/LoopVectorizationLegality.cpp:96-117 | the hints are the defaults updated by the loop ID, then the forced interleave count; isvectorized becomes 1 when it was 1 or when width and interleave are both 1, and is 0 otherwise |
| Hints.LoopVectorizeHints.GetHintsFromMetadata | llvm-9.0.0/lib/Transforms/Vectorize/LoopVectorizationLegality.cpp:207-241 | the loop over the operands leaves the values of the functional reading; no loop ID changes nothing |
| Hints.LoopVectorizeHints.SetHint | llvm-9.0.0/lib/Transforms/Vectorize/LoopVectorizationLegality.cpp:243-263 | the loop over the four hints updates the fields exactly as `SetHintValues` says |
| Hints.LoopVectorizeHints.SetAlreadyVectorized | llvm-9.0.0/lib/Transforms/Vectorize/LoopVectorizationLegality.cpp:119-136 | the cached isvectorized becomes 1 and the other hints are unchanged |
| Hints.LoopVectorizeHints.SetPotentiallyUnsafe | llvm-9.0.0/lib/Transforms/Vectorize/LoopVectorizationLegality.cpp:778 | the potentially-unsafe flag is set |
| Requirements.DoesNotMeetMonotone | llvm-9.0.0/lib/Transforms/Vectorize/LoopVectorizationLegality.cpp:278-283 | more runtime checks never turn a failing verdict into a passing one |
| Requirements.DoesNotMeetThresholdFlip | llvm-9.0.0/lib/Transforms/Vectorize/LoopVectorizationLegality.cpp:278-283 | without unsafe algebra or reordering, the verdict fails iff the count exceeds either threshold |
| Requirements.AllowReorderingRelaxesMemoryChecks | llvm-9.0.0/lib/Transforms/Vectorize/LoopVectorizationLegality.cpp:268-283 | with reordering allowed, only the pragma threshold can fail the verdict |
| Requirements.AllowReorderingNeverAddsFailure | llvm-9.0.0/lib/Transforms/Vectorize/LoopVectorizationLegality.cpp:265-299 | whatever fails with reordering allowed also fails without it |
| Requirements.UnsafeAlgebraNeedsReordering | llvm-9.0.0/lib/Transforms/Vectorize/LoopVectorizationLegality.cpp:269-277 | a recorded unsafe-algebra instruction always fails when reordering is not allowed, and makes no difference once it is |
| Requirements.LoopVectorizationRequirements.AddUnsafeAlgebraInst | llvm-9.0.0/lib/Transforms/Vectorize/LoopVectorizationLegality.cpp:648-649 | the first unsafe-algebra instruction recorded is kept |
| Requirements.LoopVectorizationRequirements.AddRuntimePointerChecks | llvm-9.0.0/lib/Transforms/Vectorize/LoopVectorizationLegality.cpp:842 | the number of runtime pointer checks is recorded |
| Requirements.LoopVectorizationRequirements.DoesNotMeet | llvm-9.0.0/lib/Transforms/Vectorize/LoopVectorizationLegality.cpp:265-299 | the verdict is the disjunction of the failure conditions; a passing loop needs at most the pragma threshold of runtime checks, and without reordering it has no unsafe-algebra instruction and needs at most the runtime threshold |
| LoopNest.CFGFailures | llvm-9.0.0/lib/Transforms/Vectorize/LoopVectorizationLegality.cpp:993-1037 | a loop has failures iff it lacks one of: a preheader, exactly one backedge, an exiting block, an exiting block that is the latch |
| LoopNest.HoldsThroughoutIff | llvm-9.0.0/lib/Transforms/Vectorize/LoopVectorizationLegality.cpp:1055-1063 | the recursive traversal of the sub-loops holds iff the property holds of every loop in the tree |
| LoopNest.NestFailuresEmpty | llvm-9.0.0/lib/Transforms/Vectorize/LoopVectorizationLegality.cpp:1042-1066 | the nest check collects no failure iff every loop of the nest has the canonical shape |
| LoopNest.ChildFailuresEmpty | llvm-9.0.0/lib/Transforms/Vectorize/LoopVectorizationLegality.cpp:1055-1063 | the first k sub-nests report no failure iff each of them is canonical |
| LoopNest.FirstFailureStable | llvm-9.0.0/lib/Transforms/Vectorize/LoopVectorizationLegality.cpp:1055-1063 | once a sub-nest failed, the later sub-nests do not change the first failure |
| LoopNest.FirstChildFailure | llvm-9.0.0/lib/Transforms/Vectorize/LoopVectorizationLegality.cpp:1055-1062 | when the first failure comes from sub-nest i, it is the first failure of the whole child list |
| LoopNest.OwnFailureFirst | llvm-9.0.0/lib/Transforms/Vectorize/LoopVectorizationLegality.cpp:1047-1053 | a loop with its own failure reports it before any child's |
| LoopNest.CanVectorizeLoopCFG | llvm-9.0.0/lib/Transforms/Vectorize/LoopVectorizationLegality.cpp:977-1040 | the verdict is the canonical shape in both modes; collect-all mode reports every failing check in order, fail-fast mode only the first |
| LoopNest.CanVectorizeLoopNestCFG | llvm-9.0.0/lib/Transforms/Vectorize/LoopVectorizationLegality.cpp:1042-1066 | the verdict in both modes is that every loop of the tree is canonical; collect-all mode reports all failures, loop before children; fail-fast mode reports the first of those |
| LoopNest.CanVectorizeSubLoopNests | llvm-9.0.0/lib/Transforms/Vectorize/LoopVectorizationLegality.cpp:1055-1063 | the loop over the sub-loops accepts iff every sub-nest is canonical, with the same reporting in each mode |
| LoopNest.UniformNeedsCanonicalIV | llvm-9.0.0/lib/Transforms/Vectorize/LoopVectorizationLegality.cpp:332-350 | an inner loop without a canonical IV, a conditional latch branch, or a compare condition is not uniform |
| LoopNest.UniformNestOfOuter | llvm-9.0.0/lib/Transforms/Vectorize/LoopVectorizationLegality.cpp:327-328 | checked against itself, the outer loop only constrains the loops inside it |
| LoopNest.UniformNestIff | llvm-9.0.0/lib/Transforms/Vectorize/LoopVectorizationLegality.cpp:369-378 | the nest is uniform iff every loop in it is uniform with regard to the outer loop |
| LoopNest.NestCFGOkIff | llvm-9.0.0/lib/Transforms/Vectorize/LoopVectorizationLegality.cpp:1042-1066 | the nest verdict holds iff every loop in the tree has the canonical shape |
| LoopIR.ClassifyIsFirstAccepting | llvm-9.0.0/lib/Transforms/Vectorize/LoopVectorizationLegality.cpp:645-694 | the class of a header phi is the first of reduction, induction, first-order recurrence, coerced induction whose classifier accepts it; it is unidentified iff no classifier accepts it |
| LoopIR.HasOutsideLoopUser | llvm-9.0.0/lib/Transforms/Vectorize/LoopVectorizationLegality.cpp:417-432 | a positive answer needs a user outside the loop; a value already allowed to exit never has one |
| Predication.FirstReject | llvm-9.0.0/lib/Transforms/Vectorize/LoopVectorizationLegality.cpp:878-915 | the scan stops at the first rejected instruction, or at the end |
| Predication.StepRejectIff | llvm-9.0.0/lib/Transforms/Vectorize/LoopVectorizationLegality.cpp:881-914 | an instruction is rejected iff it is not harmless. Harmless means: no trapping constant operand; only loads read memory; only stores and loads through unsafe pointers write memory; an instruction that may throw does so only as one of those memory operations |
| Predication.PredicableIff | llvm-9.0.0/lib/Transforms/Vectorize/LoopVectorizationLegality.cpp:875-918 | a block can be predicated iff every instruction is harmless; the answer does not depend on the parallel annotation |
| Predication.StoresMasked | llvm-9.0.0/lib/Transforms/Vectorize/LoopVectorizationLegality.cpp:902-911 | in a block that can be predicated, every store is recorded as masked |
| Predication.SafeLoadsNotMasked | llvm-9.0.0/lib/Transforms/Vectorize/LoopVectorizationLegality.cpp:889-897 | a load through a safe pointer, or any load of a parallel loop, is never recorded as masked |
| Predication.MaskedAreMemoryOps | llvm-9.0.0/lib/Transforms/Vectorize/LoopVectorizationLegality.cpp:889-911 | only loads and stores are masked, and in a parallel loop only stores |
| Predication.CanIfConvertPHINodes | llvm-9.0.0/lib/Transforms/Vectorize/LoopVectorizationLegality.cpp:385-393 | true iff no leading phi of the block has a trapping constant incoming value |
| Predication.PhisFirstCovered | llvm-9.0.0/lib/Transforms/Vectorize/LoopVectorizationLegality.cpp:385-393 | when a block's phis come first, the check covers every phi of the block |
| Legality.PointersOfIff | llvm-9.0.0/lib/Transforms/Vectorize/LoopVectorizationLegality.cpp:936-937 | a pointer is collected iff some load or store of the block uses it |
| Legality.SafePointersIff | llvm-9.0.0/lib/Transforms/Vectorize/LoopVectorizationLegality.cpp:929-938 | a pointer is safe iff a load or store in a block that needs no predication uses it |
| Legality.ClassifiedStateSpec | llvm-9.0.0/lib/Transforms/Vectorize/LoopVectorizationLegality.cpp:643-694 | visiting a fresh header phi changes the classification only at that phi; an accepted phi lands in the table of its class with its descriptor, and an unidentified one changes nothing; reduction exits only grow; while the SCEV predicate is not trivially true, the only new exits are reduction exits |
| Legality.ClassifiedStateSummary | llvm-9.0.0/lib/Transforms/Vectorize/LoopVectorizationLegality.cpp:643-694 | classifying a fresh header phi keeps the induction summary (see note (6)) |
| Legality.InductionStepFrame | llvm-9.0.0/lib/Transforms/Vectorize/LoopVectorizationLegality.cpp:524-574 | `addInductionPhi` adds exactly one induction key and the descriptor's first cast; the phi and its latch value may exit iff the SCEV predicate is trivially true; reductions, recurrences, predicates and the unsafe-algebra record are untouched |
| Legality.InductionStepSummary | llvm-9.0.0/lib/Transforms/Vectorize/LoopVectorizationLegality.cpp:524-574 | over a phi not yet recorded, `addInductionPhi` keeps the induction summary of note (6) |
| Legality.ResetPrimarySpec | llvm-9.0.0/lib/Transforms/Vectorize/LoopVectorizationLegality.cpp:799-822 | after the final reset, a primary induction remains iff some recorded canonical integer induction has the widest type; the summary of note (6) is kept |
| Legality.CheckedStateSpec | llvm-9.0.0/lib/Transforms/Vectorize/LoopVectorizationLegality.cpp:613-796 | visiting an instruction not yet recorded changes the classification only at its own phi; reduction exits only grow; while the SCEV predicate is not trivially true the only new exits are reduction exits; the induction summary is kept; only a header phi can add an induction |
| Legality.ScanInstsKeys | llvm-9.0.0/lib/Transforms/Vectorize/LoopVectorizationLegality.cpp:613-796 | scanning a block from a state whose keys are all behind the block keeps every key behind the scan position and a converted widest type |
| Legality.ScanInstsProgress | llvm-9.0.0/lib/Transforms/Vectorize/LoopVectorizationLegality.cpp:613-796 | scanning a block keeps the SCEV predicates growing, the reduction exits growing, the exit bound under a non-trivial predicate, and adds inductions only for the header's phis |
| Legality.ScanInstsSummary | llvm-9.0.0/lib/Transforms/Vectorize/LoopVectorizationLegality.cpp:613-796 | scanning a block keeps the induction summary of note (6) |
| Legality.ScanBlocksKeys | llvm-9.0.0/lib/Transforms/Vectorize/LoopVectorizationLegality.cpp:611-797 | scanning the first b blocks keeps every key behind the scan position and a converted widest type |
| Legality.ScanBlocksProgress | llvm-9.0.0/lib/Transforms/Vectorize/LoopVectorizationLegality.cpp:611-797 | scanning the first b blocks keeps the scan's progress: predicates and reduction exits grow, the exit bound holds, the induction summary is kept, and every new induction is a header phi |
| Legality.BlockCheckedAll | llvm-9.0.0/lib/Transforms/Vectorize/LoopVectorizationLegality.cpp:613-796 | the facts each visit of a block left behind, together with the earlier blocks' facts, all hold in the state after the block's last visit |
| Legality.ScanOutcome | llvm-9.0.0/lib/Transforms/Vectorize/LoopVectorizationLegality.cpp:799-822 | after a successful scan and the primary reset, every instruction meets the per-instruction conditions, every checked-in fact survives the reset, and a summary at the start gives the summary and the primary iff at the end |
| Legality.SupportedPrefix | llvm-9.0.0/lib/Transforms/Vectorize/LoopVectorizationLegality.cpp:579-600 | `all_of` over the header phis stops at the first phi that is not an integer induction: every phi before that point is supported, and the phi at that point, if there is one, is not |
| Legality.OuterScanKeys | llvm-9.0.0/lib/Transforms/Vectorize/LoopVectorizationLegality.cpp:588-599 | the outer scan records as new induction keys exactly the header phis it visits |
| Legality.OuterScanFrame | llvm-9.0.0/lib/Transforms/Vectorize/LoopVectorizationLegality.cpp:588-599 | the outer scan lets out each visited phi and its latch value iff the SCEV predicate is trivially true, ignores exactly their first casts, and leaves reductions, recurrences, predicates and the unsafe-algebra record alone |
| Legality.OuterScanEntries | llvm-9.0.0/lib/Transforms/Vectorize/LoopVectorizationLegality.cpp:588-599 | over phis not yet recorded, the outer scan keeps every earlier entry and maps each visited phi to its induction descriptor |
| Legality.OuterScanSummary | llvm-9.0.0/lib/Transforms/Vectorize/LoopVectorizationLegality.cpp:588-599 | over fresh integer phis, the outer scan keeps the induction summary of note (6) and a converted widest type |
| Legality.OuterPrimaryMayBeNarrower | llvm-9.0.0/lib/Transforms/Vectorize/LoopVectorizationLegality.cpp:555-558 | on the outer-loop path there is no final reset: a canonical `i32` phi followed by a wider non-canonical phi leaves the narrower phi primary, although no canonical induction has the widest type |
| Legality.SCEVThresholdOfEnablePragma | llvm-9.0.0/lib/Transforms/Vectorize/LoopVectorizationLegality.cpp:1140-1142 | an enable pragma of 1 selects the pragma SCEV threshold and one of 0 the normal threshold; with the file's defaults (16 and 128) an enable of 1 never lowers the threshold the loop had before the pragma |
| Legality.LoopVectorizationLegality.WidestAtLeast32 | llvm-9.0.0/lib/Transforms/Vectorize/LoopVectorizationLegality.cpp:541-546 | with pointers of at least 32 bits, the widest induction type is at least 32 bits wide |
| Legality.LoopVectorizationLegality.AddReductionPhi | llvm-9.0.0/lib/Transforms/Vectorize/LoopVectorizationLegality.cpp:646-652 | the reduction is recorded, its exit value may leave the loop, its unsafe-algebra instruction is noted unless one already is, and nothing else changes |
| Legality.LoopVectorizationLegality.AddInductionPhi | llvm-9.0.0/lib/Transforms/Vectorize/LoopVectorizationLegality.cpp:524-574 | See note (1) below the table |
| Legality.LoopVectorizationLegality.BlockCanBePredicated | llvm-9.0.0/lib/Transforms/Vectorize/LoopVectorizationLegality.cpp:875-918 | the verdict is `Predicable`; the masked set grows by exactly the masked loads and stores before the first rejected instruction |
| Legality.LoopVectorizationLegality.CollectSafePointers | llvm-9.0.0/lib/Transforms/Vectorize/LoopVectorizationLegality.cpp:929-938 | the collected set is the pointers of all loads and stores in unpredicated blocks |
| Legality.LoopVectorizationLegality.IfConvertBlock | llvm-9.0.0/lib/Transforms/Vectorize/LoopVectorizationLegality.cpp:945-970 | one block passes iff it ends in a branch, and it can be predicated when it needs predication, or its phis can be if-converted when it needs none and is not the header; on success the masks grow by exactly the block's masked loads and stores |
| Legality.LoopVectorizationLegality.CanVectorizeWithIfConvert | llvm-9.0.0/lib/Transforms/Vectorize/LoopVectorizationLegality.cpp:920-974 | true iff if-conversion is enabled and every block satisfies three conditions. It ends in a branch. If it needs predication, it can be predicated with the safe pointers. If it needs none and is not the header, its phis can be if-converted. The masked set only grows, and on success it grows by the masks of all predicated blocks |
| Legality.LoopVectorizationLegality.ClassifyHeaderPhi | llvm-9.0.0/lib/Transforms/Vectorize/LoopVectorizationLegality.cpp:643-694 | See note (2) below the table |
| Legality.LoopVectorizationLegality.CheckInstruction | llvm-9.0.0/lib/Transforms/Vectorize/LoopVectorizationLegality.cpp:613-796 | See note (3) below the table |
| Legality.LoopVectorizationLegality.CheckPhi | llvm-9.0.0/lib/Transforms/Vectorize/LoopVectorizationLegality.cpp:614-695 | a phi is rejected whenever it fails the per-instruction conditions (an integer, floating-point or pointer type; in the header, two incoming values and a class); the new state is exactly `CheckedState` of the old one; on success the phi is checked in |
| Legality.LoopVectorizationLegality.CheckNonPhi | llvm-9.0.0/lib/Transforms/Vectorize/LoopVectorizationLegality.cpp:697-796 | an instruction other than a phi is rejected whenever it fails the per-instruction conditions on calls, result types, `extractelement` and stored types; the new state is exactly `CheckedState` of the old one, so a value used outside the loop may exit only while the SCEV predicate is trivially true; the potentially-unsafe flag is never cleared, and on success it is set for an unsafe floating-point operation |
| Legality.LoopVectorizationLegality.CheckBlockInstrs | llvm-9.0.0/lib/Transforms/Vectorize/LoopVectorizationLegality.cpp:613-797 | on success the new state is exactly the scan of the block (`ScanInsts`), every instruction of the block is checked in, the earlier blocks' facts still hold, and no recorded key belongs to a later instruction; a summary (note (6)) at the start is kept, and only header phis are added as inductions; the SCEV predicates only grow |
| Legality.LoopVectorizationLegality.VisitInsts | llvm-9.0.0/lib/Transforms/Vectorize/LoopVectorizationLegality.cpp:613-796 | the instructions of a block are visited in order and the visit stops after the first rejection; the new state is the scan of the instructions visited (`ScanInsts`), the potentially-unsafe flag is never cleared, and on success each instruction was checked in when visited |
| Legality.LoopVectorizationLegality.CheckBlocks | llvm-9.0.0/lib/Transforms/Vectorize/LoopVectorizationLegality.cpp:611-797 | the blocks are scanned in order; on success the new state is the scan of every block (`ScanBlocks`), every instruction of the loop is checked in, and the scan's progress holds; the exit bound under a non-trivial SCEV predicate holds on failure too |
| Legality.LoopVectorizationLegality.CanVectorizeInstrs | llvm-9.0.0/lib/Transforms/Vectorize/LoopVectorizationLegality.cpp:602-823 | See note (4) below the table |
| Legality.LoopVectorizationLegality.CheckPrimaryInduction | llvm-9.0.0/lib/Transforms/Vectorize/LoopVectorizationLegality.cpp:799-822 | without a primary induction the loop is rejected iff it has no induction or no widest type; on success a primary induction without the widest type is dropped (`ResetPrimary`), and on failure nothing changes |
| Legality.LoopVectorizationLegality.SetupOuterLoopInductions | llvm-9.0.0/lib/Transforms/Vectorize/LoopVectorizationLegality.cpp:576-600 | See note (7) below the table |
| Legality.LoopVectorizationLegality.CanVectorizeOuterLoop | llvm-9.0.0/lib/Transforms/Vectorize/LoopVectorizationLegality.cpp:456-522 | in both modes, true iff every block ends in a supported branch, the inner loops are uniform, and every header phi is an integer induction; the new state is the old one or the outer scan of note (7), with the facts of note (7) about keys, entries, exits, ignored casts and the induction summary |
| Legality.LoopVectorizationLegality.CanVectorizeMemory | llvm-9.0.0/lib/Transforms/Vectorize/LoopVectorizationLegality.cpp:825-847 | true iff access analysis accepts the loop and no dependence involves an invariant address; on success its check count and predicates are recorded; otherwise nothing changes |
| Legality.LoopVectorizationLegality.CanVectorizeInnerLoop | llvm-9.0.0/lib/Transforms/Vectorize/LoopVectorizationLegality.cpp:1104-1159 | See note (5) below the table |
| Legality.LoopVectorizationLegality.CanVectorizeLoopBody | llvm-9.0.0/lib/Transforms/Vectorize/LoopVectorizationLegality.cpp:1116-1152 | on success every instruction is accepted and checked in, memory is accepted, the SCEV predicate is within the threshold, and there is an induction; the new state is the reset scan of every block with the memory predicates added; the inductions are header phis; a summary at the start gives the summary and the primary iff at the end |
| Legality.LoopVectorizationLegality.CanFoldTailByMasking | llvm-9.0.0/lib/Transforms/Vectorize/LoopVectorizationLegality.cpp:1161-1215 | true iff there is a primary induction, there are no reductions, no value allowed to exit is used outside the loop, and every block can be predicated with no safe pointers; masks only grow |
| Legality.LoopVectorizationLegality.CanVectorize | llvm-9.0.0/lib/Transforms/Vectorize/LoopVectorizationLegality.cpp:1068-1159 | See note (5) below the table |

Notes for the longer rows:

1. `AddInductionPhi`:
   - The primary induction, when set, keeps three properties: it is a recorded integer induction, it starts at 0, and it steps by 1.
   - The descriptor is recorded, and the first cast is added to the ignored casts.
   - The widest type is widened except for floating-point phis.
   - The phi becomes primary when it is canonical, and either there is no primary yet or its type is the widest type.
   - The phi and its latch value may exit only when the SCEV predicate is always true.
   - The new snapshot is `InductionStep` of the old one, which `ClassifiedState` and `OuterScan` reuse.
2. `ClassifyHeaderPhi`:
   - The phi is accepted iff `Classify` gives it a class, that is, iff some classifier accepts it.
   - The new classification is exactly `ClassifiedState` of the old one, which changes only the following:
     - the table of its class gains the phi with its descriptor;
     - a reduction's exit value may leave the loop;
     - unsafe algebra is recorded for reductions, and for inductions unless the function has no-NaNs;
     - a coerced induction's predicates are added;
     - an induction or coerced induction goes through `addInductionPhi` (note (1)): widest type, primary induction, first cast, and exits while the SCEV predicate is trivially true.
   - An unidentified phi changes nothing.
3. `CheckInstruction`:
   - The instruction is rejected whenever it fails the per-instruction conditions.
   - A phi must have an accepted type. A header phi must also have two incoming values and be classified.
   - A call must be vectorizable, every result type vectorizable, and no `extractelement` is accepted. A store must store a vectorizable type.
   - The new state, including the widest type, the primary induction and the ignored casts, is exactly `CheckedState` of the old one. `CheckedStateSpec` states what that means: only the instruction's own phi is added, and the induction summary of note (6) is kept.
   - On success, a non-phi value used outside the loop is allowed to exit.
   - While the SCEV predicate is not always true, the only new exits are reduction exits.
   - On success, an unsafe floating-point operation has set the hints' potentially-unsafe flag, and the flag is never cleared.
4. `CanVectorizeInstrs`:
   - On success, every instruction meets the per-instruction conditions and every header phi is recorded as its classification says.
   - On success, the new state is exactly the scan of every block followed by the primary reset: `ResetPrimary(ScanBlocks(...))`.
   - The new inductions are phis of the header.
   - There is at least one induction and a widest type.
   - The primary induction is either absent or of the widest type.
   - When the summary of note (6) holds at the start, as it does when no induction is recorded yet (`NoInductionsSummary`), it holds at the end, and there is a primary induction iff some recorded canonical integer induction has the widest type.
   - If the SCEV predicate was not always true at the start, the only new exits are reduction exits.
5. `CanVectorize` and `CanVectorizeInnerLoop`:
   - Success implies the nest has the canonical shape.
   - For an outer loop, the verdict is exactly "canonical shape and the outer-loop checks pass".
   - An outer loop changes no reduction, recurrence, SCEV predicate, mask or unsafe-algebra record. Its new state is the old one or the outer scan, with the facts of note (7).
   - For an inner loop, success implies these things:
     - if-conversion succeeds, when the loop has more than one block;
     - every instruction is accepted;
     - memory is accepted;
     - the SCEV predicate is within the (possibly forced) threshold;
     - there is an induction, and the primary induction is of the widest type;
     - the masked set grew by exactly the masked loads and stores of all predicated blocks, or not at all for a single block;
     - every instruction is checked in against the final classification;
     - the requirements hold the loop's runtime pointer check count;
     - the new state is the reset scan of every block with the memory predicates added, and its new inductions are header phis;
     - a summary (note (6)) at the start gives the summary and the primary iff of note (4) at the end.
6. The induction summary (`InductionSummary`) is what the source's widest-type and primary-induction bookkeeping promises:
   - the widest type, when set, is an integer type;
   - it is at least as wide as the converted type of every recorded induction that is not floating point;
   - with pointers of at least 32 bits, it is the converted type of some such induction;
   - when some recorded canonical integer induction has the widest type, the primary induction has it too.
7. `SetupOuterLoopInductions` (and `CanVectorizeOuterLoop` on success):
   - The verdict is true iff every header phi is an integer induction.
   - The new state is exactly `OuterScan` of the old one over the header phis before the first unsupported one (all of them on success).
   - The new induction keys are exactly those phis, each mapped to its descriptor, and earlier entries are kept.
   - The allowed exits gain those phis and their latch values iff the SCEV predicate is trivially true.
   - The ignored casts gain exactly their first casts.
   - The summary of note (6) is kept.

## Left out

- Remarks, debug output and failure messages (`reportVectorizationFailure`, `ORE->emit`, `emitRemarkWithHints`, `LLVM_DEBUG`). They carry no information beyond the boolean verdicts modelled here. `vectorizeAnalysisPassName` is modelled as the choice it makes.
- Building metadata in `setAlreadyVectorized` (`makePostTransformationMetadata`, `setLoopID`). Only the cached flag is modelled. `makePostTransformationMetadata` lives in LoopUtils.cpp, which is not part of this model.
- Walking real `MDNode`s in `getHintsFromMetadata`. A loop ID is a sequence of operands. Each operand is a bare string, a node with an optional leading string and its arguments, or something else. The self-reference operand is dropped.
- `hasDisableAllTransformsHint` is not modelled. In the header, `getForce` also returns Disabled when the force hint is undefined and a disable-all-transforms hint is present. `ForceOf` reads the stored value only.
- `allowReordering` is passed to `DoesNotMeet` as a flag, because its definition lives in the header.
- The other analyses become data in the `LoopIR` datatypes:
  - `isReductionPHI`, `isInductionPHI`, `isFirstOrderRecurrence`. At 677-678 `isFirstOrderRecurrence` also fills the `SinkAfter` map, which the model does not keep;
  - `LoopAccessInfo`;
  - `blockNeedsPredication`;
  - SCEV and PSE;
  - TLI and `getVectorIntrinsicIDForCall`;
  - `hasVectorInstrinsicScalarOpd`;
  - loop invariance;
  - `Instruction::users`.
- The SCEV union predicate is a set of predicate identities: it is always true iff the set is empty, and its complexity is its size. A coerced induction adds its predicates only when it is accepted.
- `isConsecutivePtr`, `isUniform`, `isInductionPhi`, `isCastedInductionVariable`, `isInductionVariable` and `isFirstOrderRecurrence` are omitted. They are thin wrappers over other analyses or lookups in the maps modelled here.
- DataLayout is only the pointer width `ptrBits`.
- The `cl::opt` globals and `VectorizerParams` become the immutable `Config` record. `ORE->allowExtraAnalysis` becomes `Config.doExtraAnalysis`.
- Floating point appears only as a type kind and the `isFast` flag.
- The assertions of the source (an outer loop under the VPlan-native path, more than one block for if-conversion, a non-empty nest for the outer-loop checks) become `requires` clauses.
- IRTypes.ConvertedIsAtLeast32: "never below 32 bits" needs pointers of at least 32 bits. For a pointer the source returns DataLayout's pointer-sized integer, which is narrower on targets with 16-bit pointers.
- Legality.LoopVectorizationLegality.AddInductionPhi: requires that the phi is not yet recorded (each header phi is added once) and that an integer induction has integer type (the descriptor's own invariant). These hold at every call site, and `CanVectorizeInstrs` discharges them from the distinct instruction identities of a well-formed loop.
- Legality.LoopVectorizationLegality.CanVectorizeInstrs: states the success direction only. Whether the scan fails also depends on the evolving SCEV predicate and on the values already allowed to exit, and no closed form of the rejection is given. `CheckInstruction` does state that every instruction failing the per-instruction conditions is rejected.
- Legality.LoopVectorizationLegality.CanVectorize: for inner loops only the success direction is stated, for the same reason.
- Legality.LoopVectorizationLegality.CanVectorizeInnerLoop: states the success direction only, for the same reason.
- Legality.LoopVectorizationLegality.CanVectorizeInstrs: reads the function's no-NaNs attribute from `LoopFacts.hasNoNaNsAttr` instead of recording it in the class.
- Loops are identified structurally: `Lp == OuterLp` is a comparison of loop identities, and a block is the header when its identity is that of the first block.
- `BB->phis()` visits only a block's leading phis, and so do `LeadingPhis` and the checks built on it.
- Legality.LoopVectorizationLegality.CanVectorizeInstrs: the state after a failed scan is not given in closed form; only the exit bound under a non-trivial SCEV predicate is stated for it.
- Legality.LoopVectorizationLegality.CanVectorizeInstrs: the primary iff and the summary at the end are stated under the summary at the start. `NoInductionsSummary` discharges that for a loop with no induction recorded yet, which is the state the constructor leaves.
- Legality.InductionStepSummary: "the widest type is the converted type of a recorded induction" is stated only for pointers of at least 32 bits. On narrower pointer widths a pointer phi leaves a widest type below 32 bits, and the next `getWiderType` converts that stored type again, to a 32-bit integer that need not be any recorded phi's converted type.
- Legality.LoopVectorizationLegality.SetupOuterLoopInductions: states no primary iff, because `setupOuterLoopInductions` has no final reset of the primary induction; `OuterPrimaryMayBeNarrower` shows a header where the primary is narrower than the widest type.
- Legality.LoopVectorizationLegality.CanVectorizeOuterLoop: states no primary iff, for the same reason.
