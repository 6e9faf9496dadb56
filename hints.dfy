/**
 * Loop vectorization hints (`LoopVectorizeHints`): four integer knobs read
 * from the loop's `llvm.loop.*` metadata, validated per kind, and the
 * opt-out decision derived from them.
 */
module Hints {
  import opened Util
  import opened Config

  /** The metadata name prefix of every hint. */
  const Prefix: string := "llvm.loop."

  datatype HintKind = HintWidth | HintUnroll | HintForce | HintIsVectorized

  /** The name of each hint after the prefix. */
  function HintName(k: HintKind): string
  {
    match k
    case HintWidth => "vectorize.width"
    case HintUnroll => "interleave.count"
    case HintForce => "vectorize.enable"
    case HintIsVectorized => "isvectorized"
  }

  /** The hint a stripped name selects, checking Width, Interleave, Force, IsVectorized in turn. */
  function KindOfName(name: string): (r: Option<HintKind>)
    ensures r.Some? <==> exists k :: HintName(k) == name
    ensures r.Some? ==> HintName(r.value) == name
  {
    if name == HintName(HintWidth) then Some(HintWidth)
    else if name == HintName(HintUnroll) then Some(HintUnroll)
    else if name == HintName(HintForce) then Some(HintForce)
    else if name == HintName(HintIsVectorized) then Some(HintIsVectorized)
    else None
  }

  /** `Hint::validate`: the values each kind accepts. */
  predicate Validate(k: HintKind, val: nat, maxVectorWidth: nat)
  {
    match k
    case HintWidth => IsPowerOfTwo(val) && val <= maxVectorWidth
    case HintUnroll => IsPowerOfTwo(val) && val <= MaxInterleaveFactor
    case HintForce => val <= 1
    case HintIsVectorized => val == 0 || val == 1
  }

  lemma {:induction false} PowerOfTwoAtMost16(v: nat)
    requires IsPowerOfTwo(v) && v <= 16
    ensures v == 1 || v == 2 || v == 4 || v == 8 || v == 16
  {
    if v > 1 {
      assert IsPowerOfTwo(v / 2);
      if v / 2 > 1 {
        assert IsPowerOfTwo(v / 4);
        if v / 4 > 1 {
          assert IsPowerOfTwo(v / 8);
        }
      }
    }
  }

  /** Validation accepts a vector width iff it is 2^k for some k and at most MaxVectorWidth. */
  lemma ValidateWidth(val: nat, maxVectorWidth: nat)
    ensures Validate(HintWidth, val, maxVectorWidth) <==>
            (exists k: nat :: Pow2(k) == val) && val <= maxVectorWidth
  {
    PowerOfTwoIff(val);
  }

  /** Validation accepts exactly the interleave counts 1, 2, 4, 8 and 16. */
  lemma ValidateInterleave(val: nat, maxVectorWidth: nat)
    ensures Validate(HintUnroll, val, maxVectorWidth) <==> val in {1, 2, 4, 8, 16}
  {
    if Validate(HintUnroll, val, maxVectorWidth) {
      PowerOfTwoAtMost16(val);
    }
    if val in {1, 2, 4, 8, 16} {
      assert IsPowerOfTwo(1);
      assert IsPowerOfTwo(2);
      assert IsPowerOfTwo(4) by { assert IsPowerOfTwo(2); }
      assert IsPowerOfTwo(8) by { assert IsPowerOfTwo(4); }
      assert IsPowerOfTwo(16) by { assert IsPowerOfTwo(8); }
    }
  }

  /** Force accepts 0 and 1; isvectorized accepts 0 and 1; neither accepts the undefined marker. */
  lemma ValidateFlags(val: nat, maxVectorWidth: nat)
    ensures Validate(HintForce, val, maxVectorWidth) <==> val == 0 || val == 1
    ensures Validate(HintIsVectorized, val, maxVectorWidth) <==> val == 0 || val == 1
    ensures !Validate(HintForce, ForceUndefinedValue, maxVectorWidth)
  {
  }

  /** `ForceKind`: FK_Undefined = -1, FK_Disabled = 0, FK_Enabled = 1. */
  datatype ForceKind = ForceUndefined | ForceDisabled | ForceEnabled

  /** FK_Undefined stored in an `unsigned` field: (unsigned)-1. */
  const ForceUndefinedValue: nat := 0xFFFF_FFFF

  /** `getForce`: the force field read back as a ForceKind. */
  function ForceOf(v: nat): ForceKind
  {
    if v == 0 then ForceDisabled
    else if v == 1 then ForceEnabled
    else ForceUndefined
  }

  /** Which remark pass name a rejection is reported under. */
  datatype PassName = LVName | AlwaysPrint

  /** The values of the four hints. */
  datatype HintValues = HintValues(width: nat, interleave: nat, force: nat, isVectorized: nat)
  {
    function Get(k: HintKind): nat
    {
      match k
      case HintWidth => width
      case HintUnroll => interleave
      case HintForce => force
      case HintIsVectorized => isVectorized
    }

    function Set(k: HintKind, v: nat): (r: HintValues)
      ensures r.Get(k) == v
      ensures forall k' :: k' != k ==> r.Get(k') == Get(k')
    {
      match k
      case HintWidth => this.(width := v)
      case HintUnroll => this.(interleave := v)
      case HintForce => this.(force := v)
      case HintIsVectorized => this.(isVectorized := v)
    }

    /**
     * `allowVectorization`: not explicitly disabled, explicitly enabled when
     * only forced loops are vectorized, and not already vectorized.
     */
    function AllowVectorization(vectorizeOnlyWhenForced: bool): (r: bool)
      ensures r <==> && ForceOf(force) != ForceDisabled
                     && (!vectorizeOnlyWhenForced || ForceOf(force) == ForceEnabled)
                     && isVectorized != 1
    {
      if ForceOf(force) == ForceDisabled then false
      else if vectorizeOnlyWhenForced && ForceOf(force) != ForceEnabled then false
      else if isVectorized == 1 then false
      else true
    }

    /**
     * `vectorizeAnalysisPassName`: rejections are always printed unless the
     * user disabled vectorization, asked for width 1, or gave no hint at all.
     */
    function VectorizeAnalysisPassName(): (r: PassName)
      ensures r == AlwaysPrint <==>
              width != 1 && ForceOf(force) != ForceDisabled && !(ForceOf(force) == ForceUndefined && width == 0)
    {
      if width == 1 then LVName
      else if ForceOf(force) == ForceDisabled then LVName
      else if ForceOf(force) == ForceUndefined && width == 0 then LVName
      else AlwaysPrint
    }
  }

  /** `setAlreadyVectorized` on the cached values. */
  function MarkVectorized(h: HintValues): (r: HintValues)
    ensures r.isVectorized == 1
    ensures r.width == h.width && r.interleave == h.interleave && r.force == h.force
  {
    h.(isVectorized := 1)
  }

  /** Marking twice is marking once, and a marked loop is never vectorized again. */
  lemma MarkVectorizedIdempotent(h: HintValues, vectorizeOnlyWhenForced: bool)
    ensures MarkVectorized(MarkVectorized(h)) == MarkVectorized(h)
    ensures !MarkVectorized(h).AllowVectorization(vectorizeOnlyWhenForced)
  {
  }

  /** The argument of a hint's metadata node. */
  datatype HintArg = ConstInt(zext: nat) | NotConstInt

  /** One operand of a loop ID after the self-reference. */
  datatype MDOperand =
    | MDStringOp(s: string)
    | MDNodeOp(first: Option<string>, args: seq<HintArg>)   // first is None when absent or not a string
    | OtherOp

  /**
   * `setHint`: a name without the prefix, an argument that is not an integer
   * constant and a value the kind rejects all leave the hints unchanged;
   * otherwise exactly the hint named takes the (32-bit) value.
   */
  function SetHintValues(h: HintValues, name: string, arg: HintArg, maxVectorWidth: nat): (r: HintValues)
    ensures !StartsWith(name, Prefix) ==> r == h
    ensures arg.NotConstInt? ==> r == h
    ensures forall k :: r.Get(k) != h.Get(k) ==>
              && name == Prefix + HintName(k) && arg.ConstInt?
              && Validate(k, Truncate32(arg.zext), maxVectorWidth)
              && r.Get(k) == Truncate32(arg.zext)
    ensures forall k :: name == Prefix + HintName(k) && arg.ConstInt? && Validate(k, Truncate32(arg.zext), maxVectorWidth) ==>
              r.Get(k) == Truncate32(arg.zext)
  {
    if !StartsWith(name, Prefix) then h
    else
      var rest := name[|Prefix|..];
      assert forall k :: name == Prefix + HintName(k) <==> rest == HintName(k) by {
        forall k ensures name == Prefix + HintName(k) <==> rest == HintName(k) {
          StripPrefix(name, Prefix, HintName(k));
        }
      }
      match arg
      case NotConstInt => h
      case ConstInt(z) =>
        var val := Truncate32(z);
        match KindOfName(rest)
        case None => h
        case Some(k) => if Validate(k, val, maxVectorWidth) then h.Set(k, val) else h
  }

  /** The effect of one loop ID operand: only a node of a string and one argument is a hint. */
  function ApplyOperand(h: HintValues, op: MDOperand, maxVectorWidth: nat): HintValues
  {
    match op
    case MDNodeOp(Some(name), args) =>
      if |args| == 1 then SetHintValues(h, name, args[0], maxVectorWidth) else h
    case _ => h
  }

  /** `getHintsFromMetadata` on the values: the operands applied in order. */
  function HintsFromOperands(h: HintValues, ops: seq<MDOperand>, maxVectorWidth: nat): HintValues
  {
    if ops == [] then h
    else ApplyOperand(HintsFromOperands(h, ops[..|ops| - 1], maxVectorWidth), ops[|ops| - 1], maxVectorWidth)
  }

  /** Every hint read from metadata keeps its default or holds a value its kind accepts. */
  lemma {:induction false} HintsFromOperandsValidated(h: HintValues, ops: seq<MDOperand>, maxVectorWidth: nat, k: HintKind)
    ensures var r := HintsFromOperands(h, ops, maxVectorWidth);
            r.Get(k) == h.Get(k) || Validate(k, r.Get(k), maxVectorWidth)
  {
    if ops != [] {
      HintsFromOperandsValidated(h, ops[..|ops| - 1], maxVectorWidth, k);
    }
  }

  /** Operands that are not hint nodes, bare strings included, change nothing. */
  lemma {:induction false} NonNodeOperandsIgnored(h: HintValues, ops: seq<MDOperand>, maxVectorWidth: nat)
    requires forall i :: 0 <= i < |ops| ==> !ops[i].MDNodeOp?
    ensures HintsFromOperands(h, ops, maxVectorWidth) == h
  {
    if ops != [] {
      NonNodeOperandsIgnored(h, ops[..|ops| - 1], maxVectorWidth);
    }
  }

  /** The default values before metadata is read. */
  function DefaultHints(cfg: Config, interleaveOnlyWhenForced: bool): HintValues
  {
    HintValues(cfg.vectorizationFactor, if interleaveOnlyWhenForced then 1 else 0, ForceUndefinedValue, 0)
  }

  /**
   * Vectorizing only forced loops is the stricter mode; for a loop with an explicit enable the
   * mode makes no difference, and an explicit disable wins in either mode.
   */
  lemma AllowVectorizationModes(h: HintValues)
    ensures h.AllowVectorization(true) ==> h.AllowVectorization(false)
    ensures ForceOf(h.force) == ForceEnabled ==> (h.AllowVectorization(true) <==> h.AllowVectorization(false))
    ensures ForceOf(h.force) == ForceDisabled ==> !h.AllowVectorization(false) && !h.AllowVectorization(true)
  {
  }

  /**
   * A `llvm.loop.vectorize.enable` pragma decides the loop: with 0 it is never vectorized and its
   * rejections are not forced into view; with 1 it is vectorized in either mode unless it already
   * was, and the other hints keep their values.
   */
  lemma EnablePragmaDecides(h: HintValues, v: nat, maxVectorWidth: nat, vectorizeOnlyWhenForced: bool)
    requires v <= 1
    ensures var h' := SetHintValues(h, Prefix + HintName(HintForce), ConstInt(v), maxVectorWidth);
            && h'.width == h.width && h'.interleave == h.interleave && h'.isVectorized == h.isVectorized
            && (v == 0 ==> !h'.AllowVectorization(vectorizeOnlyWhenForced) && h'.VectorizeAnalysisPassName() == LVName)
            && (v == 1 ==> (h'.AllowVectorization(vectorizeOnlyWhenForced) <==> h.isVectorized != 1))
  {
    var h' := SetHintValues(h, Prefix + HintName(HintForce), ConstInt(v), maxVectorWidth);
    assert Validate(HintForce, Truncate32(v), maxVectorWidth);
    assert h'.Get(HintForce) == v;
    forall k | k != HintForce
      ensures h'.Get(k) == h.Get(k)
    {
      assert HintName(k) != HintName(HintForce);
      assert (Prefix + HintName(k))[|Prefix|..] == HintName(k);
      assert (Prefix + HintName(HintForce))[|Prefix|..] == HintName(HintForce);
    }
    assert h'.width == h'.Get(HintWidth) && h'.interleave == h'.Get(HintUnroll) && h'.isVectorized == h'.Get(HintIsVectorized);
  }

  /**
   * Without pragmas, rejections are always printed exactly when a vector width other than 1 is
   * forced from the command line; an explicit enable with a real width always prints them.
   */
  lemma PassNameOfHints(cfg: Config, interleaveOnlyWhenForced: bool, h: HintValues)
    ensures DefaultHints(cfg, interleaveOnlyWhenForced).VectorizeAnalysisPassName() == AlwaysPrint <==>
            cfg.vectorizationFactor > 1
    ensures ForceOf(h.force) == ForceEnabled && h.width != 1 ==> h.VectorizeAnalysisPassName() == AlwaysPrint
  {
  }

  /** What the constructor computes, before IsVectorized is derived. */
  function ReadHints(cfg: Config, loopID: Option<seq<MDOperand>>, interleaveOnlyWhenForced: bool): HintValues
  {
    var scanned := match loopID
      case None => DefaultHints(cfg, interleaveOnlyWhenForced)
      case Some(ops) => HintsFromOperands(DefaultHints(cfg, interleaveOnlyWhenForced), ops, cfg.maxVectorWidth);
    if cfg.interleaveForced then scanned.(interleave := cfg.vectorizationInterleave) else scanned
  }

  class LoopVectorizeHints {
    var width: nat
    var interleave: nat
    var force: nat
    var isVectorized: nat
    var potentiallyUnsafe: bool
    const maxVectorWidth: nat

    function Values(): HintValues
      reads this
    {
      HintValues(width, interleave, force, isVectorized)
    }

    function GetForce(): ForceKind
      reads this
    {
      ForceOf(force)
    }

    /**
     * Reads the hints from the loop ID, lets a forced interleave count win,
     * and derives IsVectorized from width and interleave unless it is already 1.
     */
    constructor (cfg: Config, loopID: Option<seq<MDOperand>>, interleaveOnlyWhenForced: bool)
      ensures maxVectorWidth == cfg.maxVectorWidth && !potentiallyUnsafe
      ensures var read := ReadHints(cfg, loopID, interleaveOnlyWhenForced);
              && width == read.width && interleave == read.interleave && force == read.force
              && isVectorized == (if read.isVectorized == 1 || (read.width == 1 && read.interleave == 1) then 1 else 0)
      ensures width == 1 && interleave == 1 ==> isVectorized == 1
      ensures isVectorized == 0 || isVectorized == 1
    {
      var defaults := DefaultHints(cfg, interleaveOnlyWhenForced);
      width := defaults.width;
      interleave := defaults.interleave;
      force := defaults.force;
      isVectorized := defaults.isVectorized;
      potentiallyUnsafe := false;
      maxVectorWidth := cfg.maxVectorWidth;
      new;
      GetHintsFromMetadata(loopID);
      if cfg.interleaveForced {
        interleave := cfg.vectorizationInterleave;
      }
      if isVectorized != 1 {
        isVectorized := if width == 1 && interleave == 1 then 1 else 0;
      }
      HintsFromOperandsValidated(defaults, if loopID.Some? then loopID.value else [], maxVectorWidth, HintIsVectorized);
    }

    /** `getHintsFromMetadata`: applies each hint node of the loop ID in order. */
    method GetHintsFromMetadata(loopID: Option<seq<MDOperand>>)
      modifies this`width, this`interleave, this`force, this`isVectorized
      ensures Values() == (if loopID.None? then old(Values()) else HintsFromOperands(old(Values()), loopID.value, maxVectorWidth))
    {
      if loopID.None? {
        return;
      }
      var ops := loopID.value;
      var i := 0;
      while i < |ops|
        invariant 0 <= i <= |ops|
        invariant Values() == HintsFromOperands(old(Values()), ops[..i], maxVectorWidth)
      {
        assert ops[..i + 1][..i] == ops[..i];
        match ops[i] {
          case MDNodeOp(Some(name), args) =>
            if |args| == 1 {
              SetHint(name, args[0]);
            }
          case _ =>
        }
        i := i + 1;
      }
      assert ops[..|ops|] == ops;
    }

    /** `setHint`: updates the one hint the name selects, when the value is valid. */
    method SetHint(name: string, arg: HintArg)
      modifies this`width, this`interleave, this`force, this`isVectorized
      ensures Values() == SetHintValues(old(Values()), name, arg, maxVectorWidth)
    {
      if !StartsWith(name, Prefix) {
        return;
      }
      var rest := name[|Prefix|..];
      if arg.NotConstInt? {
        return;
      }
      var val := Truncate32(arg.zext);
      var kinds := [HintWidth, HintUnroll, HintForce, HintIsVectorized];
      var i := 0;
      while i < |kinds|
        invariant 0 <= i <= |kinds|
        invariant forall j :: 0 <= j < i ==> HintName(kinds[j]) != rest
        invariant Values() == old(Values())
      {
        var k := kinds[i];
        if rest == HintName(k) {
          if Validate(k, val, maxVectorWidth) {
            match k
            case HintWidth => width := val;
            case HintUnroll => interleave := val;
            case HintForce => force := val;
            case HintIsVectorized => isVectorized := val;
          }
          return;
        }
        i := i + 1;
      }
      assert HintName(kinds[0]) != rest && HintName(kinds[1]) != rest;
      assert HintName(kinds[2]) != rest && HintName(kinds[3]) != rest;
    }

    /** `setAlreadyVectorized`: updates the cached flag (the metadata rewrite is not modelled). */
    method SetAlreadyVectorized()
      modifies this`isVectorized
      ensures Values() == MarkVectorized(old(Values()))
    {
      isVectorized := 1;
    }

    /** `setPotentiallyUnsafe`: a floating-point operation without fast-math was seen. */
    method SetPotentiallyUnsafe()
      modifies this`potentiallyUnsafe
      ensures potentiallyUnsafe
    {
      potentiallyUnsafe := true;
    }
  }
}
