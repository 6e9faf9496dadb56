/**
 * IR types, abstracted to what the legality analysis asks of them: integer,
 * pointer or floating-point, and a bit width.
 */
module IRTypes {

  datatype Type =
    | IntTy(bits: nat)
    | PtrTy
    | FloatTy(bits: nat)
    | VoidTy
    | OtherTy      // vector, aggregate, label, metadata, ... types

  /** `Type::getScalarSizeInBits`: zero for pointers and non-primitive types. */
  function ScalarSizeInBits(t: Type): nat
  {
    match t
    case IntTy(b) => b
    case FloatTy(b) => b
    case _ => 0
  }

  /** `VectorType::isValidElementType`: integer, floating-point and pointer types. */
  predicate IsValidElementType(t: Type)
  {
    t.IntTy? || t.FloatTy? || t.PtrTy?
  }

  /**
   * `convertPointerToIntegerType`: pointers become the pointer-sized integer
   * type; types narrower than 32 bits become i32 so that the trip count of a
   * loop over chars or shorts cannot overflow; wider types are kept.
   */
  function ConvertPointerToIntegerType(ptrBits: nat, t: Type): (r: Type)
    ensures t.PtrTy? ==> r == IntTy(ptrBits)
    ensures !r.PtrTy?
    ensures !t.PtrTy? ==> ScalarSizeInBits(r) >= 32
    ensures !t.PtrTy? && ScalarSizeInBits(t) >= 32 ==> r == t
    ensures r == t || r.IntTy?
  {
    if t.PtrTy? then IntTy(ptrBits)
    else if ScalarSizeInBits(t) < 32 then IntTy(32)
    else t
  }

  /** With a pointer size of at least 32 bits, no converted type is narrower than 32 bits. */
  lemma ConvertedIsAtLeast32(ptrBits: nat, t: Type)
    requires ptrBits >= 32
    ensures ScalarSizeInBits(ConvertPointerToIntegerType(ptrBits, t)) >= 32
  {
  }

  /**
   * `getWiderType`: the converted type of larger scalar size; on a tie the
   * converted second argument.
   */
  function GetWiderType(ptrBits: nat, t0: Type, t1: Type): (r: Type)
    ensures var c0, c1 := ConvertPointerToIntegerType(ptrBits, t0), ConvertPointerToIntegerType(ptrBits, t1);
            && (r == c0 || r == c1)
            && ScalarSizeInBits(r) >= ScalarSizeInBits(c0)
            && ScalarSizeInBits(r) >= ScalarSizeInBits(c1)
            && (ScalarSizeInBits(c0) == ScalarSizeInBits(c1) ==> r == c1)
  {
    var c0 := ConvertPointerToIntegerType(ptrBits, t0);
    var c1 := ConvertPointerToIntegerType(ptrBits, t1);
    if ScalarSizeInBits(c0) > ScalarSizeInBits(c1) then c0 else c1
  }

  /** Widening never loses width: the converted width of either side is bounded by the result. */
  lemma WiderTypeIsUpperBound(ptrBits: nat, t0: Type, t1: Type, t2: Type)
    ensures var w := GetWiderType(ptrBits, GetWiderType(ptrBits, t0, t1), t2);
            && ScalarSizeInBits(w) >= ScalarSizeInBits(ConvertPointerToIntegerType(ptrBits, t0))
            && ScalarSizeInBits(w) >= ScalarSizeInBits(ConvertPointerToIntegerType(ptrBits, t1))
            && ScalarSizeInBits(w) >= ScalarSizeInBits(ConvertPointerToIntegerType(ptrBits, t2))
  {
    var w01 := GetWiderType(ptrBits, t0, t1);
    assert ConvertPointerToIntegerType(ptrBits, w01) == w01 || ScalarSizeInBits(ConvertPointerToIntegerType(ptrBits, w01)) >= ScalarSizeInBits(w01);
  }
}
