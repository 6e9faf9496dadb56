/** Small value-level helpers shared by every module of the model. */
module Util {

  /** An optional value: the model's stand-in for a possibly-null pointer. */
  datatype Option<T> = None | Some(value: T)

  /** 2^32: the modulus of the source's 32-bit `unsigned`. */
  const Two32: nat := 0x1_0000_0000

  /** The value of a 64-bit zero-extended integer once it is cast to 32-bit `unsigned`. */
  function Truncate32(z: nat): (r: nat)
    ensures r < Two32
    ensures z < Two32 ==> r == z
  {
    z % Two32
  }

  function Pow2(k: nat): (r: nat)
    ensures r >= 1
  {
    if k == 0 then 1 else 2 * Pow2(k - 1)
  }

  /** `isPowerOf2_32`: the value is a (non-zero) power of two. */
  predicate IsPowerOfTwo(n: nat)
  {
    if n == 0 then false
    else if n == 1 then true
    else n % 2 == 0 && IsPowerOfTwo(n / 2)
  }

  lemma {:induction false} PowerOfTwoHasExponent(n: nat)
    requires IsPowerOfTwo(n)
    ensures exists k: nat :: Pow2(k) == n
  {
    if n == 1 {
      assert Pow2(0) == 1;
    } else {
      PowerOfTwoHasExponent(n / 2);
      var k: nat :| Pow2(k) == n / 2;
      assert Pow2(k + 1) == n;
    }
  }

  lemma {:induction false} Pow2IsPowerOfTwo(k: nat)
    ensures IsPowerOfTwo(Pow2(k))
  {
    if k > 0 {
      Pow2IsPowerOfTwo(k - 1);
      assert Pow2(k) / 2 == Pow2(k - 1);
    }
  }

  /** The recursive test agrees with the textbook definition "n is 2^k for some k". */
  lemma PowerOfTwoIff(n: nat)
    ensures IsPowerOfTwo(n) <==> exists k: nat :: Pow2(k) == n
  {
    if IsPowerOfTwo(n) {
      PowerOfTwoHasExponent(n);
    }
    if exists k: nat :: Pow2(k) == n {
      var k: nat :| Pow2(k) == n;
      Pow2IsPowerOfTwo(k);
    }
  }

  predicate StartsWith(s: string, prefix: string)
  {
    |prefix| <= |s| && s[..|prefix|] == prefix
  }

  /** Stripping a present prefix and comparing the rest is comparing the whole name. */
  lemma StripPrefix(s: string, prefix: string, rest: string)
    ensures (StartsWith(s, prefix) && s[|prefix|..] == rest) <==> s == prefix + rest
  {
    if s == prefix + rest {
      assert s[..|prefix|] == prefix;
      assert s[|prefix|..] == rest;
    }
    if StartsWith(s, prefix) && s[|prefix|..] == rest {
      assert s == s[..|prefix|] + s[|prefix|..];
    }
  }
}
