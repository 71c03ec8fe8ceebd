/** The XOR algebra the make/unmake round trip rests on.  Every bitboard and
    hash update of the engine is an exclusive or; XOR is named here so that its
    two facts (a mask applied twice cancels, two masks commute) can be stated
    about it and used term by term. */
module Xors {

  /** Bitwise exclusive or: `^=` on a bitboard or a hash. */
  function Xor(x: bv64, m: bv64): bv64
  {
    x ^ m
  }

  /** Two applications are one application of the combined mask. */
  lemma XorFlat(x: bv64, m: bv64, n: bv64)
    ensures Xor(Xor(x, m), n) == x ^ m ^ n
  {
  }

  /** The same mask twice cancels. */
  lemma XorTwice(x: bv64, m: bv64)
    ensures Xor(Xor(x, m), m) == x
  {
    XorFlat(x, m, m);
  }

  /** Two masks can be applied in either order. */
  lemma XorSwap(x: bv64, m: bv64, n: bv64)
    ensures Xor(Xor(x, m), n) == Xor(Xor(x, n), m)
  {
    XorFlat(x, m, n);
    XorFlat(x, n, m);
  }

  lemma XorFlatRight(x: bv64, m: bv64, n: bv64)
    ensures Xor(x, Xor(m, n)) == x ^ (m ^ n)
  {
  }

  /** Associativity of the raw operator, kept apart from `Xor`: on plain
      bit-vector terms the solver settles it at once. */
  lemma RawAssoc(x: bv64, m: bv64, n: bv64)
    ensures x ^ m ^ n == x ^ (m ^ n)
  {
  }

  /** Masks can be combined before they are applied. */
  lemma XorAssoc(x: bv64, m: bv64, n: bv64)
    ensures Xor(Xor(x, m), n) == Xor(x, Xor(m, n))
  {
    XorFlat(x, m, n);
    XorFlatRight(x, m, n);
    RawAssoc(x, m, n);
  }

  /** The empty mask changes nothing. */
  lemma XorZero(x: bv64)
    ensures Xor(x, 0) == x
  {
  }

  /** XOR a mask into entry `i` of a list of bitboards (`pieces[i] ^= m`). */
  function Flip(s: seq<bv64>, i: int, m: bv64): (r: seq<bv64>)
    requires 0 <= i < |s|
    ensures |r| == |s|
  {
    s[i := Xor(s[i], m)]
  }

  /** Flipping the same entry with the same mask twice is the identity. */
  lemma FlipTwice(s: seq<bv64>, i: int, m: bv64)
    requires 0 <= i < |s|
    ensures Flip(Flip(s, i, m), i, m) == s
  {
    XorTwice(s[i], m);
  }

  /** Two flips of one entry commute. */
  lemma FlipSwapSame(s: seq<bv64>, i: int, m: bv64, n: bv64)
    requires 0 <= i < |s|
    ensures Flip(Flip(s, i, m), i, n) == Flip(Flip(s, i, n), i, m)
  {
    XorSwap(s[i], m, n);
  }

  /** Flips of two different entries commute. */
  lemma FlipSwapApart(s: seq<bv64>, i: int, m: bv64, j: int, n: bv64)
    requires 0 <= i < |s| && 0 <= j < |s| && i != j
    ensures Flip(Flip(s, i, m), j, n) == Flip(Flip(s, j, n), i, m)
  {
  }

  /** Two flips commute. */
  lemma FlipSwap(s: seq<bv64>, i: int, m: bv64, j: int, n: bv64)
    requires 0 <= i < |s| && 0 <= j < |s|
    ensures Flip(Flip(s, i, m), j, n) == Flip(Flip(s, j, n), i, m)
  {
    if i == j {
      FlipSwapSame(s, i, m, n);
    } else {
      FlipSwapApart(s, i, m, j, n);
    }
  }

  /* Applying the same flips twice, in the same order, is the identity: the
     shape of `do_move` followed by `undo_move`, which repeat their bitboard
     edits in the same order. */

  lemma Cancel2(s: seq<bv64>, i: int, m: bv64, j: int, n: bv64)
    requires 0 <= i < |s| && 0 <= j < |s|
    ensures Flip(Flip(Flip(Flip(s, i, m), j, n), i, m), j, n) == s
  {
    var s1 := Flip(s, i, m);
    FlipSwap(s1, j, n, i, m);
    FlipTwice(s, i, m);
    FlipTwice(s, j, n);
  }

  lemma Cancel3(s: seq<bv64>, i: int, m: bv64, j: int, n: bv64, k: int, p: bv64)
    requires 0 <= i < |s| && 0 <= j < |s| && 0 <= k < |s|
    ensures Flip(Flip(Flip(Flip(Flip(Flip(s, i, m), j, n), k, p), i, m), j, n), k, p) == s
  {
    var s1 := Flip(s, i, m);
    var s2 := Flip(s1, j, n);
    FlipSwap(s2, k, p, i, m);
    FlipSwap(s1, j, n, i, m);
    FlipTwice(s, i, m);
    Cancel2(s, j, n, k, p);
  }

  lemma Cancel4(s: seq<bv64>, i: int, m: bv64, j: int, n: bv64, k: int, p: bv64, l: int, q: bv64)
    requires 0 <= i < |s| && 0 <= j < |s| && 0 <= k < |s| && 0 <= l < |s|
    ensures Flip(Flip(Flip(Flip(Flip(Flip(Flip(Flip(s, i, m), j, n), k, p), l, q), i, m), j, n), k, p), l, q) == s
  {
    var s1 := Flip(s, i, m);
    var s2 := Flip(s1, j, n);
    var s3 := Flip(s2, k, p);
    FlipSwap(s3, l, q, i, m);
    FlipSwap(s2, k, p, i, m);
    FlipSwap(s1, j, n, i, m);
    FlipTwice(s, i, m);
    Cancel3(s, j, n, k, p, l, q);
  }
}
