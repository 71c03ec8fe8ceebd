/** Bitboard primitives.  A bitboard is a 64-bit mask whose bit `i` stands for
    board square `i` (0 = a1, 7 = h1, 63 = h8).  Squares are 8-bit values below
    64, the form in which the engine shifts by them.  The module also models
    the bit-walking helpers the engine relies on: `lsb!` (index of the lowest
    set bit, 64 for an empty mask), `pop!` (clear the lowest set bit) and
    `count_ones`. */
module Bits {

  /** A board square, 0 (a1) to 63 (h8). */
  type Square = x: bv8 | x < 64

  /** `bit!(sq)`: the mask holding only square `sq`. */
  function Bit(sq: Square): bv64
  {
    1 << sq
  }

  /** Whether square `sq` is set in mask `b`. */
  predicate Has(b: bv64, sq: Square)
  {
    (b >> sq) & 1 == 1
  }

  lemma HasBit(sq: Square, j: Square)
    ensures Has(Bit(sq), j) == (sq == j)
  {
  }

  lemma HasAnd(x: bv64, y: bv64, j: Square)
    ensures Has(x & y, j) == (Has(x, j) && Has(y, j))
  {
  }

  lemma HasOr(x: bv64, y: bv64, j: Square)
    ensures Has(x | y, j) == (Has(x, j) || Has(y, j))
  {
  }

  lemma HasXor(x: bv64, y: bv64, j: Square)
    ensures Has(x ^ y, j) == (Has(x, j) != Has(y, j))
  {
  }

  lemma HasZero(j: Square)
    ensures !Has(0, j)
  {
  }

  /** `Bit(r) - 1` holds exactly the squares below `r`. */
  lemma HasBelow(r: Square, j: Square)
    ensures Has(Bit(r) - 1, j) == (j < r)
  {
  }

  /* A mask with no square set is zero, one 16-square quarter at a time. */

  lemma NoSquaresQuarter0(x: bv64)
    requires forall j: Square :: !Has(x, j)
    ensures x & 0xFFFF == 0
  {
    assert !Has(x, 0) && !Has(x, 1) && !Has(x, 2) && !Has(x, 3) && !Has(x, 4) && !Has(x, 5) && !Has(x, 6) && !Has(x, 7);
    assert !Has(x, 8) && !Has(x, 9) && !Has(x, 10) && !Has(x, 11) && !Has(x, 12) && !Has(x, 13) && !Has(x, 14) && !Has(x, 15);
  }

  lemma NoSquaresQuarter1(x: bv64)
    requires forall j: Square :: !Has(x, j)
    ensures x & 0xFFFF_0000 == 0
  {
    assert !Has(x, 16) && !Has(x, 17) && !Has(x, 18) && !Has(x, 19) && !Has(x, 20) && !Has(x, 21) && !Has(x, 22) && !Has(x, 23);
    assert !Has(x, 24) && !Has(x, 25) && !Has(x, 26) && !Has(x, 27) && !Has(x, 28) && !Has(x, 29) && !Has(x, 30) && !Has(x, 31);
  }

  lemma NoSquaresQuarter2(x: bv64)
    requires forall j: Square :: !Has(x, j)
    ensures x & 0xFFFF_0000_0000 == 0
  {
    assert !Has(x, 32) && !Has(x, 33) && !Has(x, 34) && !Has(x, 35) && !Has(x, 36) && !Has(x, 37) && !Has(x, 38) && !Has(x, 39);
    assert !Has(x, 40) && !Has(x, 41) && !Has(x, 42) && !Has(x, 43) && !Has(x, 44) && !Has(x, 45) && !Has(x, 46) && !Has(x, 47);
  }

  lemma NoSquaresQuarter3(x: bv64)
    requires forall j: Square :: !Has(x, j)
    ensures x & 0xFFFF_0000_0000_0000 == 0
  {
    assert !Has(x, 48) && !Has(x, 49) && !Has(x, 50) && !Has(x, 51) && !Has(x, 52) && !Has(x, 53) && !Has(x, 54) && !Has(x, 55);
    assert !Has(x, 56) && !Has(x, 57) && !Has(x, 58) && !Has(x, 59) && !Has(x, 60) && !Has(x, 61) && !Has(x, 62) && !Has(x, 63);
  }

  /** A mask that holds no square is empty. */
  lemma NoSquares(x: bv64)
    requires forall j: Square :: !Has(x, j)
    ensures x == 0
  {
    NoSquaresQuarter0(x);
    NoSquaresQuarter1(x);
    NoSquaresQuarter2(x);
    NoSquaresQuarter3(x);
  }

  /** Bit extensionality: two masks holding the same squares are equal. */
  lemma SameSquares(x: bv64, y: bv64)
    requires forall j: Square :: Has(x, j) == Has(y, j)
    ensures x == y
  {
    var d := x ^ y;
    forall j: Square
      ensures !Has(d, j)
    {
      HasXor(x, y, j);
    }
    NoSquares(d);
  }

  /** `x & m == x` says exactly that every square of `x` is a square of `m`. */
  lemma {:induction false} WithinMask(x: bv64, m: bv64)
    ensures (x & m == x) == (forall j: Square :: Has(x, j) ==> Has(m, j))
  {
    if forall j: Square :: Has(x, j) ==> Has(m, j) {
      var y := x & m;
      forall j: Square
        ensures Has(y, j) == Has(x, j)
      {
        HasAnd(x, m, j);
      }
      SameSquares(y, x);
    } else {
      var j: Square :| Has(x, j) && !Has(m, j);
      HasAnd(x, m, j);
    }
  }

  /** The lowest set square of `b` at or above `i`, or 64 if there is none:
      the engine's `lsb!` (`trailing_zeros`) started from square `i`. */
  function LsbFrom(b: bv64, i: bv8): (r: bv8)
    requires i <= 64
    ensures i <= r <= 64
    decreases 64 - i
  {
    if i == 64 then 64 else if Has(b, i) then i else LsbFrom(b, i + 1)
  }

  /** A square the scan reports is set. */
  lemma {:induction false} LsbFromFound(b: bv64, i: bv8)
    requires i <= 64
    ensures LsbFrom(b, i) < 64 ==> Has(b, LsbFrom(b, i))
    decreases 64 - i
  {
    if i < 64 && !Has(b, i) {
      LsbFromFound(b, i + 1);
    }
  }

  /** The scan passes over clear squares only. */
  lemma {:induction false} LsbFromNone(b: bv64, i: bv8, j: Square)
    requires i <= j < LsbFrom(b, i)
    ensures !Has(b, j)
    decreases 64 - i
  {
    if j != i {
      var i' := i + 1;
      assert LsbFrom(b, i) == LsbFrom(b, i');
      LsbFromNone(b, i', j);
    }
  }

  /** `lsb!(b)`: the index of the lowest set bit, 64 for the empty mask. */
  function Lsb(b: bv64): bv8
  {
    LsbFrom(b, 0)
  }

  /** A non-empty mask has its lowest square below 64, set, with nothing below. */
  lemma LsbFound(b: bv64)
    requires b != 0
    ensures Lsb(b) < 64 && Has(b, Lsb(b))
    ensures forall j: Square :: j < Lsb(b) ==> !Has(b, j)
  {
    LsbFromFound(b, 0);
    if Lsb(b) == 64 {
      forall j: Square
        ensures !Has(b, j)
      {
        LsbFromNone(b, 0, j);
      }
      NoSquares(b);
    }
    forall j: Square | j < Lsb(b)
      ensures !Has(b, j)
    {
      LsbFromNone(b, 0, j);
    }
  }

  /** `pop!(b)`: clear the lowest set bit. */
  function Pop(b: bv64): bv64
  {
    b & (b - 1)
  }

  lemma ClearLowest(b: bv64, r: Square)
    requires b & (Bit(r) - 1) == 0
    requires b & Bit(r) != 0
    ensures b & (b - 1) == b ^ Bit(r)
  {
  }

  lemma HasIsAnd(b: bv64, r: Square)
    requires Has(b, r)
    ensures b & Bit(r) != 0
  {
  }

  /** A mask with nothing below `r` has no bit in `Bit(r) - 1`. */
  lemma LowClear(b: bv64, r: Square)
    requires forall j: Square :: j < r ==> !Has(b, j)
    ensures b & (Bit(r) - 1) == 0
  {
    var low := b & (Bit(r) - 1);
    forall j: Square
      ensures !Has(low, j)
    {
      HasAnd(b, Bit(r) - 1, j);
      HasBelow(r, j);
    }
    NoSquares(low);
  }

  /** Clearing the lowest set bit of `b`, at square `r`, is `pop!`. */
  lemma PopLowest(b: bv64, r: Square)
    requires Has(b, r)
    requires forall j: Square :: j < r ==> !Has(b, j)
    ensures Pop(b) == b ^ Bit(r)
  {
    LowClear(b, r);
    HasIsAnd(b, r);
    ClearLowest(b, r);
  }

  lemma PopIsLsbAt(b: bv64, r: Square)
    requires b != 0 && r == Lsb(b)
    ensures Pop(b) == b ^ Bit(r)
  {
    LsbFound(b);
    PopLowest(b, r);
  }

  /** `pop!` removes exactly the square `lsb!` reports. */
  lemma PopIsLsb(b: bv64)
    requires b != 0
    ensures Lsb(b) < 64
    ensures Pop(b) == b ^ Bit(Lsb(b))
  {
    LsbFound(b);
    PopIsLsbAt(b, Lsb(b));
  }

  /** Toggling square `r` flips exactly that square. */
  lemma HasXorBit(b: bv64, r: Square, j: Square)
    ensures Has(b ^ Bit(r), j) == (Has(b, j) != (j == r))
  {
    HasXor(b, Bit(r), j);
    HasBit(r, j);
  }

  /** The squares left after `pop!`: all of `b` but its lowest one. */
  lemma HasPop(b: bv64, j: Square)
    requires b != 0
    ensures Lsb(b) < 64
    ensures Has(Pop(b), j) == (Has(b, j) && j != Lsb(b))
  {
    LsbFound(b);
    PopIsLsb(b);
    HasXorBit(b, Lsb(b), j);
  }

  /** The squares of `b` as a predicate, for the square-by-square sums below. */
  function Squares(b: bv64): Square -> bool
  {
    (j: Square) => Has(b, j)
  }

  /** `f` summed over the squares below `k` that `inSet` selects. */
  function SumOver(inSet: Square -> bool, f: Square -> int, k: bv8): int
    requires k <= 64
    decreases k as int
  {
    if k == 0 then 0 else SumOver(inSet, f, k - 1) + (if inSet(k - 1) then f(k - 1) else 0)
  }

  /** `count_ones(b)`: the number of set squares. */
  function Count(b: bv64): int
  {
    SumOver(Squares(b), _ => 1, 64)
  }

  /** `f` summed over the set squares of `b`, lowest first, one `lsb!`/`pop!`
      step at a time: the shape of the engine's bit-walking loops. */
  function PopSum(b: bv64, f: Square -> int): int
    decreases b
  {
    if b == 0 then 0 else (PopIsLsb(b); f(Lsb(b)) + PopSum(Pop(b), f))
  }

  /** Taking one square out of a set takes exactly its term out of the sum. */
  lemma {:induction false} SumOverRemove(inSet: Square -> bool, rest: Square -> bool, r: Square, f: Square -> int, k: bv8)
    requires k <= 64 && inSet(r)
    requires forall j: Square :: rest(j) == (inSet(j) && j != r)
    ensures SumOver(inSet, f, k) == (if r < k then f(r) else 0) + SumOver(rest, f, k)
    decreases k as int
  {
    if k > 0 {
      SumOverRemove(inSet, rest, r, f, k - 1);
    }
  }

  /** The empty set sums to zero. */
  lemma {:induction false} SumOverNone(inSet: Square -> bool, f: Square -> int, k: bv8)
    requires k <= 64
    requires forall j: Square :: !inSet(j)
    ensures SumOver(inSet, f, k) == 0
    decreases k as int
  {
    if k > 0 {
      SumOverNone(inSet, f, k - 1);
    }
  }

  /** Walking the bits with `lsb!`/`pop!` visits every set square exactly once,
      so it adds up the same terms as the square-by-square sum. */
  lemma {:induction false} PopSumIsSquareSum(b: bv64, f: Square -> int)
    ensures PopSum(b, f) == SumOver(Squares(b), f, 64)
    decreases b
  {
    if b == 0 {
      forall j: Square
        ensures !Squares(b)(j)
      {
        HasZero(j);
      }
      SumOverNone(Squares(b), f, 64);
    } else {
      LsbFound(b);
      forall j: Square
        ensures Squares(Pop(b))(j) == (Squares(b)(j) && j != Lsb(b))
      {
        HasPop(b, j);
      }
      SumOverRemove(Squares(b), Squares(Pop(b)), Lsb(b), f, 64);
      PopSumIsSquareSum(Pop(b), f);
    }
  }
}
