/** The read-only queries of a position: the three draw tests and `calc`, the
    from-scratch phase and piece-square totals.  The class in `Position` runs
    the loops of `is_draw_by_repetition` and `calc` and is proved to compute
    these functions. */
module Queries {
  import opened Bits
  import opened Consts
  import opened Moves
  import opened State
  import MoveRules

  /* ---------------- Repetition ---------------- */

  /** Where the repetition scan starts: `len - halfmove_clock` in `usize`
      arithmetic, so a clock beyond the history wraps to a huge value, which
      the `> 1024` clamp (like any start beyond 1024) turns into 0. */
  function ScanStart(len: nat, clock: nat): (from: nat)
    ensures from <= len
    ensures from == 0 || (clock <= len && from == len - clock)
  {
    if clock > len || len - clock > 1024 then 0 else len - clock
  }

  /** The number of history entries at `i, i - 2, i - 4, ...`, down to `from`,
      whose saved hash is `z`. */
  function MatchesDown(stack: seq<MoveState>, z: bv64, from: nat, i: int): (n: nat)
    requires i < |stack|
    ensures n <= if i < from then 0 else (i - from) / 2 + 1
    decreases i
  {
    if i < from then 0
    else (if stack[i].state.zobrist == z then 1 else 0) + MatchesDown(stack, z, from, i - 2)
  }

  /** `is_draw_by_repetition(num)`: false with fewer than six entries or inside
      a null-move search; otherwise true once the current position plus the
      matching earlier positions of the same side to move, within the
      half-move window, reach `num`.  The count is tested only after a match,
      so at least one earlier occurrence is always needed. */
  function DrawByRepetition(b: Board, num: nat): bool
  {
    var l := |b.stack|;
    if l < 6 || b.nulls > 0 then false
    else
      var k := MatchesDown(b.stack, b.state.zobrist, ScanStart(l, b.state.halfmoveClock), l - 2);
      k >= 1 && 1 + k >= num
  }

  /** An entry is counted iff it lies in the window, an even distance below
      `i`, and holds the hash. */
  predicate Earlier(stack: seq<MoveState>, z: bv64, from: nat, i: int, k: int)
  {
    from <= k <= i && (i - k) % 2 == 0 && 0 <= k < |stack| && stack[k].state.zobrist == z
  }

  /** The count is positive exactly when such an entry exists. */
  lemma {:induction false} MatchesDownPositive(stack: seq<MoveState>, z: bv64, from: nat, i: int)
    requires i < |stack|
    ensures MatchesDown(stack, z, from, i) > 0 <==> exists k :: Earlier(stack, z, from, i, k)
    decreases i
  {
    if i >= from {
      MatchesDownPositive(stack, z, from, i - 2);
      if stack[i].state.zobrist == z {
        assert Earlier(stack, z, from, i, i);
      } else {
        if exists k :: Earlier(stack, z, from, i, k) {
          var k :| Earlier(stack, z, from, i, k);
          assert Earlier(stack, z, from, i - 2, k);
        }
        var j := i - 2;
        if exists k :: Earlier(stack, z, from, j, k) {
          var k :| Earlier(stack, z, from, j, k);
          assert Earlier(stack, z, from, i, k);
        }
      }
    }
  }

  /** History entry `k` is one the repetition scan counts. */
  predicate Repeated(b: Board, k: int)
  {
    Earlier(b.stack, b.state.zobrist, ScanStart(|b.stack|, b.state.halfmoveClock), |b.stack| - 2, k)
  }

  /** For thresholds up to 2 (the search's two-fold test and the three-fold
      test on one repetition), a draw is exactly an earlier position with the
      same hash and side to move since the last pawn move or capture. */
  lemma RepetitionMeansEarlierOccurrence(b: Board, num: nat)
    requires num <= 2
    ensures DrawByRepetition(b, num) <==>
      |b.stack| >= 6 && b.nulls == 0 &&
      exists k :: Repeated(b, k)
  {
    if |b.stack| >= 6 {
      var from, i := ScanStart(|b.stack|, b.state.halfmoveClock), |b.stack| - 2;
      MatchesDownPositive(b.stack, b.state.zobrist, from, i);
      if exists k :: Earlier(b.stack, b.state.zobrist, from, i, k) {
        var k :| Earlier(b.stack, b.state.zobrist, from, i, k);
        assert Repeated(b, k);
      }
    }
  }

  /** The start index is the source's `usize` computation: `len - clock`
      taken modulo 2^64 (the history length fits a `usize`, the clock a
      `u8`), replaced by 0 when it exceeds 1024. */
  lemma ScanStartWraps(len: nat, clock: nat)
    requires len < 0x1_0000_0000_0000_0000 && clock < 256
    ensures var w := (len - clock) % 0x1_0000_0000_0000_0000;
            ScanStart(len, clock) == if w > 1024 then 0 else w
  {
    if clock > len {
      assert (len - clock) % 0x1_0000_0000_0000_0000 == len - clock + 0x1_0000_0000_0000_0000;
    } else {
      assert (len - clock) % 0x1_0000_0000_0000_0000 == len - clock;
    }
  }

  /** The history entries the scan counts, as a set. */
  ghost function Occurrences(stack: seq<MoveState>, z: bv64, from: nat, i: int): set<int>
  {
    set k | from <= k <= i && Earlier(stack, z, from, i, k)
  }

  /** Stepping the scan down by two splits off entry `i`. */
  lemma OccurrencesStep(stack: seq<MoveState>, z: bv64, from: nat, i: int)
    requires from <= i < |stack|
    ensures Occurrences(stack, z, from, i) ==
      Occurrences(stack, z, from, i - 2) + (if stack[i].state.zobrist == z then {i} else {})
    ensures i !in Occurrences(stack, z, from, i - 2)
  {
    var below := Occurrences(stack, z, from, i - 2);
    var here: set<int> := if stack[i].state.zobrist == z then {i} else {};
    forall k | k in Occurrences(stack, z, from, i)
      ensures k in below + here
    {
      if k != i {
        assert Earlier(stack, z, from, i - 2, k);
      }
    }
    forall k | k in below + here
      ensures k in Occurrences(stack, z, from, i)
    {
      if k != i {
        assert Earlier(stack, z, from, i, k);
      }
    }
  }

  /** The scan's count is the number of counted entries. */
  lemma {:induction false} MatchesDownCounts(stack: seq<MoveState>, z: bv64, from: nat, i: int)
    requires i < |stack|
    ensures MatchesDown(stack, z, from, i) == |Occurrences(stack, z, from, i)|
    decreases i
  {
    if i < from {
      assert Occurrences(stack, z, from, i) == {};
    } else {
      MatchesDownCounts(stack, z, from, i - 2);
      OccurrencesStep(stack, z, from, i);
    }
  }

  /** The entries of the history that repeat the current position. */
  ghost function Repetitions(b: Board): set<int>
  {
    set k | 0 <= k < |b.stack| && Repeated(b, k)
  }

  /** For every threshold: a draw is exactly at least one repetition, with the
      current position and its repetitions together reaching `num`, outside a
      null-move search and with at least six history entries. */
  lemma RepetitionThresholds(b: Board, num: nat)
    ensures DrawByRepetition(b, num) <==>
      |b.stack| >= 6 && b.nulls == 0 && |Repetitions(b)| >= 1 && 1 + |Repetitions(b)| >= num
  {
    if |b.stack| >= 6 {
      var from, i := ScanStart(|b.stack|, b.state.halfmoveClock), |b.stack| - 2;
      MatchesDownCounts(b.stack, b.state.zobrist, from, i);
      assert Repetitions(b) == Occurrences(b.stack, b.state.zobrist, from, i);
    }
  }

  /** A position just after a pawn move or capture (clock 0), with at most
      1024 history entries, can never be a repetition: the window is empty. */
  lemma NoRepetitionAfterReset(b: Board, num: nat)
    requires b.state.halfmoveClock == 0 && |b.stack| <= 1024
    ensures !DrawByRepetition(b, num)
  {
  }

  /** Past 1024 entries the clamp takes over: with the clock at 0 the scan
      starts from index 0, so every earlier position of the same side to move
      counts, not only those since the last pawn move or capture. */
  lemma LongHistoryScansAll(b: Board, k: int)
    requires b.state.halfmoveClock == 0 && |b.stack| > 1024
    ensures Repeated(b, k) <==>
      0 <= k <= |b.stack| - 2 && (|b.stack| - 2 - k) % 2 == 0 && b.stack[k].state.zobrist == b.state.zobrist
  {
  }

  /* ---------------- Fifty moves ---------------- */

  /** `is_draw_by_50`. */
  predicate DrawBy50(s: GameState)
  {
    s.halfmoveClock >= 100
  }

  /** A move reaches the fifty-move draw exactly when it is neither a pawn
      move nor a plain capture and the clock already stood at 99 or more. */
  lemma FiftyAfterMove(t: Tables, pl: Placement, stm: Side, s: GameState, m: bv16, d: Dispatch)
    requires Fits(t, pl, stm, m, d)
    ensures DrawBy50(MoveGameState(t, stm, s, m, pl.squares[FromSq(m)], pl.squares[ToSq(m)], d)) <==>
      pl.squares[FromSq(m)] != PAWN && FlagOf(m) != CAPTURE && s.halfmoveClock >= 99
  {
    MoveRules.HalfmoveRule(t, pl, stm, s, m, d);
  }

  /* ---------------- Insufficient material ---------------- */

  /** The two bishop-colour masks of line 288. */
  const LIGHT: bv64 := 0x55AA_55AA_55AA_55AA
  const DARK: bv64 := 0xAA55_AA55_AA55_AA55

  /** A square is light when its rank and file differ in parity (a1 is dark). */
  predicate LightSquare(sq: Square)
  {
    ((sq >> 3) + (sq & 7)) & 1 == 1
  }

  /** The masks are exactly the light and the dark squares. */
  lemma ColourMasks(sq: Square)
    ensures Has(LIGHT, sq) == LightSquare(sq)
    ensures Has(DARK, sq) == !LightSquare(sq)
  {
  }

  /** `b & m == b`: every square of `b` is in `m`. */
  predicate Within(b: bv64, m: bv64)
  {
    b & m == b
  }

  /** `is_draw_by_material`, line 283-293. */
  predicate DrawByMaterial(pl: Placement, s: GameState)
    requires Shaped(pl)
  {
    var bishops := pl.pieces[BISHOP];
    if pl.pieces[PAWN] == 0 && s.phase <= 2 then
      if s.phase == 2 then
        !Within(bishops, pl.sides[0]) && !Within(bishops, pl.sides[1]) &&
        (Within(bishops, LIGHT) || Within(bishops, DARK))
      else true
    else false
  }

  /** A board lies inside a mask unless one of its squares is outside it. */
  lemma Escapes(b: bv64, m: bv64)
    ensures !Within(b, m) == exists j: Square :: Has(b, j) && !Has(m, j)
  {
    WithinMask(b, m);
  }

  /** Being inside a mask is having every square satisfy what the mask's
      squares satisfy. */
  lemma WithinPred(b: bv64, m: bv64, p: Square -> bool)
    requires forall j: Square :: Has(m, j) == p(j)
    ensures Within(b, m) == forall j: Square :: Has(b, j) ==> p(j)
  {
    WithinMask(b, m);
  }

  lemma LightSquares()
    ensures forall j: Square :: Has(LIGHT, j) == LightSquare(j)
  {
    forall j: Square {
      ColourMasks(j);
    }
  }

  lemma DarkSquares()
    ensures forall j: Square :: Has(DARK, j) == !LightSquare(j)
  {
    forall j: Square {
      ColourMasks(j);
    }
  }

  /** A board lies inside the light mask iff all its squares are light, and
      inside the dark mask iff all are dark. */
  lemma AllOneColour(b: bv64)
    ensures Within(b, LIGHT) == forall j: Square :: Has(b, j) ==> LightSquare(j)
    ensures Within(b, DARK) == forall j: Square :: Has(b, j) ==> !LightSquare(j)
  {
    LightSquares();
    WithinPred(b, LIGHT, LightSquare);
    DarkSquares();
    WithinPred(b, DARK, (j: Square) => !LightSquare(j));
  }

  /** What the test decides: no draw with a pawn or more than two phase points;
      a draw with no pawn and fewer; and at exactly two, a draw only when
      neither side owns every bishop and all bishops stand on squares of one
      colour. */
  lemma DrawByMaterialMeaning(pl: Placement, s: GameState)
    requires Shaped(pl)
    ensures pl.pieces[PAWN] != 0 || s.phase > 2 ==> !DrawByMaterial(pl, s)
    ensures pl.pieces[PAWN] == 0 && s.phase < 2 ==> DrawByMaterial(pl, s)
    ensures pl.pieces[PAWN] == 0 && s.phase == 2 ==>
      (DrawByMaterial(pl, s) <==>
        (exists j: Square :: Has(pl.pieces[BISHOP], j) && !Has(pl.sides[0], j)) &&
        (exists j: Square :: Has(pl.pieces[BISHOP], j) && !Has(pl.sides[1], j)) &&
        ((forall j: Square :: Has(pl.pieces[BISHOP], j) ==> LightSquare(j)) ||
         (forall j: Square :: Has(pl.pieces[BISHOP], j) ==> !LightSquare(j))))
  {
    var bishops := pl.pieces[BISHOP];
    Escapes(bishops, pl.sides[0]);
    Escapes(bishops, pl.sides[1]);
    AllOneColour(bishops);
  }

  /* ---------------- calc ---------------- */

  /** The phase `calc` adds up: each piece type's weight times its count. */
  function PhaseOf(t: Tables, pl: Placement): int
    requires Shaped(pl)
  {
    PhaseSides(t, pl, 2)
  }

  function PhaseSides(t: Tables, pl: Placement, sides: nat): int
    requires Shaped(pl) && sides <= 2
  {
    if sides == 0 then 0 else PhaseSides(t, pl, sides - 1) + PhasePieces(t, pl, sides - 1, 6)
  }

  function PhasePieces(t: Tables, pl: Placement, side: Side, pieces: nat): int
    requires Shaped(pl) && pieces <= 6
  {
    if pieces == 0 then 0
    else PhasePieces(t, pl, side, pieces - 1) + t.phaseVal(pieces - 1) * Count(pl.pieces[pieces - 1] & pl.sides[side])
  }

  /** One more piece type adds its weighted count ... */
  lemma PhaseStep(t: Tables, pl: Placement, side: Side, j: Piece)
    requires Shaped(pl)
    ensures PhasePieces(t, pl, side, j + 1) ==
      PhasePieces(t, pl, side, j) + t.phaseVal(j) * Count(pl.pieces[j] & pl.sides[side])
  {
  }

  /** ... and its walk. */
  lemma ScoreStep(t: Tables, pl: Placement, eg: bool, side: Side, j: Piece)
    requires Shaped(pl)
    ensures ScorePieces(t, pl, eg, side, j + 1) ==
      ScorePieces(t, pl, eg, side, j) + PstWalk(t, side, j, eg, pl.pieces[j] & pl.sides[side])
  {
  }

  /** The piece-square term of one piece of `side` on `sq`, midgame or
      endgame: the side's sign times the table entry, white reading the
      table mirrored. */
  function PstValue(t: Tables, side: Side, piece: Piece, eg: bool, sq: Square): int
  {
    t.sideFactor(side) * (if eg then t.pstEg(piece, Mirror(sq, side)) else t.pstMg(piece, Mirror(sq, side)))
  }

  function PstTerm(t: Tables, side: Side, piece: Piece, eg: bool): Square -> int
  {
    (sq: Square) => PstValue(t, side, piece, eg, sq)
  }

  /** `calc`'s innermost loop: the terms of the pieces of `b`, lowest bit
      first. */
  function PstWalk(t: Tables, side: Side, piece: Piece, eg: bool, b: bv64): int
    decreases b
  {
    if b == 0 then 0 else (PopIsLsb(b); PstValue(t, side, piece, eg, Lsb(b)) + PstWalk(t, side, piece, eg, Pop(b)))
  }

  /** The walk is the generic lowest-bit-first sum of the term. */
  lemma {:induction false} PstWalkIsPopSum(t: Tables, side: Side, piece: Piece, eg: bool, b: bv64)
    ensures PstWalk(t, side, piece, eg, b) == PopSum(b, PstTerm(t, side, piece, eg))
    decreases b
  {
    if b != 0 {
      PopIsLsb(b);
      PstWalkIsPopSum(t, side, piece, eg, Pop(b));
    }
  }

  /** The piece-square total `calc` adds up, walking each board lowest bit
      first. */
  function ScoreOf(t: Tables, pl: Placement, eg: bool): int
    requires Shaped(pl)
  {
    ScoreSides(t, pl, eg, 2)
  }

  function ScoreSides(t: Tables, pl: Placement, eg: bool, sides: nat): int
    requires Shaped(pl) && sides <= 2
  {
    if sides == 0 then 0 else ScoreSides(t, pl, eg, sides - 1) + ScorePieces(t, pl, eg, sides - 1, 6)
  }

  function ScorePieces(t: Tables, pl: Placement, eg: bool, side: Side, pieces: nat): int
    requires Shaped(pl) && pieces <= 6
  {
    if pieces == 0 then 0
    else ScorePieces(t, pl, eg, side, pieces - 1) + PstWalk(t, side, pieces - 1, eg, pl.pieces[pieces - 1] & pl.sides[side])
  }

  /** Each board's walk visits every piece once: its term is the sum over the
      squares the piece occupies. */
  lemma ScoreIsSquareSum(t: Tables, pl: Placement, eg: bool, side: Side, piece: Piece)
    requires Shaped(pl)
    ensures PstWalk(t, side, piece, eg, pl.pieces[piece] & pl.sides[side]) ==
            SumOver(Squares(pl.pieces[piece] & pl.sides[side]), PstTerm(t, side, piece, eg), 64)
  {
    PstWalkIsPopSum(t, side, piece, eg, pl.pieces[piece] & pl.sides[side]);
    PopSumIsSquareSum(pl.pieces[piece] & pl.sides[side], PstTerm(t, side, piece, eg));
  }
}
