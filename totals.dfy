/** The phase and the two piece-square totals.  `do_move` keeps them up to
    date piece by piece (`add`, `remove` and the phase edits); `calc` adds
    them up from scratch.  For a move the generator could hand to `do_move`,
    the totals it carries forward are the ones `calc` would compute on the
    new board. */
module Totals {
  import opened Bits
  import opened Consts
  import opened Moves
  import opened State
  import opened Views
  import Queries
  import RoundTrip

  /* ---------------- Totals over the twelve boards ---------------- */

  /** What one piece of a side on a square adds to a total. */
  type Weight = (Side, Piece, Square) -> int

  /** The phase weight: the piece type's `PHASE_VALS` entry. */
  function PhaseWeight(t: Tables): Weight
  {
    (side: Side, piece: Piece, sq: Square) => t.phaseVal(piece)
  }

  /** The midgame or endgame piece-square term. */
  function PstWeight(t: Tables, eg: bool): Weight
  {
    (side: Side, piece: Piece, sq: Square) => Queries.PstValue(t, side, piece, eg, sq)
  }

  /** `w` for one piece of one side, as a function of the square. */
  function Term(w: Weight, side: Side, piece: Piece): Square -> int
  {
    (sq: Square) => w(side, piece, sq)
  }

  /** Every square. */
  function Every(): Square -> bool
  {
    (sq: Square) => true
  }

  /** `w` summed over the squares below `k` of each board
      `pieces[piece] & sides[side]`, side by side and piece by piece in the
      order `calc` walks them. */
  function SidesTotal(pl: Placement, w: Weight, sides: nat, k: bv8): int
    requires Shaped(pl) && sides <= 2 && k <= 64
  {
    if sides == 0 then 0 else SidesTotal(pl, w, sides - 1, k) + PiecesTotal(pl, w, sides - 1, 6, k)
  }

  function PiecesTotal(pl: Placement, w: Weight, side: Side, pieces: nat, k: bv8): int
    requires Shaped(pl) && pieces <= 6 && k <= 64
  {
    if pieces == 0 then 0
    else PiecesTotal(pl, w, side, pieces - 1, k) + SumOver(Squares(pl.pieces[pieces - 1] & pl.sides[side]), Term(w, side, pieces - 1), k)
  }

  /** What square `j` adds to the total over all the boards. */
  function CellSides(pl: Placement, w: Weight, sides: nat, j: Square): int
    requires Shaped(pl) && sides <= 2
  {
    if sides == 0 then 0 else CellSides(pl, w, sides - 1, j) + CellPieces(pl, w, sides - 1, 6, j)
  }

  function CellPieces(pl: Placement, w: Weight, side: Side, pieces: nat, j: Square): int
    requires Shaped(pl) && pieces <= 6
  {
    if pieces == 0 then 0
    else CellPieces(pl, w, side, pieces - 1, j) + (if Has(pl.pieces[pieces - 1] & pl.sides[side], j) then w(side, pieces - 1, j) else 0)
  }

  function Cells(pl: Placement, w: Weight): Square -> int
    requires Shaped(pl)
  {
    (j: Square) => CellSides(pl, w, 2, j)
  }

  lemma {:induction false} PiecesTotalStep(pl: Placement, w: Weight, side: Side, n: nat, k: bv8)
    requires Shaped(pl) && n <= 6 && 0 < k <= 64
    ensures PiecesTotal(pl, w, side, n, k) == PiecesTotal(pl, w, side, n, k - 1) + CellPieces(pl, w, side, n, k - 1)
  {
    if n > 0 {
      PiecesTotalStep(pl, w, side, n - 1, k);
    }
  }

  lemma {:induction false} SidesTotalStep(pl: Placement, w: Weight, n: nat, k: bv8)
    requires Shaped(pl) && n <= 2 && 0 < k <= 64
    ensures SidesTotal(pl, w, n, k) == SidesTotal(pl, w, n, k - 1) + CellSides(pl, w, n, k - 1)
  {
    if n > 0 {
      SidesTotalStep(pl, w, n - 1, k);
      PiecesTotalStep(pl, w, n - 1, 6, k);
    }
  }

  lemma {:induction false} SidesTotalNone(pl: Placement, w: Weight, n: nat)
    requires Shaped(pl) && n <= 2
    ensures SidesTotal(pl, w, n, 0) == 0
  {
    if n > 0 {
      SidesTotalNone(pl, w, n - 1);
      PiecesTotalNone(pl, w, n - 1, 6);
    }
  }

  lemma {:induction false} PiecesTotalNone(pl: Placement, w: Weight, side: Side, n: nat)
    requires Shaped(pl) && n <= 6
    ensures PiecesTotal(pl, w, side, n, 0) == 0
  {
    if n > 0 {
      PiecesTotalNone(pl, w, side, n - 1);
    }
  }

  /** Adding the boards up one after the other is adding the squares up one
      after the other. */
  lemma {:induction false} TotalBySquares(pl: Placement, w: Weight, k: bv8)
    requires Shaped(pl) && k <= 64
    ensures SidesTotal(pl, w, 2, k) == SumOver(Every(), Cells(pl, w), k)
    decreases k as int
  {
    if k == 0 {
      SidesTotalNone(pl, w, 2);
    } else {
      TotalBySquares(pl, w, k - 1);
      SidesTotalStep(pl, w, 2, k);
    }
  }

  /* ---------------- Square by square ---------------- */

  /** What a square holding `code` for `side` adds: nothing when empty. */
  function Value(w: Weight, code: PieceCode, side: Side, sq: Square): int
  {
    if code == EMPTY then 0 else w(side, code, sq)
  }

  lemma CellPiecesUnfold(pl: Placement, w: Weight, side: Side, p: Piece, j: Square)
    requires Shaped(pl)
    ensures CellPieces(pl, w, side, p + 1, j) ==
            CellPieces(pl, w, side, p, j) + (if Has(pl.pieces[p] & pl.sides[side], j) then w(side, p, j) else 0)
  {
  }

  /** On a square that shows `code` for `owner`, exactly one board holds it. */
  lemma HitIs(pl: Placement, side: Side, p: Piece, j: Square, code: PieceCode, owner: Side)
    requires Shaped(pl) && Shows(pl, j, code, owner)
    ensures Has(pl.pieces[p] & pl.sides[side], j) == (p == code && side == owner)
  {
    HasAnd(pl.pieces[p], pl.sides[side], j);
    assert Has(pl.pieces[p], j) == (p == code);
    if side == owner {
      assert Has(pl.sides[side], j) == (code != EMPTY);
    } else {
      assert side == Other(owner);
      assert !Has(pl.sides[side], j);
    }
  }

  lemma {:induction false} CellPiecesShows(pl: Placement, w: Weight, side: Side, n: nat, j: Square, code: PieceCode, owner: Side)
    requires Shaped(pl) && n <= 6 && Shows(pl, j, code, owner)
    ensures CellPieces(pl, w, side, n, j) == if side == owner && code < n then Value(w, code, owner, j) else 0
  {
    if n > 0 {
      var p: Piece := n - 1;
      CellPiecesShows(pl, w, side, p, j, code, owner);
      CellPiecesUnfold(pl, w, side, p, j);
      HitIs(pl, side, p, j, code, owner);
    }
  }

  /** A square that shows `code` for `owner` adds that piece's weight, and
      only that. */
  lemma CellShows(pl: Placement, w: Weight, j: Square, code: PieceCode, owner: Side)
    requires Shaped(pl) && Shows(pl, j, code, owner)
    ensures Cells(pl, w)(j) == Value(w, code, owner, j)
  {
    CellPiecesShows(pl, w, 0, 6, j, code, owner);
    CellPiecesShows(pl, w, 1, 6, j, code, owner);
    assert CellSides(pl, w, 1, j) == CellPieces(pl, w, 0, 6, j);
    assert Cells(pl, w)(j) == CellSides(pl, w, 1, j) + CellPieces(pl, w, 1, 6, j);
  }

  /** Sums of functions that agree everywhere agree. */
  lemma {:induction false} SumOverSame(inSet: Square -> bool, f: Square -> int, g: Square -> int, k: bv8)
    requires k <= 64 && forall j: Square :: f(j) == g(j)
    ensures SumOver(inSet, f, k) == SumOver(inSet, g, k)
    decreases k as int
  {
    if k > 0 {
      SumOverSame(inSet, f, g, k - 1);
    }
  }

  /** Changing one term changes the sum by the difference. */
  lemma {:induction false} SumOverOne(f: Square -> int, g: Square -> int, a: Square, k: bv8)
    requires k <= 64 && forall j: Square :: j != a ==> f(j) == g(j)
    ensures SumOver(Every(), f, k) == SumOver(Every(), g, k) + (if a < k then f(a) - g(a) else 0)
    decreases k as int
  {
    if k > 0 {
      SumOverOne(f, g, a, k - 1);
    }
  }

  /** Changing two terms changes the sum by both differences. */
  lemma SumOverTwo(f: Square -> int, g: Square -> int, a: Square, b: Square, k: bv8)
    requires k <= 64 && a != b && forall j: Square :: j != a && j != b ==> f(j) == g(j)
    ensures SumOver(Every(), f, k) == SumOver(Every(), g, k) + (if a < k then f(a) - g(a) else 0) + (if b < k then f(b) - g(b) else 0)
  {
    var h := (j: Square) => if j == a then f(a) else g(j);
    SumOverOne(h, g, a, k);
    SumOverOne(f, h, b, k);
  }

  /* ---------------- The board as a mailbox ---------------- */

  /** The weight of each square, read from the cache and the side boards. */
  function BeforeTerm(pl: Placement, w: Weight): Square -> int
    requires Shaped(pl)
  {
    (j: Square) => Value(w, pl.squares[j], Owner(pl, j), j)
  }

  /** The weight of each square after the mover's edits. */
  function StartedTerm(pl: Placement, stm: Side, from: Square, to: Square, w: Weight): Square -> int
    requires Shaped(pl)
  {
    (j: Square) => Value(w, StartedAt(pl, stm, from, to, j).0, StartedAt(pl, stm, from, to, j).1, j)
  }

  /** The weight of each square after the whole move. */
  function AfterTerm(t: Tables, pl: Placement, stm: Side, m: bv16, d: Dispatch, w: Weight): Square -> int
    requires PseudoLegal(t, pl, stm, m, d)
  {
    (j: Square) => Value(w, After(t, pl, stm, m, d, j).0, After(t, pl, stm, m, d, j).1, j)
  }

  /** On a board in lockstep, the total over the boards is the total over
      the mailbox. */
  lemma TotalIsMailbox(pl: Placement, w: Weight)
    requires Lockstep(pl)
    ensures SidesTotal(pl, w, 2, 64) == SumOver(Every(), BeforeTerm(pl, w), 64)
  {
    TotalBySquares(pl, w, 64);
    forall j: Square
      ensures Cells(pl, w)(j) == BeforeTerm(pl, w)(j)
    {
      assert Agrees(pl, j);
      AgreesIsShows(pl, j);
      CellShows(pl, w, j, pl.squares[j], Owner(pl, j));
    }
    SumOverSame(Every(), Cells(pl, w), BeforeTerm(pl, w), 64);
  }

  /** After a move, the total over the boards is the total over the
      mailbox `After` describes. */
  lemma TotalAfterMove(t: Tables, pl: Placement, stm: Side, m: bv16, d: Dispatch, w: Weight)
    requires Lockstep(pl) && PseudoLegal(t, pl, stm, m, d)
    ensures SidesTotal(MovePlacement(t, pl, stm, m, d), w, 2, 64) == SumOver(Every(), AfterTerm(t, pl, stm, m, d, w), 64)
  {
    var r := MovePlacement(t, pl, stm, m, d);
    TotalBySquares(r, w, 64);
    forall j: Square
      ensures Cells(r, w)(j) == AfterTerm(t, pl, stm, m, d, w)(j)
    {
      MoveShows(t, pl, stm, m, d, j);
      CellShows(r, w, j, After(t, pl, stm, m, d, j).0, After(t, pl, stm, m, d, j).1);
    }
    SumOverSame(Every(), Cells(r, w), AfterTerm(t, pl, stm, m, d, w), 64);
  }

  /** A piece on a square of a board in lockstep belongs to the side whose
      board holds the square. */
  lemma OwnerIs(pl: Placement, sq: Square, side: Side)
    requires Shaped(pl) && Agrees(pl, sq) && pl.squares[sq] != EMPTY && Has(pl.sides[side], sq)
    ensures Owner(pl, sq) == side
  {
  }

  /** The mover's edits take its weight from `from` to `to` and the
      captured piece's weight off `to`. */
  lemma StartedSum(pl: Placement, stm: Side, from: Square, to: Square, w: Weight)
    requires Lockstep(pl) && pl.squares[from] != EMPTY && Has(pl.sides[stm], from)
    requires pl.squares[to] == EMPTY || Has(pl.sides[Other(stm)], to)
    ensures SumOver(Every(), StartedTerm(pl, stm, from, to, w), 64) ==
            SumOver(Every(), BeforeTerm(pl, w), 64) - w(stm, pl.squares[from], from) +
            w(stm, pl.squares[from], to) - Value(w, pl.squares[to], Other(stm), to)
  {
    assert Agrees(pl, from) && Agrees(pl, to);
    MoverApart(pl, stm, from, to);
    OwnerIs(pl, from, stm);
    if pl.squares[to] != EMPTY {
      OwnerIs(pl, to, Other(stm));
    }
    SumOverTwo(StartedTerm(pl, stm, from, to, w), BeforeTerm(pl, w), from, to, 64);
  }

  /** What the move kind's own edits add: the en-passant victim's weight
      leaves, the promoted piece's weight replaces the pawn's, or the rook's
      weight moves. */
  function SpecialDelta(t: Tables, stm: Side, m: bv16, d: Dispatch, moved: Piece, w: Weight): int
    requires KindOf(FlagOf(m), d) == EnPassant ==> EpPawnOnBoard(ToSq(m), Other(stm))
  {
    var to, flag := ToSq(m), FlagOf(m);
    match KindOf(flag, d)
    case EnPassant => -w(Other(stm), PAWN, EpPawnSq(to, Other(stm)))
    case Promotion => w(stm, PromoPiece(flag), to) - w(stm, moved, to)
    case Castle =>
      var c := t.castleMove(stm, flag == KS_CASTLE);
      w(stm, ROOK, c.rookTo) - w(stm, ROOK, c.rookFrom)
    case _ => 0
  }

  lemma EnPassantSum(t: Tables, pl: Placement, stm: Side, m: bv16, d: Dispatch, w: Weight)
    requires Lockstep(pl) && PseudoLegal(t, pl, stm, m, d) && KindOf(FlagOf(m), d) == EnPassant
    ensures SumOver(Every(), AfterTerm(t, pl, stm, m, d, w), 64) ==
            SumOver(Every(), StartedTerm(pl, stm, FromSq(m), ToSq(m), w), 64) + SpecialDelta(t, stm, m, d, pl.squares[FromSq(m)], w)
  {
    var from, to := FromSq(m), ToSq(m);
    var pwn: Square := EpPawnSq(to, Other(stm));
    assert Agrees(pl, from) && Agrees(pl, pwn);
    MoverApart(pl, stm, from, pwn);
    OwnerIs(pl, pwn, Other(stm));
    SumOverOne(AfterTerm(t, pl, stm, m, d, w), StartedTerm(pl, stm, from, to, w), pwn, 64);
  }

  lemma PromotionSum(t: Tables, pl: Placement, stm: Side, m: bv16, d: Dispatch, w: Weight)
    requires Lockstep(pl) && PseudoLegal(t, pl, stm, m, d) && KindOf(FlagOf(m), d) == Promotion
    ensures SumOver(Every(), AfterTerm(t, pl, stm, m, d, w), 64) ==
            SumOver(Every(), StartedTerm(pl, stm, FromSq(m), ToSq(m), w), 64) + SpecialDelta(t, stm, m, d, pl.squares[FromSq(m)], w)
  {
    var from, to := FromSq(m), ToSq(m);
    assert Agrees(pl, from) && Agrees(pl, to);
    MoverApart(pl, stm, from, to);
    SumOverOne(AfterTerm(t, pl, stm, m, d, w), StartedTerm(pl, stm, from, to, w), to, 64);
  }

  lemma CastleSum(t: Tables, pl: Placement, stm: Side, m: bv16, d: Dispatch, w: Weight)
    requires Lockstep(pl) && PseudoLegal(t, pl, stm, m, d) && KindOf(FlagOf(m), d) == Castle
    ensures SumOver(Every(), AfterTerm(t, pl, stm, m, d, w), 64) ==
            SumOver(Every(), StartedTerm(pl, stm, FromSq(m), ToSq(m), w), 64) + SpecialDelta(t, stm, m, d, pl.squares[FromSq(m)], w)
  {
    var from, to := FromSq(m), ToSq(m);
    var c := t.castleMove(stm, FlagOf(m) == KS_CASTLE);
    assert Agrees(pl, c.rookFrom);
    OwnerIs(pl, c.rookFrom, stm);
    SumOverTwo(AfterTerm(t, pl, stm, m, d, w), StartedTerm(pl, stm, from, to, w), c.rookFrom, c.rookTo, 64);
  }

  lemma PlainSum(t: Tables, pl: Placement, stm: Side, m: bv16, d: Dispatch, w: Weight)
    requires PseudoLegal(t, pl, stm, m, d)
    requires KindOf(FlagOf(m), d) == Plain || KindOf(FlagOf(m), d) == DoublePush
    ensures SumOver(Every(), AfterTerm(t, pl, stm, m, d, w), 64) ==
            SumOver(Every(), StartedTerm(pl, stm, FromSq(m), ToSq(m), w), 64) + SpecialDelta(t, stm, m, d, pl.squares[FromSq(m)], w)
  {
    SumOverSame(Every(), AfterTerm(t, pl, stm, m, d, w), StartedTerm(pl, stm, FromSq(m), ToSq(m), w), 64);
  }

  /** What a whole move adds to a total: the mover's weight moves from
      `from` to `to`, a captured piece's weight leaves `to`, and the move
      kind adds its own. */
  function MoveDelta(t: Tables, pl: Placement, stm: Side, m: bv16, d: Dispatch, w: Weight): int
    requires PseudoLegal(t, pl, stm, m, d)
  {
    var from, to := FromSq(m), ToSq(m);
    var moved: Piece := pl.squares[from];
    w(stm, moved, to) - w(stm, moved, from) - Value(w, pl.squares[to], Other(stm), to) + SpecialDelta(t, stm, m, d, moved, w)
  }

  /** On the boards, a move changes any total by `MoveDelta`. */
  lemma MoveSum(t: Tables, pl: Placement, stm: Side, m: bv16, d: Dispatch, w: Weight)
    requires Lockstep(pl) && PseudoLegal(t, pl, stm, m, d)
    ensures SidesTotal(MovePlacement(t, pl, stm, m, d), w, 2, 64) == SidesTotal(pl, w, 2, 64) + MoveDelta(t, pl, stm, m, d, w)
  {
    TotalIsMailbox(pl, w);
    TotalAfterMove(t, pl, stm, m, d, w);
    StartedSum(pl, stm, FromSq(m), ToSq(m), w);
    match KindOf(FlagOf(m), d)
    case EnPassant => EnPassantSum(t, pl, stm, m, d, w);
    case Promotion => PromotionSum(t, pl, stm, m, d, w);
    case Castle => CastleSum(t, pl, stm, m, d, w);
    case DoublePush => PlainSum(t, pl, stm, m, d, w);
    case Plain => PlainSum(t, pl, stm, m, d, w);
  }

  /* ---------------- What `calc` adds up ---------------- */

  lemma PstTermIsTerm(t: Tables, eg: bool, side: Side, piece: Piece)
    ensures forall j: Square :: Queries.PstTerm(t, side, piece, eg)(j) == Term(PstWeight(t, eg), side, piece)(j)
  {
  }

  lemma PiecesTotalUnfold(pl: Placement, w: Weight, side: Side, p: Piece)
    requires Shaped(pl)
    ensures PiecesTotal(pl, w, side, p + 1, 64) ==
            PiecesTotal(pl, w, side, p, 64) + SumOver(Squares(pl.pieces[p] & pl.sides[side]), Term(w, side, p), 64)
  {
  }

  /** One board's walk is its `PstWeight` sum. */
  lemma WalkIsTerm(t: Tables, pl: Placement, eg: bool, side: Side, piece: Piece)
    requires Shaped(pl)
    ensures Queries.PstWalk(t, side, piece, eg, pl.pieces[piece] & pl.sides[side]) ==
            SumOver(Squares(pl.pieces[piece] & pl.sides[side]), Term(PstWeight(t, eg), side, piece), 64)
  {
    Queries.ScoreIsSquareSum(t, pl, eg, side, piece);
    PstTermIsTerm(t, eg, side, piece);
    SumOverSame(Squares(pl.pieces[piece] & pl.sides[side]), Queries.PstTerm(t, side, piece, eg), Term(PstWeight(t, eg), side, piece), 64);
  }

  lemma {:induction false} ScorePiecesIsTotal(t: Tables, pl: Placement, eg: bool, side: Side, n: nat)
    requires Shaped(pl) && n <= 6
    ensures Queries.ScorePieces(t, pl, eg, side, n) == PiecesTotal(pl, PstWeight(t, eg), side, n, 64)
  {
    if n > 0 {
      var p: Piece := n - 1;
      ScorePiecesIsTotal(t, pl, eg, side, p);
      WalkIsTerm(t, pl, eg, side, p);
      Queries.ScoreStep(t, pl, eg, side, p);
      PiecesTotalUnfold(pl, PstWeight(t, eg), side, p);
    }
  }

  /** `calc`'s piece-square totals are the `PstWeight` totals. */
  lemma ScoreIsTotal(t: Tables, pl: Placement, eg: bool)
    requires Shaped(pl)
    ensures Queries.ScoreOf(t, pl, eg) == SidesTotal(pl, PstWeight(t, eg), 2, 64)
  {
    ScorePiecesIsTotal(t, pl, eg, 0, 6);
    ScorePiecesIsTotal(t, pl, eg, 1, 6);
    assert Queries.ScoreSides(t, pl, eg, 1) == Queries.ScorePieces(t, pl, eg, 0, 6);
    assert SidesTotal(pl, PstWeight(t, eg), 1, 64) == PiecesTotal(pl, PstWeight(t, eg), 0, 6, 64);
  }

  /** A count weighed by a constant is the sum of the constant. */
  lemma {:induction false} CountScaled(inSet: Square -> bool, c: int, k: bv8)
    requires k <= 64
    ensures c * SumOver(inSet, _ => 1, k) == SumOver(inSet, (j: Square) => c, k)
    decreases k as int
  {
    if k > 0 {
      CountScaled(inSet, c, k - 1);
    }
  }

  lemma PhaseTermIsTerm(t: Tables, side: Side, piece: Piece)
    ensures forall j: Square :: ((j: Square) => t.phaseVal(piece))(j) == Term(PhaseWeight(t), side, piece)(j)
  {
  }

  /** One board's weighed count is its `PhaseWeight` sum. */
  lemma CountIsTerm(t: Tables, pl: Placement, side: Side, piece: Piece)
    requires Shaped(pl)
    ensures t.phaseVal(piece) * Count(pl.pieces[piece] & pl.sides[side]) ==
            SumOver(Squares(pl.pieces[piece] & pl.sides[side]), Term(PhaseWeight(t), side, piece), 64)
  {
    var b := pl.pieces[piece] & pl.sides[side];
    CountScaled(Squares(b), t.phaseVal(piece), 64);
    PhaseTermIsTerm(t, side, piece);
    SumOverSame(Squares(b), (j: Square) => t.phaseVal(piece), Term(PhaseWeight(t), side, piece), 64);
  }

  lemma {:induction false} PhasePiecesIsTotal(t: Tables, pl: Placement, side: Side, n: nat)
    requires Shaped(pl) && n <= 6
    ensures Queries.PhasePieces(t, pl, side, n) == PiecesTotal(pl, PhaseWeight(t), side, n, 64)
  {
    if n > 0 {
      var p: Piece := n - 1;
      PhasePiecesIsTotal(t, pl, side, p);
      CountIsTerm(t, pl, side, p);
      Queries.PhaseStep(t, pl, side, p);
      PiecesTotalUnfold(pl, PhaseWeight(t), side, p);
    }
  }

  /** `calc`'s phase is the `PhaseWeight` total. */
  lemma PhaseIsTotal(t: Tables, pl: Placement)
    requires Shaped(pl)
    ensures Queries.PhaseOf(t, pl) == SidesTotal(pl, PhaseWeight(t), 2, 64)
  {
    PhasePiecesIsTotal(t, pl, 0, 6);
    PhasePiecesIsTotal(t, pl, 1, 6);
    assert Queries.PhaseSides(t, pl, 1) == Queries.PhasePieces(t, pl, 0, 6);
    assert SidesTotal(pl, PhaseWeight(t), 1, 64) == PiecesTotal(pl, PhaseWeight(t), 0, 6, 64);
  }

  /* ---------------- What `do_move` carries forward ---------------- */

  /** The midgame or endgame total a state carries. */
  function ScoreField(s: GameState, eg: bool): int
  {
    if eg then s.eg else s.mg
  }

  /** Lines 124-125: `remove` and `add` move the mover's terms. */
  lemma StartTotals(t: Tables, s: GameState, stm: Side, from: Square, to: Square, moved: Piece, eg: bool)
    ensures ScoreField(StateStart(t, s, stm, from, to, moved), eg) ==
            ScoreField(s, eg) + PstWeight(t, eg)(stm, moved, to) - PstWeight(t, eg)(stm, moved, from)
    ensures StateStart(t, s, stm, from, to, moved).phase == s.phase
  {
  }

  /** Lines 133-136: a captured piece's terms and phase weight leave. */
  lemma CaptureTotals(t: Tables, s: GameState, opp: Side, from: Square, to: Square, moved: Piece, captured: PieceCode, eg: bool)
    ensures ScoreField(StateCapture(t, s, opp, from, to, moved, captured), eg) ==
            ScoreField(s, eg) - Value(PstWeight(t, eg), captured, opp, to)
    ensures StateCapture(t, s, opp, from, to, moved, captured).phase == s.phase - Value(PhaseWeight(t), captured, opp, to)
  {
  }

  lemma EnPassantScore(t: Tables, s: GameState, to: Square, opp: Side, eg: bool)
    requires EpPawnOnBoard(to, opp)
    ensures ScoreField(StateEnPassant(t, s, to, opp), eg) == ScoreField(s, eg) - PstWeight(t, eg)(opp, PAWN, EpPawnSq(to, opp))
  {
  }

  lemma PromotionScore(t: Tables, s: GameState, to: Square, stm: Side, moved: Piece, ppc: Piece, eg: bool)
    ensures ScoreField(StatePromotion(t, s, to, stm, moved, ppc), eg) ==
            ScoreField(s, eg) + PstWeight(t, eg)(stm, ppc, to) - PstWeight(t, eg)(stm, moved, to)
  {
  }

  lemma CastleScore(t: Tables, s: GameState, c: CastleMove, stm: Side, eg: bool)
    ensures ScoreField(StateCastle(t, s, c, stm), eg) ==
            ScoreField(s, eg) + PstWeight(t, eg)(stm, ROOK, c.rookTo) - PstWeight(t, eg)(stm, ROOK, c.rookFrom)
  {
  }

  /** Lines 147-175: the move kind's own edits, on the totals ... */
  lemma SpecialScore(t: Tables, stm: Side, s: GameState, m: bv16, d: Dispatch, moved: Piece, eg: bool)
    requires KindOf(FlagOf(m), d) == EnPassant ==> EpPawnOnBoard(ToSq(m), Other(stm))
    ensures ScoreField(StateSpecial(t, s, stm, m, moved, d), eg) ==
            ScoreField(s, eg) + SpecialDelta(t, stm, m, d, moved, PstWeight(t, eg))
  {
    var to, flag := ToSq(m), FlagOf(m);
    match KindOf(flag, d)
    case EnPassant => EnPassantScore(t, s, to, Other(stm), eg);
    case Promotion => PromotionScore(t, s, to, stm, moved, PromoPiece(flag), eg);
    case Castle => CastleScore(t, s, t.castleMove(stm, flag == KS_CASTLE), stm, eg);
    case DoublePush =>
    case Plain =>
  }

  /** ... and on the phase, when a pawn weighs nothing and only a pawn
      promotes. */
  lemma SpecialPhase(t: Tables, stm: Side, s: GameState, m: bv16, d: Dispatch, moved: Piece)
    requires KindOf(FlagOf(m), d) == EnPassant ==> EpPawnOnBoard(ToSq(m), Other(stm))
    requires KindOf(FlagOf(m), d) == Promotion ==> moved == PAWN
    requires t.phaseVal(PAWN) == 0
    ensures StateSpecial(t, s, stm, m, moved, d).phase == s.phase + SpecialDelta(t, stm, m, d, moved, PhaseWeight(t))
  {
  }

  /** Lines 178-187 touch neither the phase nor the totals. */
  lemma FinishTotals(t: Tables, s: GameState, rights: bv8, moved: Piece, flag: bv16)
    ensures var r := StateFinish(t, s, rights, moved, flag);
            r.phase == s.phase && r.mg == s.mg && r.eg == s.eg
  {
  }

  /** `do_move` changes the totals it carries by `MoveDelta` ... */
  lemma StateScore(t: Tables, pl: Placement, stm: Side, s: GameState, m: bv16, d: Dispatch, eg: bool)
    requires PseudoLegal(t, pl, stm, m, d)
    ensures ScoreField(MoveGameState(t, stm, s, m, pl.squares[FromSq(m)], pl.squares[ToSq(m)], d), eg) ==
            ScoreField(s, eg) + MoveDelta(t, pl, stm, m, d, PstWeight(t, eg))
  {
    var from, to := FromSq(m), ToSq(m);
    var moved: Piece := pl.squares[from];
    var s1 := StateStart(t, s, stm, from, to, moved);
    var s2 := StateCapture(t, s1, Other(stm), from, to, moved, pl.squares[to]);
    var s3 := StateSpecial(t, s2, stm, m, moved, d);
    StartTotals(t, s, stm, from, to, moved, eg);
    CaptureTotals(t, s1, Other(stm), from, to, moved, pl.squares[to], eg);
    SpecialScore(t, stm, s2, m, d, moved, eg);
    FinishTotals(t, s3, s.castleRights, moved, FlagOf(m));
  }

  /** ... and its phase too, when a pawn weighs nothing. */
  lemma StatePhase(t: Tables, pl: Placement, stm: Side, s: GameState, m: bv16, d: Dispatch)
    requires PseudoLegal(t, pl, stm, m, d) && t.phaseVal(PAWN) == 0
    ensures MoveGameState(t, stm, s, m, pl.squares[FromSq(m)], pl.squares[ToSq(m)], d).phase ==
            s.phase + MoveDelta(t, pl, stm, m, d, PhaseWeight(t))
  {
    var from, to := FromSq(m), ToSq(m);
    var moved: Piece := pl.squares[from];
    var s1 := StateStart(t, s, stm, from, to, moved);
    var s2 := StateCapture(t, s1, Other(stm), from, to, moved, pl.squares[to]);
    var s3 := StateSpecial(t, s2, stm, m, moved, d);
    StartTotals(t, s, stm, from, to, moved, false);
    CaptureTotals(t, s1, Other(stm), from, to, moved, pl.squares[to], false);
    SpecialPhase(t, stm, s2, m, d, moved);
    FinishTotals(t, s3, s.castleRights, moved, FlagOf(m));
  }

  /* ---------------- Incremental equals from scratch ---------------- */

  /** The phase and totals a state carries are the ones `calc` computes on
      its board. */
  predicate TotalsMatch(t: Tables, pl: Placement, s: GameState)
    requires Shaped(pl)
  {
    s.phase == Queries.PhaseOf(t, pl) && s.mg == Queries.ScoreOf(t, pl, false) && s.eg == Queries.ScoreOf(t, pl, true)
  }

  /** `do_move`'s incremental phase stays equal to `calc`'s on the new
      board, provided a pawn weighs nothing in the phase (as in
      `PHASE_VALS`) ... */
  lemma MoveKeepsPhase(t: Tables, pl: Placement, stm: Side, s: GameState, m: bv16, d: Dispatch)
    requires Lockstep(pl) && PseudoLegal(t, pl, stm, m, d) && t.phaseVal(PAWN) == 0
    requires s.phase == Queries.PhaseOf(t, pl)
    ensures MoveGameState(t, stm, s, m, pl.squares[FromSq(m)], pl.squares[ToSq(m)], d).phase ==
            Queries.PhaseOf(t, MovePlacement(t, pl, stm, m, d))
  {
    PhaseIsTotal(t, pl);
    PhaseIsTotal(t, MovePlacement(t, pl, stm, m, d));
    MoveSum(t, pl, stm, m, d, PhaseWeight(t));
    StatePhase(t, pl, stm, s, m, d);
  }

  /** ... and so do its midgame and endgame piece-square totals. */
  lemma MoveKeepsScore(t: Tables, pl: Placement, stm: Side, s: GameState, m: bv16, d: Dispatch, eg: bool)
    requires Lockstep(pl) && PseudoLegal(t, pl, stm, m, d)
    requires ScoreField(s, eg) == Queries.ScoreOf(t, pl, eg)
    ensures ScoreField(MoveGameState(t, stm, s, m, pl.squares[FromSq(m)], pl.squares[ToSq(m)], d), eg) ==
            Queries.ScoreOf(t, MovePlacement(t, pl, stm, m, d), eg)
  {
    ScoreIsTotal(t, pl, eg);
    ScoreIsTotal(t, MovePlacement(t, pl, stm, m, d), eg);
    MoveSum(t, pl, stm, m, d, PstWeight(t, eg));
    StateScore(t, pl, stm, s, m, d, eg);
  }

  /** For either reading of the promotion test, a position whose phase and
      totals match `calc` keeps them matching through `do_move`, whether it
      keeps the move or takes an illegal one back.  (`undo_move` of a move
      it made restores the position exactly, `RoundTrip.UndoAfterApply`.) */
  lemma DoMoveKeepsTotals(t: Tables, b: Board, m: bv16, d: Dispatch)
    requires Lockstep(b.placement) && PseudoLegal(t, b.placement, b.sideToMove, m, d) && t.phaseVal(PAWN) == 0
    requires TotalsMatch(t, b.placement, b.state)
    ensures TotalsMatch(t, MakeMove(t, b, m, d).1.placement, MakeMove(t, b, m, d).1.state)
  {
    var pl, stm, s := b.placement, b.sideToMove, b.state;
    MoveKeepsPhase(t, pl, stm, s, m, d);
    MoveKeepsScore(t, pl, stm, s, m, d, false);
    MoveKeepsScore(t, pl, stm, s, m, d, true);
    RoundTrip.IllegalLeavesNothing(t, b, m, d);
  }
}
