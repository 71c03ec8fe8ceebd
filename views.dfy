/** The three board views through `do_move` and `undo_move`.  For a move the
    generator could hand to `do_move`, the piece boards, the side boards and
    the square cache that agreed before the move agree after it, and each
    square holds exactly what the move's description says it holds. */
module Views {
  import opened Bits
  import opened Xors
  import opened Consts
  import opened Moves
  import opened State
  import RoundTrip

  /** What the move generator guarantees of a move it hands to `do_move`:
      the mover's own piece on `from`; an empty or enemy-held `to`; for en
      passant an empty `to` and an enemy pawn on the square behind it; for a
      promotion a pawn moving; for a castle the mover's rook on its start
      square, an empty square for it to land on and the rook mask covering
      exactly those two squares. */
  predicate PseudoLegal(t: Tables, pl: Placement, stm: Side, m: bv16, d: Dispatch)
  {
    Fits(t, pl, stm, m, d) &&
    var from, to := FromSq(m), ToSq(m);
    Has(pl.sides[stm], from) &&
    (pl.squares[to] == EMPTY || Has(pl.sides[Other(stm)], to)) &&
    match KindOf(FlagOf(m), d)
    case EnPassant =>
      pl.squares[to] == EMPTY && Has(pl.sides[Other(stm)], EpPawnSq(to, Other(stm)))
    case Promotion => pl.squares[from] == PAWN
    case Castle =>
      var c := t.castleMove(stm, FlagOf(m) == KS_CASTLE);
      pl.squares[c.rookFrom] == ROOK && Has(pl.sides[stm], c.rookFrom) &&
      pl.squares[c.rookTo] == EMPTY && c.mask == Bit(c.rookFrom) | Bit(c.rookTo)
    case _ => true
  }

  /** The board after the mover's and the capture's edits, lines 123-136. */
  ghost function Started(pl: Placement, stm: Side, from: Square, to: Square): (r: Placement)
    requires Shaped(pl) && pl.squares[from] != EMPTY
    ensures Shaped(r)
  {
    PlaceCapture(PlaceStart(pl, stm, from, to, pl.squares[from]), Other(stm), to, pl.squares[to])
  }

  /** A square after the mover's edits, as a code and its owner: `from`
      empties, `to` receives the mover, every other square keeps its piece
      and its owner. */
  function StartedAt(pl: Placement, stm: Side, from: Square, to: Square, j: Square): (PieceCode, Side)
    requires Shaped(pl)
  {
    if j == from then (EMPTY, stm)
    else if j == to then (pl.squares[from], stm)
    else (pl.squares[j], Owner(pl, j))
  }

  /** The board after a move as a mailbox, square by square: the mover's
      edits, then the move kind's own: the en-passant victim's square
      empties, the promoted piece replaces the pawn, or the castling rook
      changes squares. */
  function After(t: Tables, pl: Placement, stm: Side, m: bv16, d: Dispatch, j: Square): (PieceCode, Side)
    requires PseudoLegal(t, pl, stm, m, d)
  {
    var from, to, flag := FromSq(m), ToSq(m), FlagOf(m);
    var base := StartedAt(pl, stm, from, to, j);
    match KindOf(flag, d)
    case EnPassant => if j == EpPawnSq(to, Other(stm)) then (EMPTY, Other(stm)) else base
    case Promotion => if j == to then (PromoPiece(flag), stm) else base
    case Castle =>
      var c := t.castleMove(stm, flag == KS_CASTLE);
      if j == c.rookFrom then (EMPTY, stm) else if j == c.rookTo then (ROOK, stm) else base
    case _ => base
  }

  /* ---------------- One edit at one square ---------------- */

  /** XOR at one square: the bit flips when the mask holds the square. */
  lemma HasXorAt(x: bv64, m: bv64, j: Square)
    ensures Has(Xor(x, m), j) == (Has(x, j) != Has(m, j))
  {
    HasXor(x, m, j);
  }

  /** The flipped entry of a list of bitboards, at square `j` ... */
  lemma FlipAtSame(s: seq<bv64>, i: int, m: bv64, j: Square)
    requires 0 <= i < |s|
    ensures Has(Flip(s, i, m)[i], j) == (Has(s[i], j) != Has(m, j))
  {
    var x := s[i];
    var y := Flip(s, i, m)[i];
    assert y == Xor(x, m);
    HasXorAt(x, m, j);
  }

  /** ... and any entry of it. */
  lemma FlipAt(s: seq<bv64>, i: int, m: bv64, k: int, j: Square)
    requires 0 <= i < |s| && 0 <= k < |s|
    ensures Has(Flip(s, i, m)[k], j) == (Has(s[k], j) != (k == i && Has(m, j)))
  {
    if k == i {
      FlipAtSame(s, i, m, j);
    } else {
      assert Flip(s, i, m)[k] == s[k];
    }
  }

  /** `toggle` at square `j`: the bit of `j` flips in one piece board and one
      side board when the mask holds `j`. */
  lemma ToggleAt(pl: Placement, side: Side, piece: Piece, mask: bv64, j: Square)
    requires Shaped(pl)
    ensures Toggle(pl, side, piece, mask).squares[j] == pl.squares[j]
    ensures forall q: Piece :: Has(Toggle(pl, side, piece, mask).pieces[q], j) ==
              (Has(pl.pieces[q], j) != (q == piece && Has(mask, j)))
    ensures forall s: Side :: Has(Toggle(pl, side, piece, mask).sides[s], j) ==
              (Has(pl.sides[s], j) != (s == side && Has(mask, j)))
  {    InRange(j);

    forall q: Piece
      ensures Has(Flip(pl.pieces, piece, mask)[q], j) == (Has(pl.pieces[q], j) != (q == piece && Has(mask, j)))
    {
      FlipAt(pl.pieces, piece, mask, q, j);
    }
    forall s: Side
      ensures Has(Flip(pl.sides, side, mask)[s], j) == (Has(pl.sides[s], j) != (s == side && Has(mask, j)))
    {
      FlipAt(pl.sides, side, mask, s, j);
    }
  }

  /** `pieces[piece] ^= mask` at square `j`: the bit of `j` flips in one
      piece board when the mask holds `j`... */
  lemma FlipPieceAt(pl: Placement, piece: Piece, mask: bv64, j: Square)
    requires Shaped(pl)
    ensures forall q: Piece :: Has(FlipPiece(pl, piece, mask).pieces[q], j) ==
              (Has(pl.pieces[q], j) != (q == piece && Has(mask, j)))
  {
    forall q: Piece
      ensures Has(Flip(pl.pieces, piece, mask)[q], j) == (Has(pl.pieces[q], j) != (q == piece && Has(mask, j)))
    {
      FlipAt(pl.pieces, piece, mask, q, j);
    }
  }

  /** ... and the side boards and the square cache stay. */
  lemma FlipPieceRest(pl: Placement, piece: Piece, mask: bv64, j: Square)
    requires Shaped(pl)
    ensures FlipPiece(pl, piece, mask).squares[j] == pl.squares[j]
    ensures FlipPiece(pl, piece, mask).sides == pl.sides
  {
  }

  /** A square's number is a list index. */
  lemma InRange(a: Square)
    ensures 0 <= a as int < 64
  {
  }

  /** Two squares are the same exactly when their numbers are. */
  lemma SameSquare(a: Square, b: Square)
    ensures (a as int == b as int) == (a == b)
  {
  }

  /** Reading a list after one entry is replaced. */
  lemma UpdateRead(s: seq<PieceCode>, i: int, x: PieceCode, k: int)
    requires 0 <= i < |s| && 0 <= k < |s|
    ensures s[i := x][k] == if k == i then x else s[k]
  {
  }

  /** `squares[sq] = pc` read at square `j`... */
  lemma PlaceAt(pl: Placement, sq: Square, pc: PieceCode, j: Square)
    requires Shaped(pl)
    ensures Place(pl, sq, pc).squares[j] == if j == sq then pc else pl.squares[j]
  {
    PlaceRead(pl.squares, sq, pc, j);
  }

  /** Reading a list of squares after one square is written. */
  lemma PlaceRead(s: seq<PieceCode>, sq: Square, pc: PieceCode, j: Square)
    requires |s| == 64
    ensures s[sq := pc][j] == if j == sq then pc else s[j]
  {
    InRange(sq); InRange(j);
    SameSquare(j, sq);
    UpdateRead(s, sq as int, pc, j as int);
  }

  /** ... and the bitboards stay. */
  lemma PlaceRest(pl: Placement, sq: Square, pc: PieceCode)
    requires Shaped(pl)
    ensures Place(pl, sq, pc).pieces == pl.pieces && Place(pl, sq, pc).sides == pl.sides
  {
  }

  lemma SwapAt(pl: Placement, a: Square, b: Square, j: Square)
    requires Shaped(pl)
    ensures Swap(pl, a, b).squares[j] ==
              if j == b then pl.squares[a] else if j == a then pl.squares[b] else pl.squares[j]
  {
    SwapRead(pl.squares, a, b, j);
  }

  lemma SwapRead(s: seq<PieceCode>, a: Square, b: Square, j: Square)
    requires |s| == 64
    ensures s[a := s[b]][b := s[a]][j] == if j == b then s[a] else if j == a then s[b] else s[j]
  {
    PlaceRead(s, a, s[b], j);
    PlaceRead(s[a := s[b]], b, s[a], j);
  }

  /** ... and the bitboards stay. */
  lemma SwapRest(pl: Placement, a: Square, b: Square)
    requires Shaped(pl)
    ensures Swap(pl, a, b).pieces == pl.pieces && Swap(pl, a, b).sides == pl.sides
  {
  }

  /* ---------------- The edits of do_move, square by square ---------------- */

  /** A toggle whose mask misses square `j` leaves what `j` shows. */
  lemma ToggleMiss(pl: Placement, side: Side, piece: Piece, mask: bv64, j: Square, code: PieceCode, owner: Side)
    requires Shaped(pl) && Shows(pl, j, code, owner) && !Has(mask, j)
    ensures Shows(Toggle(pl, side, piece, mask), j, code, owner)
  {
    ToggleAt(pl, side, piece, mask, j);
  }

  /** A square write elsewhere leaves what `j` shows. */
  lemma PlaceMiss(pl: Placement, sq: Square, pc: PieceCode, j: Square, code: PieceCode, owner: Side)
    requires Shaped(pl) && Shows(pl, j, code, owner) && j != sq
    ensures Shows(Place(pl, sq, pc), j, code, owner)
  {
    PlaceAt(pl, sq, pc, j);
    PlaceRest(pl, sq, pc);
  }

  /** The mover's mask holds exactly its two squares. */
  lemma FromToAt(from: Square, to: Square, j: Square)
    ensures Has(FromTo(from, to), j) == (j == from || j == to)
  {
    TwoBitsAt(from, to, j);
  }

  /** The mask of two squares holds exactly those two. */
  lemma TwoBitsAt(a: Square, b: Square, j: Square)
    ensures Has(Bit(a) | Bit(b), j) == (j == a || j == b)
  {
    var x, y := Bit(a), Bit(b);
    var hx, hy := Has(x, j), Has(y, j);
    HasBit(a, j);
    HasBit(b, j);
    assert hx == (a == j) && hy == (b == j);
    HasOr(x, y, j);
  }

  /** Toggling a piece off a square that shows it, then writing the square
      empty, leaves the square empty. */
  lemma LiftHere(pl: Placement, side: Side, piece: Piece, mask: bv64, sq: Square, j: Square)
    requires Shaped(pl) && Shows(pl, j, piece, side) && Has(mask, j) && j == sq
    ensures Shows(Place(Toggle(pl, side, piece, mask), sq, EMPTY), j, EMPTY, side)
  {
    ToggleAt(pl, side, piece, mask, j);
    PlaceAt(Toggle(pl, side, piece, mask), sq, EMPTY, j);
    PlaceRest(Toggle(pl, side, piece, mask), sq, EMPTY);
  }

  /** Two flips of a list of bitboards, read at square `j`. */
  lemma Flip2At(s: seq<bv64>, i1: int, m1: bv64, i2: int, m2: bv64, k: int, j: Square)
    requires 0 <= i1 < |s| && 0 <= i2 < |s| && 0 <= k < |s|
    ensures Has(Flip(Flip(s, i1, m1), i2, m2)[k], j) ==
              ((Has(s[k], j) != (k == i1 && Has(m1, j))) != (k == i2 && Has(m2, j)))
  {
    FlipAt(s, i1, m1, k, j);
    FlipAt(Flip(s, i1, m1), i2, m2, k, j);
  }

  /** A mover of the side to move never lands on its own square: `to`
      is empty or the opponent's. */
  lemma MoverApart(pl: Placement, stm: Side, from: Square, to: Square)
    requires Shaped(pl) && Agrees(pl, from) && Agrees(pl, to)
    requires pl.squares[from] != EMPTY && Has(pl.sides[stm], from)
    requires pl.squares[to] == EMPTY || Has(pl.sides[Other(stm)], to)
    ensures from != to
  {
  }

  /** Lines 123-127 and 133-136 at `from`: the square empties. */
  lemma StartCaptureFrom(pl: Placement, stm: Side, from: Square, to: Square, j: Square)
    requires Shaped(pl) && pl.squares[from] != EMPTY && Shows(pl, j, pl.squares[from], stm)
    requires j == from && from != to
    ensures Shows(PlaceCapture(PlaceStart(pl, stm, from, to, pl.squares[from]), Other(stm), to, pl.squares[to]),
                  j, EMPTY, stm)
  {
    var moved: Piece := pl.squares[from];
    FromToAt(from, to, j);
    var t0 := Toggle(pl, stm, moved, FromTo(from, to));
    LiftHere(pl, stm, moved, FromTo(from, to), from, j);
    PlaceMiss(Place(t0, from, EMPTY), to, moved, j, EMPTY, stm);
    if pl.squares[to] != EMPTY {
      HasBit(to, j);
      ToggleMiss(PlaceStart(pl, stm, from, to, moved), Other(stm), pl.squares[to], Bit(to), j, EMPTY, stm);
    }
  }

  /** ... and anywhere else: nothing changes. */
  lemma StartCaptureElse(pl: Placement, stm: Side, from: Square, to: Square, j: Square)
    requires Shaped(pl) && pl.squares[from] != EMPTY && Agrees(pl, j) && j != from && j != to
    ensures Shows(PlaceCapture(PlaceStart(pl, stm, from, to, pl.squares[from]), Other(stm), to, pl.squares[to]),
                  j, pl.squares[j], Owner(pl, j))
  {
    var moved: Piece := pl.squares[from];
    var code, owner := pl.squares[j], Owner(pl, j);
    AgreesIsShows(pl, j);
    FromToAt(from, to, j);
    var t0 := Toggle(pl, stm, moved, FromTo(from, to));
    ToggleMiss(pl, stm, moved, FromTo(from, to), j, code, owner);
    PlaceMiss(t0, from, EMPTY, j, code, owner);
    PlaceMiss(Place(t0, from, EMPTY), to, moved, j, code, owner);
    if pl.squares[to] != EMPTY {
      HasBit(to, j);
      ToggleMiss(PlaceStart(pl, stm, from, to, moved), Other(stm), pl.squares[to], Bit(to), j, code, owner);
    }
  }

  /** ... at `to`, the piece boards: only the mover's holds it. */
  lemma StartCaptureToPieces(pl: Placement, stm: Side, from: Square, to: Square)
    requires Shaped(pl) && pl.squares[from] != EMPTY && Agrees(pl, to) && from != to
    ensures forall q: Piece ::
              Has(PlaceCapture(PlaceStart(pl, stm, from, to, pl.squares[from]), Other(stm), to, pl.squares[to]).pieces[q], to)
              == (q == pl.squares[from])
  {
    var moved: Piece := pl.squares[from];
    var captured := pl.squares[to];
    var r := PlaceCapture(PlaceStart(pl, stm, from, to, moved), Other(stm), to, captured);
    FromToAt(from, to, to);
    HasBit(to, to);
    if captured != EMPTY {
      assert r.pieces == Flip(Flip(pl.pieces, moved, FromTo(from, to)), captured, Bit(to));
      forall q: Piece
        ensures Has(r.pieces[q], to) == (q == moved)
      {
        Flip2At(pl.pieces, moved, FromTo(from, to), captured, Bit(to), q, to);
      }
    } else {
      assert r.pieces == Flip(pl.pieces, moved, FromTo(from, to));
      forall q: Piece
        ensures Has(r.pieces[q], to) == (q == moved)
      {
        FlipAt(pl.pieces, moved, FromTo(from, to), q, to);
      }
    }
  }

  /** ... at `to`, the side boards: only the mover's side holds it. */
  lemma StartCaptureToSides(pl: Placement, stm: Side, from: Square, to: Square)
    requires Shaped(pl) && pl.squares[from] != EMPTY && Agrees(pl, to) && from != to
    requires pl.squares[to] == EMPTY || Has(pl.sides[Other(stm)], to)
    ensures var r := PlaceCapture(PlaceStart(pl, stm, from, to, pl.squares[from]), Other(stm), to, pl.squares[to]);
            Has(r.sides[stm], to) && !Has(r.sides[Other(stm)], to)
  {
    var moved: Piece := pl.squares[from];
    var captured := pl.squares[to];
    var r := PlaceCapture(PlaceStart(pl, stm, from, to, moved), Other(stm), to, captured);
    FromToAt(from, to, to);
    HasBit(to, to);
    if captured != EMPTY {
      assert r.sides == Flip(Flip(pl.sides, stm, FromTo(from, to)), Other(stm), Bit(to));
      Flip2At(pl.sides, stm, FromTo(from, to), Other(stm), Bit(to), stm, to);
      Flip2At(pl.sides, stm, FromTo(from, to), Other(stm), Bit(to), Other(stm), to);
    } else {
      assert r.sides == Flip(pl.sides, stm, FromTo(from, to));
      FlipAt(pl.sides, stm, FromTo(from, to), stm, to);
      FlipAt(pl.sides, stm, FromTo(from, to), Other(stm), to);
    }
  }

  /** ... at `to`: the square shows the mover for the side to move. */
  lemma StartCaptureTo(pl: Placement, stm: Side, from: Square, to: Square, j: Square)
    requires Lockstep(pl) && pl.squares[from] != EMPTY && Has(pl.sides[stm], from)
    requires pl.squares[to] == EMPTY || Has(pl.sides[Other(stm)], to)
    requires j == to
    ensures Shows(PlaceCapture(PlaceStart(pl, stm, from, to, pl.squares[from]), Other(stm), to, pl.squares[to]),
                  j, pl.squares[from], stm)
  {
    var moved: Piece := pl.squares[from];
    assert Agrees(pl, from) && Agrees(pl, to);
    MoverApart(pl, stm, from, to);
    StartCaptureToPieces(pl, stm, from, to);
    StartCaptureToSides(pl, stm, from, to);
    var t0 := Toggle(pl, stm, moved, FromTo(from, to));
    PlaceAt(Place(t0, from, EMPTY), to, moved, to);
  }

  /** ... and anywhere else: nothing changes. */
  lemma LiftElse(pl: Placement, side: Side, piece: Piece, sq: Square, j: Square, code: PieceCode, owner: Side)
    requires Shaped(pl) && Shows(pl, j, code, owner) && j != sq
    ensures Shows(Place(Toggle(pl, side, piece, Bit(sq)), sq, EMPTY), j, code, owner)
  {
    InRange(sq); InRange(j);
    ToggleAt(pl, side, piece, Bit(sq), j);
    PlaceAt(Toggle(pl, side, piece, Bit(sq)), sq, EMPTY, j);
    PlaceRest(Toggle(pl, side, piece, Bit(sq)), sq, EMPTY);
    HasBit(sq, j);
  }

  /** A piece-board flip whose mask misses square `j` leaves what `j`
      shows. */
  lemma FlipPieceMiss(pl: Placement, piece: Piece, mask: bv64, j: Square, code: PieceCode, owner: Side)
    requires Shaped(pl) && Shows(pl, j, code, owner) && !Has(mask, j)
    ensures Shows(FlipPiece(pl, piece, mask), j, code, owner)
  {
    FlipPieceAt(pl, piece, mask, j);
    FlipPieceRest(pl, piece, mask, j);
  }

  /** Lines 159-162 at `to`: the pawn becomes the promoted piece, for the
      same side. */
  lemma PromoteHere(pl: Placement, to: Square, moved: Piece, ppc: Piece, owner: Side, j: Square)
    requires Shaped(pl) && Shows(pl, j, moved, owner) && j == to
    ensures Shows(PlacePromotion(pl, to, moved, ppc), j, ppc, owner)
  {
    var f1 := FlipPiece(pl, moved, Bit(to));
    var f2 := FlipPiece(f1, ppc, Bit(to));
    HasBit(to, j);
    FlipPieceAt(pl, moved, Bit(to), j);
    FlipPieceRest(pl, moved, Bit(to), j);
    FlipPieceAt(f1, ppc, Bit(to), j);
    FlipPieceRest(f1, ppc, Bit(to), j);
    PlaceAt(f2, to, ppc, j);
    PlaceRest(f2, to, ppc);
  }

  /** ... and anywhere else: nothing changes. */
  lemma PromoteElse(pl: Placement, to: Square, moved: Piece, ppc: Piece, j: Square, code: PieceCode, owner: Side)
    requires Shaped(pl) && Shows(pl, j, code, owner) && j != to
    ensures Shows(PlacePromotion(pl, to, moved, ppc), j, code, owner)
  {
    var f1 := FlipPiece(pl, moved, Bit(to));
    HasBit(to, j);
    FlipPieceMiss(pl, moved, Bit(to), j, code, owner);
    FlipPieceMiss(f1, ppc, Bit(to), j, code, owner);
    PlaceMiss(FlipPiece(f1, ppc, Bit(to)), to, ppc, j, code, owner);
  }

  /** The castling rook's mask holds exactly its two squares. */
  lemma RookMaskAt(c: CastleMove, j: Square)
    requires c.mask == Bit(c.rookFrom) | Bit(c.rookTo)
    ensures Has(c.mask, j) == (j == c.rookFrom || j == c.rookTo)
  {
    TwoBitsAt(c.rookFrom, c.rookTo, j);
  }

  /** Lines 168-169 at the rook's start square: it empties. */
  lemma CastleFrom(pl: Placement, c: CastleMove, stm: Side, j: Square)
    requires Shaped(pl) && Shows(pl, j, ROOK, stm) && pl.squares[c.rookTo] == EMPTY
    requires c.mask == Bit(c.rookFrom) | Bit(c.rookTo) && j == c.rookFrom
    ensures Shows(PlaceCastle(pl, c, stm), j, EMPTY, stm)
  {
    SwapAt(pl, c.rookFrom, c.rookTo, j);
    SwapRest(pl, c.rookFrom, c.rookTo);
    ToggleAt(Swap(pl, c.rookFrom, c.rookTo), stm, ROOK, c.mask, j);
    RookMaskAt(c, j);
  }

  /** ... at its destination: the rook arrives. */
  lemma CastleTo(pl: Placement, c: CastleMove, stm: Side, owner: Side, j: Square)
    requires Shaped(pl) && Shows(pl, j, EMPTY, owner) && pl.squares[c.rookFrom] == ROOK
    requires c.mask == Bit(c.rookFrom) | Bit(c.rookTo) && j == c.rookTo
    ensures Shows(PlaceCastle(pl, c, stm), j, ROOK, stm)
  {
    SwapAt(pl, c.rookFrom, c.rookTo, j);
    SwapRest(pl, c.rookFrom, c.rookTo);
    ToggleAt(Swap(pl, c.rookFrom, c.rookTo), stm, ROOK, c.mask, j);
    RookMaskAt(c, j);
  }

  /** A swap of two other squares leaves what `j` shows. */
  lemma SwapMiss(pl: Placement, a: Square, b: Square, j: Square, code: PieceCode, owner: Side)
    requires Shaped(pl) && Shows(pl, j, code, owner) && j != a && j != b
    ensures Shows(Swap(pl, a, b), j, code, owner)
  {
    SwapAt(pl, a, b, j);
    SwapRest(pl, a, b);
  }

  /** ... and anywhere else: nothing changes. */
  lemma CastleElse(pl: Placement, c: CastleMove, stm: Side, j: Square, code: PieceCode, owner: Side)
    requires Shaped(pl) && Shows(pl, j, code, owner) && j != c.rookFrom && j != c.rookTo
    requires c.mask == Bit(c.rookFrom) | Bit(c.rookTo)
    ensures Shows(PlaceCastle(pl, c, stm), j, code, owner)
  {
    RookMaskAt(c, j);
    SwapMiss(pl, c.rookFrom, c.rookTo, j, code, owner);
    ToggleMiss(Swap(pl, c.rookFrom, c.rookTo), stm, ROOK, c.mask, j, code, owner);
  }

  /** `from`, `to` and any other square after the mover's and the capture's
      edits. */
  lemma StartCaptureShows(pl: Placement, stm: Side, from: Square, to: Square, j: Square)
    requires Lockstep(pl) && pl.squares[from] != EMPTY && Has(pl.sides[stm], from)
    requires pl.squares[to] == EMPTY || Has(pl.sides[Other(stm)], to)
    ensures from != to
    ensures Shows(Started(pl, stm, from, to), j,
                  StartedAt(pl, stm, from, to, j).0, StartedAt(pl, stm, from, to, j).1)
  {
    assert Agrees(pl, from) && Agrees(pl, to);
    MoverApart(pl, stm, from, to);
    if j == from {
      AgreesIsShows(pl, j);
      StartCaptureFrom(pl, stm, from, to, j);
    } else if j == to {
      StartCaptureTo(pl, stm, from, to, j);
    } else {
      assert Agrees(pl, j);
      StartCaptureElse(pl, stm, from, to, j);
    }
  }

  /** The square cache after the mover's edits. */
  lemma StartedSquare(pl: Placement, stm: Side, from: Square, to: Square, k: Square)
    requires Shaped(pl) && pl.squares[from] != EMPTY && k != from && k != to
    ensures Started(pl, stm, from, to).squares[k] == pl.squares[k]
  {
    var moved: Piece := pl.squares[from];
    var t0 := Toggle(pl, stm, moved, FromTo(from, to));
    PlaceAt(t0, from, EMPTY, k);
    PlaceAt(Place(t0, from, EMPTY), to, moved, k);
  }

  /** `do_move`'s board edits are the mover's, then the move kind's. */
  lemma MovePlacementSplits(t: Tables, pl: Placement, stm: Side, m: bv16, d: Dispatch)
    requires Fits(t, pl, stm, m, d)
    ensures MovePlacement(t, pl, stm, m, d) ==
            PlaceSpecial(t, Started(pl, stm, FromSq(m), ToSq(m)), stm, m, pl.squares[FromSq(m)], d)
  {
  }

  /** The en-passant arm, square by square. */
  lemma EnPassantShows(pl: Placement, stm: Side, from: Square, to: Square, j: Square)
    requires Lockstep(pl) && pl.squares[from] != EMPTY && Has(pl.sides[stm], from)
    requires pl.squares[to] == EMPTY && EpPawnOnBoard(to, Other(stm))
    requires Has(pl.sides[Other(stm)], EpPawnSq(to, Other(stm))) && pl.squares[EpPawnSq(to, Other(stm))] == PAWN
    ensures var pwn: Square := EpPawnSq(to, Other(stm));
            Shows(PlaceEnPassant(Started(pl, stm, from, to), to, Other(stm)), j,
                  if j == pwn then EMPTY else StartedAt(pl, stm, from, to, j).0,
                  if j == pwn then Other(stm) else StartedAt(pl, stm, from, to, j).1)
  {
    var opp := Other(stm);
    var pwn: Square := EpPawnSq(to, opp);
    var p2 := Started(pl, stm, from, to);
    assert Agrees(pl, from) && Agrees(pl, pwn);
    assert pwn != from && pwn != to;
    if j == pwn {
      StartCaptureShows(pl, stm, from, to, pwn);
      HasBit(pwn, pwn);
      LiftHere(p2, opp, PAWN, Bit(pwn), pwn, j);
    } else {
      StartCaptureShows(pl, stm, from, to, j);
      LiftElse(p2, opp, PAWN, pwn, j, StartedAt(pl, stm, from, to, j).0, StartedAt(pl, stm, from, to, j).1);
    }
  }

  /** The promotion arm, square by square. */
  lemma PromotionShows(pl: Placement, stm: Side, from: Square, to: Square, ppc: Piece, j: Square)
    requires Lockstep(pl) && pl.squares[from] != EMPTY && Has(pl.sides[stm], from)
    requires pl.squares[to] == EMPTY || Has(pl.sides[Other(stm)], to)
    ensures Shows(PlacePromotion(Started(pl, stm, from, to), to, pl.squares[from], ppc), j,
                  if j == to then ppc else StartedAt(pl, stm, from, to, j).0,
                  if j == to then stm else StartedAt(pl, stm, from, to, j).1)
  {
    var p2 := Started(pl, stm, from, to);
    StartCaptureShows(pl, stm, from, to, j);
    if j == to {
      PromoteHere(p2, to, pl.squares[from], ppc, stm, j);
    } else {
      PromoteElse(p2, to, pl.squares[from], ppc, j, StartedAt(pl, stm, from, to, j).0, StartedAt(pl, stm, from, to, j).1);
    }
  }

  /** The castling arm, square by square. */
  lemma CastleShows(pl: Placement, stm: Side, from: Square, to: Square, c: CastleMove, j: Square)
    requires Lockstep(pl) && pl.squares[from] != EMPTY && Has(pl.sides[stm], from)
    requires pl.squares[to] == EMPTY || Has(pl.sides[Other(stm)], to)
    requires c.rookFrom != from && c.rookFrom != to && c.rookTo != from && c.rookTo != to
    requires pl.squares[c.rookFrom] == ROOK && Has(pl.sides[stm], c.rookFrom) && pl.squares[c.rookTo] == EMPTY
    requires c.mask == Bit(c.rookFrom) | Bit(c.rookTo)
    ensures Shows(PlaceCastle(Started(pl, stm, from, to), c, stm), j,
                  if j == c.rookFrom then EMPTY else if j == c.rookTo then ROOK else StartedAt(pl, stm, from, to, j).0,
                  if j == c.rookFrom || j == c.rookTo then stm else StartedAt(pl, stm, from, to, j).1)
  {
    var p2 := Started(pl, stm, from, to);
    assert Agrees(pl, c.rookFrom) && Agrees(pl, c.rookTo);
    StartCaptureShows(pl, stm, from, to, j);
    if j == c.rookFrom {
      StartedSquare(pl, stm, from, to, c.rookTo);
      CastleFrom(p2, c, stm, j);
    } else if j == c.rookTo {
      StartedSquare(pl, stm, from, to, c.rookFrom);
      CastleTo(p2, c, stm, Owner(pl, j), j);
    } else {
      CastleElse(p2, c, stm, j, StartedAt(pl, stm, from, to, j).0, StartedAt(pl, stm, from, to, j).1);
    }
  }

  /** Lines 116-175 for an en-passant capture. */
  lemma MoveShowsEnPassant(t: Tables, pl: Placement, stm: Side, m: bv16, d: Dispatch, j: Square)
    requires Lockstep(pl) && PseudoLegal(t, pl, stm, m, d) && KindOf(FlagOf(m), d) == EnPassant
    ensures Shows(MovePlacement(t, pl, stm, m, d), j, After(t, pl, stm, m, d, j).0, After(t, pl, stm, m, d, j).1)
  {
    MovePlacementSplits(t, pl, stm, m, d);
    EnPassantShows(pl, stm, FromSq(m), ToSq(m), j);
  }

  /** ... for a promotion. */
  lemma MoveShowsPromotion(t: Tables, pl: Placement, stm: Side, m: bv16, d: Dispatch, j: Square)
    requires Lockstep(pl) && PseudoLegal(t, pl, stm, m, d) && KindOf(FlagOf(m), d) == Promotion
    ensures Shows(MovePlacement(t, pl, stm, m, d), j, After(t, pl, stm, m, d, j).0, After(t, pl, stm, m, d, j).1)
  {
    MovePlacementSplits(t, pl, stm, m, d);
    PromotionShows(pl, stm, FromSq(m), ToSq(m), PromoPiece(FlagOf(m)), j);
  }

  /** ... for a castle. */
  lemma MoveShowsCastle(t: Tables, pl: Placement, stm: Side, m: bv16, d: Dispatch, j: Square)
    requires Lockstep(pl) && PseudoLegal(t, pl, stm, m, d) && KindOf(FlagOf(m), d) == Castle
    ensures Shows(MovePlacement(t, pl, stm, m, d), j, After(t, pl, stm, m, d, j).0, After(t, pl, stm, m, d, j).1)
  {
    MovePlacementSplits(t, pl, stm, m, d);
    CastleShows(pl, stm, FromSq(m), ToSq(m), t.castleMove(stm, FlagOf(m) == KS_CASTLE), j);
  }

  /** ... for a quiet move, a capture or a double push. */
  lemma MoveShowsPlain(t: Tables, pl: Placement, stm: Side, m: bv16, d: Dispatch, j: Square)
    requires Lockstep(pl) && PseudoLegal(t, pl, stm, m, d)
    requires KindOf(FlagOf(m), d) == Plain || KindOf(FlagOf(m), d) == DoublePush
    ensures Shows(MovePlacement(t, pl, stm, m, d), j, After(t, pl, stm, m, d, j).0, After(t, pl, stm, m, d, j).1)
  {
    MovePlacementSplits(t, pl, stm, m, d);
    StartCaptureShows(pl, stm, FromSq(m), ToSq(m), j);
  }

  /** Lines 116-175, square by square: for a pseudo-legal move on a board in
      lockstep, every square of the new board shows exactly what `After`
      says, under either reading of the promotion arm. */
  lemma MoveShows(t: Tables, pl: Placement, stm: Side, m: bv16, d: Dispatch, j: Square)
    requires Lockstep(pl) && PseudoLegal(t, pl, stm, m, d)
    ensures Shows(MovePlacement(t, pl, stm, m, d), j, After(t, pl, stm, m, d, j).0, After(t, pl, stm, m, d, j).1)
  {
    match KindOf(FlagOf(m), d)
    case EnPassant => MoveShowsEnPassant(t, pl, stm, m, d, j);
    case Promotion => MoveShowsPromotion(t, pl, stm, m, d, j);
    case Castle => MoveShowsCastle(t, pl, stm, m, d, j);
    case DoublePush => MoveShowsPlain(t, pl, stm, m, d, j);
    case Plain => MoveShowsPlain(t, pl, stm, m, d, j);
  }

  /** `do_move`'s board edits keep the three views in lockstep. */
  lemma MoveKeepsLockstep(t: Tables, pl: Placement, stm: Side, m: bv16, d: Dispatch)
    requires Lockstep(pl) && PseudoLegal(t, pl, stm, m, d)
    ensures Lockstep(MovePlacement(t, pl, stm, m, d))
  {
    var r := MovePlacement(t, pl, stm, m, d);
    forall j: Square
      ensures Agrees(r, j)
    {
      MoveShows(t, pl, stm, m, d, j);
      ShowsAgrees(r, j, After(t, pl, stm, m, d, j).0, After(t, pl, stm, m, d, j).1);
    }
  }

  /** `do_move` keeps the views in lockstep, whether it keeps the move or
      takes an illegal one back, and so does `undo_move` of a move it made. */
  lemma DoMoveKeepsLockstep(t: Tables, b: Board, m: bv16, d: Dispatch)
    requires Lockstep(b.placement) && PseudoLegal(t, b.placement, b.sideToMove, m, d)
    ensures Lockstep(MakeMove(t, b, m, d).1.placement)
    ensures Lockstep(UnmakeMove(t, ApplyMove(t, b, m, d), d).placement)
  {
    MoveKeepsLockstep(t, b.placement, b.sideToMove, m, d);
    RoundTrip.IllegalLeavesNothing(t, b, m, d);
    RoundTrip.UndoAfterApply(t, b, m, d);
  }
}
