/** The position as a value, and what `do_move`, `undo_move`, `do_null` and
    `undo_null` do to it.  Every statement of those functions edits either the
    board arrays (`pieces`, `sides`, `squares`) or the `GameState`, so each is
    modelled as its board edits and its state edits, each in the engine's own
    order.  The class in `Position` is proved to perform exactly these edits on
    its arrays and fields. */
module State {
  import opened Bits
  import opened Xors
  import opened Consts
  import opened Moves

  /** The snapshot a move saves and `undo_move` restores. */
  datatype GameState = GameState(
    zobrist: bv64,
    phase: int,
    mg: int,
    eg: int,
    enPassantSq: bv16,
    halfmoveClock: nat,
    castleRights: bv8)

  /** One history entry: the snapshot before the move, the move, the piece that
      moved and the piece (or the empty sentinel) on the destination. */
  datatype MoveState = MoveState(state: GameState, m: bv16, movedPc: PieceCode, capturedPc: PieceCode)

  /** The three board views: per-piece bitboards, per-side bitboards and the
      dense piece-per-square cache. */
  datatype Placement = Placement(pieces: seq<bv64>, sides: seq<bv64>, squares: seq<PieceCode>)

  /** A whole position. */
  datatype Board = Board(
    placement: Placement,
    sideToMove: Side,
    state: GameState,
    nulls: nat,
    stack: seq<MoveState>)

  predicate Shaped(pl: Placement)
  {
    |pl.pieces| == 6 && |pl.sides| == 2 && |pl.squares| == 64
  }

  /** The three views agree on square `sq`: an empty square is in no piece
      board and no side board; an occupied one is in the board of its piece
      only and in exactly one side board. */
  ghost predicate Agrees(pl: Placement, sq: Square)
    requires Shaped(pl)
  {
    if pl.squares[sq] == EMPTY then
      (forall q: Piece :: !Has(pl.pieces[q], sq)) && !Has(pl.sides[WHITE], sq) && !Has(pl.sides[BLACK], sq)
    else
      (forall q: Piece :: Has(pl.pieces[q], sq) <==> q == pl.squares[sq]) && Has(pl.sides[WHITE], sq) != Has(pl.sides[BLACK], sq)
  }

  /** `pieces`, `sides` and `squares` describe the same board. */
  ghost predicate Lockstep(pl: Placement)
  {
    Shaped(pl) && forall sq: Square :: Agrees(pl, sq)
  }

  /** The side whose board holds `sq` (black when neither does). */
  function Owner(pl: Placement, sq: Square): Side
    requires Shaped(pl)
  {
    if Has(pl.sides[WHITE], sq) then WHITE else BLACK
  }

  /** Square `sq` holds `code` for `side` in all three views: the cache holds
      `code`, the piece boards hold `sq` in the board of `code` only, and the
      side boards hold it in `side`'s board only (in neither for an empty
      square). */
  ghost predicate Shows(pl: Placement, sq: Square, code: PieceCode, side: Side)
    requires Shaped(pl)
  {
    pl.squares[sq] == code &&
    (forall q: Piece :: Has(pl.pieces[q], sq) == (q == code)) &&
    Has(pl.sides[side], sq) == (code != EMPTY) && !Has(pl.sides[Other(side)], sq)
  }

  /** A square agrees exactly when it shows its cached code for its owner. */
  lemma AgreesIsShows(pl: Placement, sq: Square)
    requires Shaped(pl)
    ensures Agrees(pl, sq) <==> Shows(pl, sq, pl.squares[sq], Owner(pl, sq))
  {
  }

  /** Showing any code for any side is agreeing. */
  lemma ShowsAgrees(pl: Placement, sq: Square, code: PieceCode, side: Side)
    requires Shaped(pl) && Shows(pl, sq, code, side)
    ensures Agrees(pl, sq)
  {
  }

  /* ---------------- Incremental state updates ---------------- */

  /** The piece-square index of `sq` for `side`: white reads the tables
      mirrored vertically. */
  function Mirror(sq: Square, side: Side): Square
  {
    if side == WHITE then sq ^ 56 else sq
  }

  /** `add`: the hash and the piece-square totals of a piece arriving on `sq`. */
  function AddPiece(t: Tables, s: GameState, sq: Square, side: Side, piece: Piece): GameState
  {
    var i := Mirror(sq, side);
    s.(zobrist := Xor(s.zobrist, t.pieceKey(side, piece, sq)),
       mg := s.mg + t.sideFactor(side) * t.pstMg(piece, i),
       eg := s.eg + t.sideFactor(side) * t.pstEg(piece, i))
  }

  /** `remove`: the same for a piece leaving `sq`. */
  function RemovePiece(t: Tables, s: GameState, sq: Square, side: Side, piece: Piece): GameState
  {
    var i := Mirror(sq, side);
    s.(zobrist := Xor(s.zobrist, t.pieceKey(side, piece, sq)),
       mg := s.mg - t.sideFactor(side) * t.pstMg(piece, i),
       eg := s.eg - t.sideFactor(side) * t.pstEg(piece, i))
  }

  /** `remove` exactly undoes `add` of the same piece on the same square. */
  lemma RemoveUndoesAdd(t: Tables, s: GameState, sq: Square, side: Side, piece: Piece)
    ensures RemovePiece(t, AddPiece(t, s, sq, side, piece), sq, side, piece) == s
  {
    XorTwice(s.zobrist, t.pieceKey(side, piece, sq));
  }

  /** ... and `add` exactly undoes `remove`. */
  lemma AddUndoesRemove(t: Tables, s: GameState, sq: Square, side: Side, piece: Piece)
    ensures AddPiece(t, RemovePiece(t, s, sq, side, piece), sq, side, piece) == s
  {
    XorTwice(s.zobrist, t.pieceKey(side, piece, sq));
  }

  /** Neither touches anything but the hash and the piece-square totals. */
  lemma AddRemoveKeep(t: Tables, s: GameState, sq: Square, side: Side, piece: Piece)
    ensures AddPiece(t, s, sq, side, piece).(zobrist := s.zobrist, mg := s.mg, eg := s.eg) == s
    ensures RemovePiece(t, s, sq, side, piece).(zobrist := s.zobrist, mg := s.mg, eg := s.eg) == s
  {
  }

  /* ---------------- Board edits ---------------- */

  /** `toggle`: the same mask XORed into one piece board and one side board. */
  function Toggle(pl: Placement, side: Side, piece: Piece, mask: bv64): (r: Placement)
    requires Shaped(pl)
    ensures Shaped(r)
  {
    pl.(pieces := Flip(pl.pieces, piece, mask), sides := Flip(pl.sides, side, mask))
  }

  /** Toggling twice with the same arguments changes nothing. */
  lemma ToggleTwice(pl: Placement, side: Side, piece: Piece, mask: bv64)
    requires Shaped(pl)
    ensures Toggle(Toggle(pl, side, piece, mask), side, piece, mask) == pl
  {
    FlipTwice(pl.pieces, piece, mask);
    FlipTwice(pl.sides, side, mask);
  }

  /** A mask XORed into one piece board only (the promotion arms). */
  function FlipPiece(pl: Placement, piece: Piece, mask: bv64): (r: Placement)
    requires Shaped(pl)
    ensures Shaped(r)
  {
    pl.(pieces := Flip(pl.pieces, piece, mask))
  }

  /** `squares[sq] = pc`. */
  function Place(pl: Placement, sq: Square, pc: PieceCode): (r: Placement)
    requires Shaped(pl)
    ensures Shaped(r)
  {
    pl.(squares := pl.squares[sq := pc])
  }

  /** `squares.swap(i, j)`. */
  function Swap(pl: Placement, i: Square, j: Square): (r: Placement)
    requires Shaped(pl)
    ensures Shaped(r)
  {
    pl.(squares := pl.squares[i := pl.squares[j]][j := pl.squares[i]])
  }

  /* ---------------- do_move ---------------- */

  /** What `do_move` demands of a pseudo-legal move: a piece on the source
      square (the engine indexes `pieces` with it); for en passant, a victim
      square on the board that holds a pawn; for a castle, rook squares apart
      from the king's source and destination. */
  predicate Fits(t: Tables, pl: Placement, stm: Side, m: bv16, d: Dispatch)
  {
    Shaped(pl) && pl.squares[FromSq(m)] != EMPTY &&
    var from, to := FromSq(m), ToSq(m);
    match KindOf(FlagOf(m), d)
    case EnPassant =>
      EpPawnOnBoard(to, Other(stm)) && pl.squares[EpPawnSq(to, Other(stm))] == PAWN
    case Castle =>
      var c := t.castleMove(stm, FlagOf(m) == KS_CASTLE);
      c.rookFrom != from && c.rookFrom != to && c.rookTo != from && c.rookTo != to
    case _ => true
  }

  /** Lines 123 and 126-127: the mover leaves `from` and lands on `to`. */
  function PlaceStart(pl: Placement, stm: Side, from: Square, to: Square, moved: Piece): (r: Placement)
    requires Shaped(pl)
    ensures Shaped(r)
  {
    Place(Place(Toggle(pl, stm, moved, FromTo(from, to)), from, EMPTY), to, moved)
  }

  /** Line 135: a captured piece leaves its boards. */
  function PlaceCapture(pl: Placement, opp: Side, to: Square, captured: PieceCode): (r: Placement)
    requires Shaped(pl)
    ensures Shaped(r)
  {
    if captured != EMPTY then Toggle(pl, opp, captured, Bit(to)) else pl
  }

  /** Lines 148-153: the en-passant victim leaves its boards and its square. */
  function PlaceEnPassant(pl: Placement, to: Square, opp: Side): (r: Placement)
    requires Shaped(pl) && EpPawnOnBoard(to, opp)
    ensures Shaped(r)
  {
    var pwn: Square := EpPawnSq(to, opp);
    Place(Toggle(pl, opp, PAWN, Bit(pwn)), pwn, EMPTY)
  }

  /** Lines 158-160: the pawn on `to` becomes the promotion piece. */
  function PlacePromotion(pl: Placement, to: Square, moved: Piece, ppc: Piece): (r: Placement)
    requires Shaped(pl)
    ensures Shaped(r)
  {
    Place(FlipPiece(FlipPiece(pl, moved, Bit(to)), ppc, Bit(to)), to, ppc)
  }

  /** Lines 167-168: the castling rook moves. */
  function PlaceCastle(pl: Placement, c: CastleMove, stm: Side): (r: Placement)
    requires Shaped(pl)
    ensures Shaped(r)
  {
    Toggle(Swap(pl, c.rookFrom, c.rookTo), stm, ROOK, c.mask)
  }

  /** The board edits of the move-kind arms, lines 147-175. */
  function PlaceSpecial(t: Tables, pl: Placement, stm: Side, m: bv16, moved: Piece, d: Dispatch): (r: Placement)
    requires Shaped(pl)
    requires KindOf(FlagOf(m), d) == EnPassant ==> EpPawnOnBoard(ToSq(m), Other(stm))
    ensures Shaped(r)
  {
    var to := ToSq(m);
    var flag := FlagOf(m);
    match KindOf(flag, d)
    case EnPassant => PlaceEnPassant(pl, to, Other(stm))
    case Promotion => PlacePromotion(pl, to, moved, PromoPiece(flag))
    case Castle => PlaceCastle(pl, t.castleMove(stm, flag == KS_CASTLE), stm)
    case _ => pl
  }

  /** The board arrays after `do_move`'s edits. */
  function MovePlacement(t: Tables, pl: Placement, stm: Side, m: bv16, d: Dispatch): (r: Placement)
    requires Fits(t, pl, stm, m, d)
    ensures Shaped(r)
  {
    var from, to := FromSq(m), ToSq(m);
    var moved: Piece := pl.squares[from];
    var p1 := PlaceStart(pl, stm, from, to, moved);
    var p2 := PlaceCapture(p1, Other(stm), to, pl.squares[to]);
    PlaceSpecial(t, p2, stm, m, moved, d)
  }

  /** Lines 124-125 and 128-130: the mover's hash and piece-square terms move,
      the en-passant square (and its hash term) is cleared and the
      side-to-move hash term flips. */
  function StateStart(t: Tables, s: GameState, stm: Side, from: Square, to: Square, moved: Piece): (r: GameState)
    ensures r.enPassantSq == 0
    ensures r.halfmoveClock == s.halfmoveClock && r.castleRights == s.castleRights
  {
    var s1 := AddPiece(t, RemovePiece(t, s, from, stm, moved), to, stm, moved);
    var z := if s1.enPassantSq > 0 then Xor(s1.zobrist, t.epKey(EpFile(s1.enPassantSq))) else s1.zobrist;
    s1.(zobrist := Xor(z, t.sideKey), enPassantSq := 0)
  }

  /** Lines 133-143: a captured piece leaves the hash, the totals and the phase
      (a captured rook takes the rights of its square along), and a king or
      rook move drops the rights of its source square. */
  function StateCapture(t: Tables, s: GameState, opp: Side, from: Square, to: Square, moved: Piece, captured: PieceCode): (r: GameState)
    ensures r.enPassantSq == s.enPassantSq && r.halfmoveClock == s.halfmoveClock
  {
    var s1 :=
      if captured != EMPTY then
        var c := RemovePiece(t, s, to, opp, captured);
        var c' := c.(phase := c.phase - t.phaseVal(captured));
        if captured == ROOK then c'.(castleRights := Restrict(c'.castleRights, t.castleMask(to))) else c'
      else s;
    if moved == KING || moved == ROOK then s1.(castleRights := Restrict(s1.castleRights, t.castleMask(from)))
    else s1
  }

  /** Lines 148-153: the en-passant victim leaves the hash and the totals. */
  function StateEnPassant(t: Tables, s: GameState, to: Square, opp: Side): GameState
    requires EpPawnOnBoard(to, opp)
  {
    RemovePiece(t, s, EpPawnSq(to, opp), opp, PAWN)
  }

  /** Lines 155-156: a double push sets the en-passant square and its key. */
  function StateDoublePush(t: Tables, s: GameState, to: Square, opp: Side): GameState
  {
    s.(enPassantSq := DoublePushEp(to, opp), zobrist := Xor(s.zobrist, t.epKey(FileOf(to))))
  }

  /** Lines 161-164: the promoted piece's phase weight and terms replace the
      pawn's terms. */
  function StatePromotion(t: Tables, s: GameState, to: Square, stm: Side, moved: Piece, ppc: Piece): GameState
  {
    var s1 := s.(phase := s.phase + t.phaseVal(ppc));
    AddPiece(t, RemovePiece(t, s1, to, stm, moved), to, stm, ppc)
  }

  /** Lines 170-171: the rook's terms move. */
  function StateCastle(t: Tables, s: GameState, c: CastleMove, stm: Side): GameState
  {
    AddPiece(t, RemovePiece(t, s, c.rookFrom, stm, ROOK), c.rookTo, stm, ROOK)
  }

  /** The state edits of the move-kind arms, lines 147-175. */
  function StateSpecial(t: Tables, s: GameState, stm: Side, m: bv16, moved: Piece, d: Dispatch): (r: GameState)
    requires KindOf(FlagOf(m), d) == EnPassant ==> EpPawnOnBoard(ToSq(m), Other(stm))
    ensures r.halfmoveClock == s.halfmoveClock && r.castleRights == s.castleRights
    ensures r.enPassantSq == if FlagOf(m) == DBL_PUSH then DoublePushEp(ToSq(m), Other(stm)) else s.enPassantSq
  {
    var to := ToSq(m);
    var flag := FlagOf(m);
    match KindOf(flag, d)
    case EnPassant => StateEnPassant(t, s, to, Other(stm))
    case DoublePush => StateDoublePush(t, s, to, Other(stm))
    case Promotion => StatePromotion(t, s, to, stm, moved, PromoPiece(flag))
    case Castle => StateCastle(t, s, t.castleMove(stm, flag == KS_CASTLE), stm)
    case Plain => s
  }

  /** The castle-hash loop of lines 178-183, one lowest bit at a time: the XOR
      of `castleKey(rights, bit)` over the bits of `changed`. */
  function CastleFold(t: Tables, rights: bv8, changed: bv8): bv64
    decreases changed
  {
    if changed == 0 then 0
    else Xor(t.castleKey(rights, LowBit(changed)), CastleFold(t, rights, PopLow(changed)))
  }

  /** Lines 178-186: hash the castle rights lost since `rights` and set the
      half-move clock. */
  function StateFinish(t: Tables, s: GameState, rights: bv8, moved: Piece, flag: bv16): (r: GameState)
    ensures r.enPassantSq == s.enPassantSq && r.castleRights == s.castleRights
  {
    var hmc := if moved > PAWN && flag != CAPTURE then s.halfmoveClock + 1 else 0;
    s.(zobrist := Xor(s.zobrist, CastleFold(t, rights, Lost(rights, s.castleRights))), halfmoveClock := hmc)
  }

  /** The `GameState` after `do_move`'s edits, given the piece that moves and
      the code on its destination (both read before any edit). */
  function MoveGameState(t: Tables, stm: Side, s: GameState, m: bv16, moved: Piece, captured: PieceCode, d: Dispatch): GameState
    requires KindOf(FlagOf(m), d) == EnPassant ==> EpPawnOnBoard(ToSq(m), Other(stm))
  {
    var from, to := FromSq(m), ToSq(m);
    var s1 := StateStart(t, s, stm, from, to, moved);
    var s2 := StateCapture(t, s1, Other(stm), from, to, moved, captured);
    var s3 := StateSpecial(t, s2, stm, m, moved, d);
    StateFinish(t, s3, s.castleRights, moved, FlagOf(m))
  }

  /** `do_move`'s board edits, as the nested steps the class performs. */
  lemma MoveSteps(t: Tables, pl: Placement, stm: Side, m: bv16, d: Dispatch, moved: Piece, captured: PieceCode)
    requires Fits(t, pl, stm, m, d)
    requires moved == pl.squares[FromSq(m)] && captured == pl.squares[ToSq(m)]
    ensures MovePlacement(t, pl, stm, m, d) ==
      PlaceSpecial(t, PlaceCapture(PlaceStart(pl, stm, FromSq(m), ToSq(m), moved), Other(stm), ToSq(m), captured), stm, m, moved, d)
  {
  }

  /** Lines 109-187: the position `do_move` builds before its legality test.
      It pushes exactly one history entry, holding the position's state before
      the move, and passes the turn. */
  function ApplyMove(t: Tables, b: Board, m: bv16, d: Dispatch): (r: Board)
    requires Fits(t, b.placement, b.sideToMove, m, d)
    ensures Shaped(r.placement)
    ensures r.stack == b.stack + [MoveState(b.state, m, b.placement.squares[FromSq(m)], b.placement.squares[ToSq(m)])]
    ensures r.sideToMove == Other(b.sideToMove) && r.nulls == b.nulls
  {
    var pl := b.placement;
    Board(MovePlacement(t, pl, b.sideToMove, m, d),
          Other(b.sideToMove),
          MoveGameState(t, b.sideToMove, b.state, m, pl.squares[FromSq(m)], pl.squares[ToSq(m)], d),
          b.nulls,
          b.stack + [MoveState(b.state, m, pl.squares[FromSq(m)], pl.squares[ToSq(m)])])
  }

  /** The position `ApplyMove` builds, field by field. */
  lemma ApplyMoveParts(t: Tables, b: Board, m: bv16, d: Dispatch)
    requires Fits(t, b.placement, b.sideToMove, m, d)
    ensures ApplyMove(t, b, m, d) ==
      Board(MovePlacement(t, b.placement, b.sideToMove, m, d), Other(b.sideToMove),
            MoveGameState(t, b.sideToMove, b.state, m, b.placement.squares[FromSq(m)], b.placement.squares[ToSq(m)], d), b.nulls,
            b.stack + [MoveState(b.state, m, b.placement.squares[FromSq(m)], b.placement.squares[ToSq(m)])])
  {
  }

  /** Lines 190-191 and `is_in_check`: is `side`'s king attacked?  `lsb!` of
      an empty king board is 64, which the attack test receives as it is. */
  predicate KingAttacked(t: Tables, pl: Placement, side: Side)
    requires Shaped(pl)
  {
    var king := Lsb(pl.pieces[KING] & pl.sides[side]);
    t.attacked(pl.pieces, pl.sides, king, side, pl.sides[0] | pl.sides[1])
  }

  /** `is_in_check`. */
  predicate InCheck(t: Tables, b: Board)
    requires Shaped(b.placement)
  {
    KingAttacked(t, b.placement, b.sideToMove)
  }

  /** `do_move`: whether the move was illegal (the mover's king is attacked
      afterwards), and the position it leaves: the moved position, or, for an
      illegal move, that position with `undo_move` applied. */
  function MakeMove(t: Tables, b: Board, m: bv16, d: Dispatch): (bool, Board)
    requires Fits(t, b.placement, b.sideToMove, m, d)
  {
    var a := ApplyMove(t, b, m, d);
    var illegal := KingAttacked(t, a.placement, b.sideToMove);
    (illegal, if illegal then UnmakeMove(t, a, d) else a)
  }

  /* ---------------- undo_move ---------------- */

  /** What `undo_move` demands: a non-empty history (it unwraps the pop) whose
      last entry moved a piece, and, for an en-passant entry, a victim square
      on the board. */
  predicate Undoable(b: Board, d: Dispatch)
  {
    Shaped(b.placement) && |b.stack| > 0 &&
    var e := b.stack[|b.stack| - 1];
    e.movedPc != EMPTY &&
    (KindOf(FlagOf(e.m), d) == EnPassant ==> EpPawnOnBoard(ToSq(e.m), b.sideToMove))
  }

  /** The board edits of `undo_move`, lines 215-235: the mover goes back, the
      captured piece returns, and the move-kind edits are repeated (each is an
      XOR, or a write of what the square held).  `opp` is the side to move
      after the move, the side that did not make it. */
  function UnmovePlacement(t: Tables, pl: Placement, opp: Side, m: bv16, moved: Piece, captured: PieceCode, d: Dispatch): (r: Placement)
    requires Shaped(pl)
    requires KindOf(FlagOf(m), d) == EnPassant ==> EpPawnOnBoard(ToSq(m), opp)
    ensures Shaped(r)
  {
    var from, to, flag := FromSq(m), ToSq(m), FlagOf(m);
    var stm := Other(opp);
    var p1 := Place(Place(Toggle(pl, stm, moved, FromTo(from, to)), from, moved), to, captured);
    var p2 := if captured != EMPTY then Toggle(p1, opp, captured, Bit(to)) else p1;
    match KindOf(flag, d)
    case EnPassant =>
      var pwn: Square := EpPawnSq(to, opp);
      Place(Toggle(p2, opp, PAWN, Bit(pwn)), pwn, PAWN)
    case Promotion =>
      FlipPiece(FlipPiece(p2, moved, Bit(to)), PromoPiece(flag), Bit(to))
    case Castle =>
      var c := t.castleMove(stm, flag == KS_CASTLE);
      Toggle(Swap(p2, c.rookFrom, c.rookTo), stm, ROOK, c.mask)
    case _ => p2
  }

  /** Lines 215-220 of `undo_move`: the mover goes back and the captured
      piece returns. */
  function UnplaceStart(pl: Placement, opp: Side, from: Square, to: Square, moved: Piece, captured: PieceCode): (r: Placement)
    requires Shaped(pl)
    ensures Shaped(r)
  {
    var p1 := Place(Place(Toggle(pl, Other(opp), moved, FromTo(from, to)), from, moved), to, captured);
    if captured != EMPTY then Toggle(p1, opp, captured, Bit(to)) else p1
  }

  /** Lines 222-235 of `undo_move`: the move-kind edits, repeated. */
  function UnplaceSpecial(t: Tables, pl: Placement, opp: Side, m: bv16, moved: Piece, d: Dispatch): (r: Placement)
    requires Shaped(pl)
    requires KindOf(FlagOf(m), d) == EnPassant ==> EpPawnOnBoard(ToSq(m), opp)
    ensures Shaped(r)
  {
    var to, flag := ToSq(m), FlagOf(m);
    match KindOf(flag, d)
    case EnPassant =>
      var pwn: Square := EpPawnSq(to, opp);
      Place(Toggle(pl, opp, PAWN, Bit(pwn)), pwn, PAWN)
    case Promotion =>
      FlipPiece(FlipPiece(pl, moved, Bit(to)), PromoPiece(flag), Bit(to))
    case Castle =>
      var c := t.castleMove(Other(opp), flag == KS_CASTLE);
      Toggle(Swap(pl, c.rookFrom, c.rookTo), Other(opp), ROOK, c.mask)
    case _ => pl
  }

  /** `undo_move`'s board edits, as the two steps the class performs. */
  lemma UnmoveSteps(t: Tables, pl: Placement, opp: Side, m: bv16, moved: Piece, captured: PieceCode, d: Dispatch)
    requires Shaped(pl)
    requires KindOf(FlagOf(m), d) == EnPassant ==> EpPawnOnBoard(ToSq(m), opp)
    ensures UnmovePlacement(t, pl, opp, m, moved, captured, d) ==
      UnplaceSpecial(t, UnplaceStart(pl, opp, FromSq(m), ToSq(m), moved, captured), opp, m, moved, d)
  {
  }

  /** `undo_move`: pop the entry, pass the turn back, restore the snapshot
      verbatim and reverse the board edits. */
  function UnmakeMove(t: Tables, b: Board, d: Dispatch): (r: Board)
    requires Undoable(b, d)
    ensures Shaped(r.placement)
    ensures r.stack == b.stack[..|b.stack| - 1] && r.state == b.stack[|b.stack| - 1].state
    ensures r.sideToMove == Other(b.sideToMove) && r.nulls == b.nulls
  {
    var e := b.stack[|b.stack| - 1];
    Board(UnmovePlacement(t, b.placement, b.sideToMove, e.m, e.movedPc, e.capturedPc, d),
          Other(b.sideToMove),
          e.state,
          b.nulls,
          b.stack[..|b.stack| - 1])
  }

  /* ---------------- do_null / undo_null ---------------- */

  /** `do_null`: the token it returns (the en-passant square and the hash before
      the null move) and the position it leaves. */
  function MakeNull(t: Tables, b: Board): ((bv16, bv64), Board)
  {
    var enp := b.state.enPassantSq;
    var hash := b.state.zobrist;
    var z := Xor(hash, if enp > 0 then t.epKey(EpFile(enp)) else 0);
    ((enp, hash),
     b.(nulls := b.nulls + 1,
        state := b.state.(zobrist := Xor(z, t.sideKey), enPassantSq := 0),
        sideToMove := Other(b.sideToMove)))
  }

  /** `undo_null` with a token. */
  function UnmakeNull(b: Board, token: (bv16, bv64)): Board
    requires b.nulls > 0
  {
    b.(nulls := b.nulls - 1,
       state := b.state.(zobrist := token.1, enPassantSq := token.0),
       sideToMove := Other(b.sideToMove))
  }
}
