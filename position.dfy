/** The engine's `Position` as the mutable object it is: three fixed-size
    arrays of bitboards and squares, the side to move, the incremental state,
    the null-move depth and the history stack.  A ghost field `board` mirrors
    the three arrays as a value; every method is proved to leave exactly the
    position the value-level model in `State` and `Queries` describes. */
module Position {
  import opened Bits
  import opened Xors
  import opened Consts
  import opened Moves
  import opened State
  import RoundTrip
  import Queries

  class Position {
    /** The engine's constant tables (hash keys, piece-square tables, phase
        weights, castle masks and rook moves, the attack test). */
    const t: Tables
    const pieces: array<bv64>
    const sides: array<bv64>
    const squares: array<PieceCode>
    var sideToMove: Side
    var state: GameState
    var nulls: nat
    var stack: seq<MoveState>
    /** The three arrays as a value. */
    ghost var board: Placement

    /** The arrays have the engine's fixed sizes, are distinct, and hold
        `board`. */
    ghost predicate Valid()
      reads this`board, pieces, sides, squares
    {
      pieces.Length == 6 && sides.Length == 2 && squares.Length == 64 && pieces != sides &&
      board == Placement(pieces[..], sides[..], squares[..])
    }

    /** `squares[sq]`. */
    function PieceAt(sq: Square): (pc: PieceCode)
      requires Valid()
      reads this`board, pieces, sides, squares
      ensures pc == board.squares[sq]
    {
      squares[sq]
    }

    /** The three arrays, read out. */
    function Arrays(): (pl: Placement)
      requires Valid()
      reads this`board, pieces, sides, squares
      ensures pl == board
    {
      Placement(pieces[..], sides[..], squares[..])
    }

    /** The whole position as a value. */
    ghost function Model(): Board
      reads this
    {
      Board(board, sideToMove, state, nulls, stack)
    }

    /** The empty position the engine starts from, before a FEN is read. */
    constructor(tables: Tables)
      ensures Valid() && t == tables
      ensures Model() == Board(Placement(seq(6, _ => 0), seq(2, _ => 0), seq(64, _ => EMPTY)),
                               WHITE, GameState(0, 0, 0, 0, 0, 0, 0), 0, [])
    {
      t := tables;
      pieces := new bv64[6](_ => 0);
      sides := new bv64[2](_ => 0);
      squares := new PieceCode[64](_ => EMPTY);
      sideToMove := WHITE;
      state := GameState(0, 0, 0, 0, 0, 0, 0);
      nulls := 0;
      stack := [];
      new;
      board := Placement(pieces[..], sides[..], squares[..]);
    }

    /* ---------------- Board and state primitives ---------------- */

    /** `toggle`. */
    method Toggle(side: Side, piece: Piece, bit: bv64)
      requires Valid()
      modifies this`board, pieces, sides
      ensures Valid() && board == State.Toggle(old(board), side, piece, bit)
    {
      pieces[piece] := Xor(pieces[piece], bit);
      sides[side] := Xor(sides[side], bit);
      board := State.Toggle(board, side, piece, bit);
    }

    /** `squares[sq] = pc`. */
    method SetSquare(sq: Square, pc: PieceCode)
      requires Valid()
      modifies this`board, squares
      ensures Valid() && board == Place(old(board), sq, pc)
    {
      squares[sq] := pc;
      board := Place(board, sq, pc);
    }

    /** `squares.swap(i, j)`. */
    method SwapSquares(i: Square, j: Square)
      requires Valid()
      modifies this`board, squares
      ensures Valid() && board == Swap(old(board), i, j)
    {
      var held := squares[i];
      squares[i] := squares[j];
      squares[j] := held;
      board := Swap(board, i, j);
    }

    /** `pieces[piece] ^= bit`. */
    method FlipPieceBoard(piece: Piece, bit: bv64)
      requires Valid()
      modifies this`board, pieces
      ensures Valid() && board == FlipPiece(old(board), piece, bit)
    {
      pieces[piece] := Xor(pieces[piece], bit);
      board := FlipPiece(board, piece, bit);
    }

    /** `add`. */
    method Add(sq: Square, side: Side, piece: Piece)
      modifies this`state
      ensures state == AddPiece(t, old(state), sq, side, piece)
    {
      var indx := Mirror(sq, side);
      state := state.(zobrist := Xor(state.zobrist, t.pieceKey(side, piece, sq)),
                      mg := state.mg + t.sideFactor(side) * t.pstMg(piece, indx),
                      eg := state.eg + t.sideFactor(side) * t.pstEg(piece, indx));
    }

    /** `remove`. */
    method Remove(sq: Square, side: Side, piece: Piece)
      modifies this`state
      ensures state == RemovePiece(t, old(state), sq, side, piece)
    {
      var indx := Mirror(sq, side);
      state := state.(zobrist := Xor(state.zobrist, t.pieceKey(side, piece, sq)),
                      mg := state.mg - t.sideFactor(side) * t.pstMg(piece, indx),
                      eg := state.eg - t.sideFactor(side) * t.pstEg(piece, indx));
    }

    /* ---------------- do_move: the board arrays ---------------- */

    /* `do_move` interleaves its edits of the board arrays with its edits of
       the `GameState`.  The two touch disjoint data, and the state edits read
       the board only through the moved and captured pieces, which are read
       before either begins; so the board edits are made first here, then the
       state edits, each in the engine's order. */

    /** Lines 123 and 126-127: the mover leaves `from` and lands on `to`. */
    method PlaceStartStep(stm: Side, from: Square, to: Square, moved: Piece)
      requires Valid()
      modifies this`board, pieces, sides, squares
      ensures Valid() && board == PlaceStart(old(board), stm, from, to, moved)
    {
      Toggle(stm, moved, FromTo(from, to));
      SetSquare(from, EMPTY);
      SetSquare(to, moved);
    }

    /** Line 135: a captured piece leaves its boards. */
    method PlaceCaptureStep(opp: Side, to: Square, captured: PieceCode)
      requires Valid()
      modifies this`board, pieces, sides
      ensures Valid() && board == PlaceCapture(old(board), opp, to, captured)
    {
      if captured != EMPTY {
        Toggle(opp, captured, Bit(to));
      }
    }

    /** Lines 147-175: the board edits of the move-kind arms. */
    method PlaceSpecialStep(stm: Side, m: bv16, moved: Piece)
      requires Valid()
      requires KindOf(FlagOf(m), Intended) == EnPassant ==> EpPawnOnBoard(ToSq(m), Other(stm))
      modifies this`board, pieces, sides, squares
      ensures Valid() && board == PlaceSpecial(t, old(board), stm, m, moved, Intended)
    {
      var to, flag := ToSq(m), FlagOf(m);
      var opp := Other(stm);
      match KindOf(flag, Intended)
      case EnPassant =>
        var pwn: Square := EpPawnSq(to, opp);
        Toggle(opp, PAWN, Bit(pwn));
        SetSquare(pwn, EMPTY);
      case Promotion =>
        var ppc := PromoPiece(flag);
        FlipPieceBoard(moved, Bit(to));
        FlipPieceBoard(ppc, Bit(to));
        SetSquare(to, ppc);
      case Castle =>
        var c := t.castleMove(stm, flag == KS_CASTLE);
        SwapSquares(c.rookFrom, c.rookTo);
        Toggle(stm, ROOK, c.mask);
      case _ =>
    }

    /** All of `do_move`'s board edits. */
    method PlaceMove(ghost pl: Placement, stm: Side, m: bv16, moved: Piece, captured: PieceCode)
      requires Valid() && board == pl && Fits(t, pl, stm, m, Intended)
      requires moved == pl.squares[FromSq(m)] && captured == pl.squares[ToSq(m)]
      modifies this`board, pieces, sides, squares
      ensures Valid() && board == MovePlacement(t, pl, stm, m, Intended)
    {
      PlaceStartStep(stm, FromSq(m), ToSq(m), moved);
      PlaceCaptureStep(Other(stm), ToSq(m), captured);
      PlaceSpecialStep(stm, m, moved);
    }

    /* ---------------- do_move: the game state ---------------- */

    /** Lines 124-125 and 128-130: the mover's hash and piece-square terms
        move, the en-passant square is cleared and the side hash flips. */
    method StateStartStep(stm: Side, from: Square, to: Square, moved: Piece)
      modifies this`state
      ensures state == StateStart(t, old(state), stm, from, to, moved)
    {
      Remove(from, stm, moved);
      Add(to, stm, moved);
      if state.enPassantSq > 0 {
        state := state.(zobrist := Xor(state.zobrist, t.epKey(EpFile(state.enPassantSq))));
      }
      state := state.(zobrist := Xor(state.zobrist, t.sideKey), enPassantSq := 0);
    }

    /** Lines 133-143: the captured piece and the rights the move spends. */
    method StateCaptureStep(opp: Side, from: Square, to: Square, moved: Piece, captured: PieceCode)
      modifies this`state
      ensures state == StateCapture(t, old(state), opp, from, to, moved, captured)
    {
      if captured != EMPTY {
        Remove(to, opp, captured);
        state := state.(phase := state.phase - t.phaseVal(captured));
        if captured == ROOK {
          state := state.(castleRights := Restrict(state.castleRights, t.castleMask(to)));
        }
      }
      if moved == KING || moved == ROOK {
        state := state.(castleRights := Restrict(state.castleRights, t.castleMask(from)));
      }
    }

    /** Lines 146-176: the state edits of the move-kind arms. */
    method StateSpecialStep(stm: Side, m: bv16, moved: Piece)
      requires KindOf(FlagOf(m), Intended) == EnPassant ==> EpPawnOnBoard(ToSq(m), Other(stm))
      modifies this`state
      ensures state == StateSpecial(t, old(state), stm, m, moved, Intended)
    {
      var to, flag := ToSq(m), FlagOf(m);
      var opp := Other(stm);
      match KindOf(flag, Intended)
      case EnPassant =>
        Remove(EpPawnSq(to, opp), opp, PAWN);
      case DoublePush =>
        state := state.(enPassantSq := DoublePushEp(to, opp), zobrist := Xor(state.zobrist, t.epKey(FileOf(to))));
      case Promotion =>
        PromoteStep(to, stm, moved, PromoPiece(flag));
      case Castle =>
        CastleRookStep(t.castleMove(stm, flag == KS_CASTLE), stm);
      case Plain =>
    }

    /** Lines 161-164: the promoted piece replaces the pawn's terms. */
    method PromoteStep(to: Square, stm: Side, moved: Piece, ppc: Piece)
      modifies this`state
      ensures state == StatePromotion(t, old(state), to, stm, moved, ppc)
    {
      state := state.(phase := state.phase + t.phaseVal(ppc));
      Remove(to, stm, moved);
      Add(to, stm, ppc);
    }

    /** Lines 170-171: the rook's terms move with it. */
    method CastleRookStep(c: CastleMove, stm: Side)
      modifies this`state
      ensures state == StateCastle(t, old(state), c, stm)
    {
      Remove(c.rookFrom, stm, ROOK);
      Add(c.rookTo, stm, ROOK);
    }

    /** Lines 178-183: hash every right lost since `rights`, lowest bit first. */
    method HashLostRights(rights: bv8)
      modifies this`state
      ensures state == old(state).(zobrist := Xor(old(state).zobrist, CastleFold(t, rights, Lost(rights, old(state).castleRights))))
    {
      var st := state;
      var changed := Lost(rights, st.castleRights);
      var z := st.zobrist;
      ghost var target := Xor(z, CastleFold(t, rights, changed));
      while changed != 0
        invariant Xor(z, CastleFold(t, rights, changed)) == target
        decreases changed
      {
        var ls1b := LowBit(changed);
        XorAssoc(z, t.castleKey(rights, ls1b), CastleFold(t, rights, PopLow(changed)));
        z := Xor(z, t.castleKey(rights, ls1b));
        changed := PopLow(changed);
      }
      XorZero(z);
      state := st.(zobrist := z);
    }

    /** Lines 178-186: the castle hashes and the half-move clock. */
    method StateFinishStep(rights: bv8, moved: Piece, flag: bv16)
      modifies this`state
      ensures state == StateFinish(t, old(state), rights, moved, flag)
    {
      HashLostRights(rights);
      state := state.(halfmoveClock := if moved > PAWN && flag != CAPTURE then state.halfmoveClock + 1 else 0);
    }

    /** All of `do_move`'s edits but the board's: the history entry, the
        state edits and the turn. */
    method StateMove(stm: Side, m: bv16, moved: Piece, captured: PieceCode)
      requires KindOf(FlagOf(m), Intended) == EnPassant ==> EpPawnOnBoard(ToSq(m), Other(stm))
      modifies this`state, this`stack, this`sideToMove
      ensures state == MoveGameState(t, stm, old(state), m, moved, captured, Intended)
      ensures stack == old(stack) + [MoveState(old(state), m, moved, captured)]
      ensures sideToMove == Other(stm)
    {
      stack := stack + [MoveState(state, m, moved, captured)];
      sideToMove := Other(stm);
      var from, to := FromSq(m), ToSq(m);
      var rights := state.castleRights;
      StateStartStep(stm, from, to, moved);
      StateCaptureStep(Other(stm), from, to, moved, captured);
      StateSpecialStep(stm, m, moved);
      StateFinishStep(rights, moved, FlagOf(m));
    }

    /* ---------------- do_move, undo_move ---------------- */

    /** Lines 109-187: everything `do_move` does before its legality test,
        field by field. */
    method MakeMoveSteps(ghost b: Board, m: bv16)
      requires Valid() && Fits(t, b.placement, b.sideToMove, m, Intended)
      requires board == b.placement && sideToMove == b.sideToMove && state == b.state && stack == b.stack
      modifies this`state, this`stack, this`sideToMove, this`board, pieces, sides, squares
      ensures Valid() && board == MovePlacement(t, b.placement, b.sideToMove, m, Intended)
      ensures state == MoveGameState(t, b.sideToMove, b.state, m, b.placement.squares[FromSq(m)], b.placement.squares[ToSq(m)], Intended)
      ensures stack == b.stack + [MoveState(b.state, m, b.placement.squares[FromSq(m)], b.placement.squares[ToSq(m)])]
      ensures sideToMove == Other(b.sideToMove)
    {
      var stm := sideToMove;
      var moved: Piece := PieceAt(FromSq(m));
      var captured := PieceAt(ToSq(m));
      StateMove(stm, m, moved, captured);
      PlaceMove(b.placement, stm, m, moved, captured);
    }

    /** `do_move`: make the move, then report (and take back) a move that
        leaves the mover's king attacked. */
    method DoMove(m: bv16) returns (illegal: bool)
      requires Valid() && Fits(t, board, sideToMove, m, Intended)
      modifies this, pieces, sides, squares
      ensures Valid() && (illegal, Model()) == MakeMove(t, old(Model()), m, Intended)
    {
      ghost var b := Model();
      var mover := sideToMove;
      MakeMoveSteps(b, m);
      State.ApplyMoveParts(t, b, m, Intended);
      ghost var a := ApplyMove(t, b, m, Intended);
      assert Model() == a;
      // lines 190-191: is the mover's king attacked?
      illegal := KingAttacked(t, Arrays(), mover);
      if illegal {
        RoundTrip.UndoAfterApply(t, b, m, Intended);
        UndoMove();
      }
    }

    /** Lines 215-235: `undo_move`'s board edits. */
    method UnplaceMove(opp: Side, m: bv16, moved: Piece, captured: PieceCode)
      requires Valid()
      requires KindOf(FlagOf(m), Intended) == EnPassant ==> EpPawnOnBoard(ToSq(m), opp)
      modifies this`board, pieces, sides, squares
      ensures Valid() && board == UnmovePlacement(t, old(board), opp, m, moved, captured, Intended)
    {
      var stm := Other(opp);
      var from, to, flag := FromSq(m), ToSq(m), FlagOf(m);
      ghost var pl := board;
      Toggle(stm, moved, FromTo(from, to));
      SetSquare(from, moved);
      SetSquare(to, captured);
      if captured != EMPTY {
        Toggle(opp, captured, Bit(to));
      }
      UnplaceSpecialStep(opp, m, moved);
      State.UnmoveSteps(t, pl, opp, m, moved, captured, Intended);
    }

    /** Lines 222-235: the move-kind edits, repeated. */
    method UnplaceSpecialStep(opp: Side, m: bv16, moved: Piece)
      requires Valid()
      requires KindOf(FlagOf(m), Intended) == EnPassant ==> EpPawnOnBoard(ToSq(m), opp)
      modifies this`board, pieces, sides, squares
      ensures Valid() && board == UnplaceSpecial(t, old(board), opp, m, moved, Intended)
    {
      var stm := Other(opp);
      var to, flag := ToSq(m), FlagOf(m);
      match KindOf(flag, Intended)
      case EnPassant =>
        var pwn: Square := EpPawnSq(to, opp);
        Toggle(opp, PAWN, Bit(pwn));
        SetSquare(pwn, PAWN);
      case Promotion =>
        FlipPieceBoard(moved, Bit(to));
        FlipPieceBoard(PromoPiece(flag), Bit(to));
      case Castle =>
        var c := t.castleMove(stm, flag == KS_CASTLE);
        SwapSquares(c.rookFrom, c.rookTo);
        Toggle(stm, ROOK, c.mask);
      case _ =>
    }

    /** `undo_move`: pop the last entry, pass the turn back, restore the
        snapshot and reverse the board edits. */
    method UndoMove()
      requires Valid() && Undoable(Model(), Intended)
      modifies this, pieces, sides, squares
      ensures Valid() && Model() == UnmakeMove(t, old(Model()), Intended)
    {
      var opp := sideToMove;
      var e := stack[|stack| - 1];
      stack := stack[..|stack| - 1];
      sideToMove := Other(opp);
      state := e.state;
      UnplaceMove(opp, e.m, e.movedPc, e.capturedPc);
    }

    /* ---------------- Null moves ---------------- */

    /** `do_null`: pass the turn without moving; the token holds what
        `undo_null` restores. */
    method DoNull() returns (token: (bv16, bv64))
      modifies this`nulls, this`state, this`sideToMove
      ensures (token, Model()) == MakeNull(t, old(Model()))
    {
      nulls := nulls + 1;
      var enp := state.enPassantSq;
      var hash := state.zobrist;
      if enp > 0 {
        state := state.(zobrist := Xor(state.zobrist, t.epKey(EpFile(enp))));
      }
      state := state.(enPassantSq := 0);
      sideToMove := Other(sideToMove);
      state := state.(zobrist := Xor(state.zobrist, t.sideKey));
      token := (enp, hash);
    }

    /** `undo_null` (the depth count is unsigned, so there must be a null
        move to undo). */
    method UndoNull(token: (bv16, bv64))
      requires nulls > 0
      modifies this`nulls, this`state, this`sideToMove
      ensures Model() == UnmakeNull(old(Model()), token)
    {
      nulls := nulls - 1;
      state := state.(zobrist := token.1);
      state := state.(enPassantSq := token.0);
      sideToMove := Other(sideToMove);
    }

    /* ---------------- Queries ---------------- */

    /** `is_draw_by_repetition`: scan the history two plies at a time,
        newest first, and stop as soon as the count reaches `num` (a `u8`). */
    method IsDrawByRepetition(num: nat) returns (r: bool)
      requires num < 256
      ensures r == Queries.DrawByRepetition(Model(), num)
    {
      var l := |stack|;
      if l < 6 || nulls > 0 {
        return false;
      }
      // `l - clock` wraps when the clock exceeds the history, landing far
      // above 1024, where the clamp resets it.
      var from := if state.halfmoveClock > l then 0 else l - state.halfmoveClock;
      if from > 1024 {
        from := 0;
      }
      var z := state.zobrist;
      var count := 1;
      var i := l - 2;
      while i >= from
        invariant from <= l && i <= l - 2 && i >= from - 2
        invariant count == 1 + Queries.MatchesDown(stack, z, from, l - 2) - Queries.MatchesDown(stack, z, from, i)
        invariant count == 1 || count < num
        decreases i
      {
        if stack[i].state.zobrist == z {
          count := count + 1;
          if count >= num {
            return true;
          }
        }
        i := i - 2;
      }
      return false;
    }

    /** `is_draw_by_50`. */
    function IsDrawBy50(): bool
      reads this`state
    {
      Queries.DrawBy50(state)
    }

    /** `is_draw_by_material`. */
    function IsDrawByMaterial(): bool
      requires Valid()
      reads this`board, this`state, pieces, sides, squares
    {
      Queries.DrawByMaterial(Arrays(), state)
    }

    /** `calc`: the phase and the two piece-square totals, from scratch. */
    method Calc() returns (phase: int, mg: int, eg: int)
      requires Valid()
      ensures phase == Queries.PhaseOf(t, board)
      ensures mg == Queries.ScoreOf(t, board, false) && eg == Queries.ScoreOf(t, board, true)
    {
      phase, mg, eg := 0, 0, 0;
      var pl := Arrays();
      var i := 0;
      while i < 2
        invariant 0 <= i <= 2
        invariant phase == Queries.PhaseSides(t, board, i)
        invariant mg == Queries.ScoreSides(t, board, false, i) && eg == Queries.ScoreSides(t, board, true, i)
      {
        var p, m, e := SideTotals(pl, i);
        phase, mg, eg := phase + p, mg + m, eg + e;
        i := i + 1;
      }
    }

    /** The body of `calc`'s outer loop: the six boards of one side. */
    method SideTotals(pl: Placement, i: Side) returns (phase: int, mg: int, eg: int)
      requires Shaped(pl)
      ensures phase == Queries.PhasePieces(t, pl, i, 6)
      ensures mg == Queries.ScorePieces(t, pl, false, i, 6) && eg == Queries.ScorePieces(t, pl, true, i, 6)
    {
      phase, mg, eg := 0, 0, 0;
      var j := 0;
      while j < 6
        invariant 0 <= j <= 6
        invariant phase == Queries.PhasePieces(t, pl, i, j)
        invariant mg == Queries.ScorePieces(t, pl, false, i, j) && eg == Queries.ScorePieces(t, pl, true, i, j)
      {
        var w, m, e := PieceTotals(pl, i, j);
        phase, mg, eg := phase + w, mg + m, eg + e;
        j := j + 1;
      }
    }

    /** One round of `calc`'s middle loop: the board of piece `j` of side `i`. */
    method PieceTotals(pl: Placement, i: Side, j: Piece) returns (w: int, mg: int, eg: int)
      requires Shaped(pl)
      ensures Queries.PhasePieces(t, pl, i, j + 1) == Queries.PhasePieces(t, pl, i, j) + w
      ensures Queries.ScorePieces(t, pl, false, i, j + 1) == Queries.ScorePieces(t, pl, false, i, j) + mg
      ensures Queries.ScorePieces(t, pl, true, i, j + 1) == Queries.ScorePieces(t, pl, true, i, j) + eg
    {
      var pcs := pl.pieces[j] & pl.sides[i];
      w := t.phaseVal(j) * Count(pcs);
      mg, eg := BoardTotals(i, j, pcs);
      Queries.PhaseStep(t, pl, i, j);
      Queries.ScoreStep(t, pl, false, i, j);
      Queries.ScoreStep(t, pl, true, i, j);
    }

    /** The innermost loop of `calc`: each piece of board `pcs`, lowest bit
        first, adds its signed piece-square values. */
    method BoardTotals(i: Side, j: Piece, pcs: bv64) returns (mg: int, eg: int)
      ensures mg == Queries.PstWalk(t, i, j, false, pcs) && eg == Queries.PstWalk(t, i, j, true, pcs)
    {
      var factor := t.sideFactor(i);
      var rest := pcs;
      mg, eg := 0, 0;
      while rest != 0
        invariant mg + Queries.PstWalk(t, i, j, false, rest) == Queries.PstWalk(t, i, j, false, pcs)
        invariant eg + Queries.PstWalk(t, i, j, true, rest) == Queries.PstWalk(t, i, j, true, pcs)
        decreases rest
      {
        PopIsLsb(rest);
        var idx: Square := Lsb(rest);
        mg := mg + factor * t.pstMg(j, Mirror(idx, i));
        eg := eg + factor * t.pstEg(j, Mirror(idx, i));
        rest := Pop(rest);
      }
    }
  }

  /** `MoveList`: a fixed buffer of 256 moves and the number in use. */
  class MoveList {
    const list: array<bv16>
    var len: nat

    ghost predicate Valid()
      reads this
    {
      list.Length == 256 && len <= 256
    }

    /** The moves pushed so far. */
    ghost function Contents(): seq<bv16>
      requires Valid()
      reads this, list
    {
      list[..len]
    }

    constructor()
      ensures Valid() && Contents() == []
    {
      list := new bv16[256];
      len := 0;
    }

    /** `push`: the buffer is not grown, so it must have room. */
    method Push(m: bv16)
      requires Valid() && len < 256
      modifies this`len, list
      ensures Valid() && Contents() == old(Contents()) + [m]
    {
      list[len] := m;
      len := len + 1;
    }
  }
}
