/** `undo_move` reverses `do_move`.  Both functions make the same XOR edits to
    the piece and side boards, so each edit meets its twin; the square cache is
    written back with what the history entry recorded; and the state is the
    snapshot the entry saved. */
module RoundTrip {
  import opened Bits
  import opened Xors
  import opened Consts
  import opened Moves
  import opened State

  /** The board arrays after `do_move`'s edits and then `undo_move`'s. */
  function Restored(t: Tables, pl: Placement, stm: Side, m: bv16, d: Dispatch): (r: Placement)
    requires Fits(t, pl, stm, m, d)
    ensures Shaped(r)
  {
    UnmovePlacement(t, MovePlacement(t, pl, stm, m, d), Other(stm), m,
                    pl.squares[FromSq(m)], pl.squares[ToSq(m)], d)
  }

  lemma PiecesEp(t: Tables, pl: Placement, stm: Side, m: bv16, d: Dispatch)
    requires Fits(t, pl, stm, m, d) && KindOf(FlagOf(m), d) == EnPassant
    ensures Restored(t, pl, stm, m, d).pieces == pl.pieces
  {
    var a := MovePlacement(t, pl, stm, m, d);
    var from, to := FromSq(m), ToSq(m);
    var moved: Piece := pl.squares[from];
    var capt := pl.squares[to];
    var P, ft, tb := pl.pieces, FromTo(from, to), Bit(to);
    var p := Bit(EpPawnSq(to, Other(stm)));
    if capt != EMPTY {
      assert a.pieces == Flip(Flip(Flip(P, moved, ft), capt, tb), PAWN, p);
      Cancel3(P, moved, ft, capt, tb, PAWN, p);
    } else {
      assert a.pieces == Flip(Flip(P, moved, ft), PAWN, p);
      Cancel2(P, moved, ft, PAWN, p);
    }
  }

  lemma PiecesPromo(t: Tables, pl: Placement, stm: Side, m: bv16, d: Dispatch)
    requires Fits(t, pl, stm, m, d) && KindOf(FlagOf(m), d) == Promotion
    ensures Restored(t, pl, stm, m, d).pieces == pl.pieces
  {
    var a := MovePlacement(t, pl, stm, m, d);
    var from, to := FromSq(m), ToSq(m);
    var moved: Piece := pl.squares[from];
    var capt := pl.squares[to];
    var P, ft, tb := pl.pieces, FromTo(from, to), Bit(to);
    var ppc := PromoPiece(FlagOf(m));
    if capt != EMPTY {
      assert a.pieces == Flip(Flip(Flip(Flip(P, moved, ft), capt, tb), moved, tb), ppc, tb);
      Cancel4(P, moved, ft, capt, tb, moved, tb, ppc, tb);
    } else {
      assert a.pieces == Flip(Flip(Flip(P, moved, ft), moved, tb), ppc, tb);
      Cancel3(P, moved, ft, moved, tb, ppc, tb);
    }
  }

  lemma PiecesCastle(t: Tables, pl: Placement, stm: Side, m: bv16, d: Dispatch)
    requires Fits(t, pl, stm, m, d) && KindOf(FlagOf(m), d) == Castle
    ensures Restored(t, pl, stm, m, d).pieces == pl.pieces
  {
    var a := MovePlacement(t, pl, stm, m, d);
    var from, to := FromSq(m), ToSq(m);
    var moved: Piece := pl.squares[from];
    var capt := pl.squares[to];
    var P, ft, tb := pl.pieces, FromTo(from, to), Bit(to);
    var c := t.castleMove(stm, FlagOf(m) == KS_CASTLE);
    if capt != EMPTY {
      assert a.pieces == Flip(Flip(Flip(P, moved, ft), capt, tb), ROOK, c.mask);
      Cancel3(P, moved, ft, capt, tb, ROOK, c.mask);
    } else {
      assert a.pieces == Flip(Flip(P, moved, ft), ROOK, c.mask);
      Cancel2(P, moved, ft, ROOK, c.mask);
    }
  }

  lemma PiecesPlain(t: Tables, pl: Placement, stm: Side, m: bv16, d: Dispatch)
    requires Fits(t, pl, stm, m, d) && KindOf(FlagOf(m), d) in {DoublePush, Plain}
    ensures Restored(t, pl, stm, m, d).pieces == pl.pieces
  {
    var a := MovePlacement(t, pl, stm, m, d);
    var from, to := FromSq(m), ToSq(m);
    var moved: Piece := pl.squares[from];
    var capt := pl.squares[to];
    var P, ft, tb := pl.pieces, FromTo(from, to), Bit(to);
    if capt != EMPTY {
      assert a.pieces == Flip(Flip(P, moved, ft), capt, tb);
      Cancel2(P, moved, ft, capt, tb);
    } else {
      assert a.pieces == Flip(P, moved, ft);
      FlipTwice(P, moved, ft);
    }
  }

  lemma SidesEp(t: Tables, pl: Placement, stm: Side, m: bv16, d: Dispatch)
    requires Fits(t, pl, stm, m, d) && KindOf(FlagOf(m), d) == EnPassant
    ensures Restored(t, pl, stm, m, d).sides == pl.sides
  {
    var a := MovePlacement(t, pl, stm, m, d);
    var from, to := FromSq(m), ToSq(m);
    var opp := Other(stm);
    var S, ft, tb := pl.sides, FromTo(from, to), Bit(to);
    var p := Bit(EpPawnSq(to, opp));
    if pl.squares[to] != EMPTY {
      assert a.sides == Flip(Flip(Flip(S, stm, ft), opp, tb), opp, p);
      Cancel3(S, stm, ft, opp, tb, opp, p);
    } else {
      assert a.sides == Flip(Flip(S, stm, ft), opp, p);
      Cancel2(S, stm, ft, opp, p);
    }
  }

  lemma SidesCastle(t: Tables, pl: Placement, stm: Side, m: bv16, d: Dispatch)
    requires Fits(t, pl, stm, m, d) && KindOf(FlagOf(m), d) == Castle
    ensures Restored(t, pl, stm, m, d).sides == pl.sides
  {
    var a := MovePlacement(t, pl, stm, m, d);
    var from, to := FromSq(m), ToSq(m);
    var opp := Other(stm);
    var S, ft, tb := pl.sides, FromTo(from, to), Bit(to);
    var c := t.castleMove(stm, FlagOf(m) == KS_CASTLE);
    if pl.squares[to] != EMPTY {
      assert a.sides == Flip(Flip(Flip(S, stm, ft), opp, tb), stm, c.mask);
      Cancel3(S, stm, ft, opp, tb, stm, c.mask);
    } else {
      assert a.sides == Flip(Flip(S, stm, ft), stm, c.mask);
      Cancel2(S, stm, ft, stm, c.mask);
    }
  }

  /** A promotion edits piece boards only, so its side boards round-trip like
      those of any other move. */
  lemma SidesPlain(t: Tables, pl: Placement, stm: Side, m: bv16, d: Dispatch)
    requires Fits(t, pl, stm, m, d) && KindOf(FlagOf(m), d) in {DoublePush, Promotion, Plain}
    ensures Restored(t, pl, stm, m, d).sides == pl.sides
  {
    var a := MovePlacement(t, pl, stm, m, d);
    var from, to := FromSq(m), ToSq(m);
    var opp := Other(stm);
    var S, ft, tb := pl.sides, FromTo(from, to), Bit(to);
    if pl.squares[to] != EMPTY {
      assert a.sides == Flip(Flip(S, stm, ft), opp, tb);
      Cancel2(S, stm, ft, opp, tb);
    } else {
      assert a.sides == Flip(S, stm, ft);
      FlipTwice(S, stm, ft);
    }
  }

  /** Writing back the old contents of the squares a change touched undoes it. */
  lemma WriteBack(s: seq<PieceCode>, u: seq<PieceCode>, i: Square, j: Square)
    requires |s| == |u| == 64
    requires forall k :: 0 <= k < 64 && k != i as int && k != j as int ==> u[k] == s[k]
    ensures u[i := s[i]][j := s[j]] == s
  {
  }

  lemma WriteBack3(s: seq<PieceCode>, u: seq<PieceCode>, i: Square, j: Square, l: Square)
    requires |s| == |u| == 64
    requires forall k :: 0 <= k < 64 && k != i as int && k != j as int && k != l as int ==> u[k] == s[k]
    ensures u[i := s[i]][j := s[j]][l := s[l]] == s
  {
  }

  /** `squares.swap(i, j)` on the square list itself. */
  function SwapAt(s: seq<PieceCode>, i: Square, j: Square): (r: seq<PieceCode>)
    requires |s| == 64
    ensures |r| == 64
  {
    s[i := s[j]][j := s[i]]
  }

  /** A swap of two squares the writes do not touch commutes with them. */
  lemma SwapBackAt(s: seq<PieceCode>, i: int, j: int, x: PieceCode, y: PieceCode, f: int, g: int)
    requires |s| == 64 && 0 <= i < 64 && 0 <= j < 64 && 0 <= f < 64 && 0 <= g < 64
    requires f != i && f != j && g != i && g != j
    ensures var a := s[i := x][j := y];
            var b := a[f := a[g]][g := a[f]];
            var c := b[i := s[i]][j := s[j]];
            c[f := c[g]][g := c[f]] == s
  {
    var a := s[i := x][j := y];
    var b := a[f := a[g]][g := a[f]];
    var c := b[i := s[i]][j := s[j]];
    assert c == s[f := s[g]][g := s[f]];
  }

  lemma Apart(a: Square, b: Square)
    requires a != b
    ensures a as int != b as int
  {
  }

  lemma SwapBack(s: seq<PieceCode>, i: Square, j: Square, x: PieceCode, y: PieceCode, f: Square, g: Square)
    requires |s| == 64
    requires f != i && f != j && g != i && g != j
    ensures SwapAt(SwapAt(s[i := x][j := y], f, g)[i := s[i]][j := s[j]], f, g) == s
  {
    Apart(f, i); Apart(f, j); Apart(g, i); Apart(g, j);
    SwapBackAt(s, i as int, j as int, x, y, f as int, g as int);
  }

  lemma SquaresEp(t: Tables, pl: Placement, stm: Side, m: bv16, d: Dispatch)
    requires Fits(t, pl, stm, m, d) && KindOf(FlagOf(m), d) == EnPassant
    ensures Restored(t, pl, stm, m, d).squares == pl.squares
  {
    var a := MovePlacement(t, pl, stm, m, d);
    var from, to := FromSq(m), ToSq(m);
    var pwn: Square := EpPawnSq(to, Other(stm));
    var S: seq<PieceCode> := pl.squares;
    var mv: PieceCode := S[from];
    var e: PieceCode := EMPTY;
    assert a.squares == S[from := e][to := mv][pwn := e];
    WriteBack3(S, a.squares, from, to, pwn);
  }

  /** The square list a castle leaves. */
  lemma CastleForward(t: Tables, pl: Placement, stm: Side, m: bv16, d: Dispatch)
    requires Fits(t, pl, stm, m, d) && KindOf(FlagOf(m), d) == Castle
    ensures var c := t.castleMove(stm, FlagOf(m) == KS_CASTLE);
            var e: PieceCode := EMPTY;
            MovePlacement(t, pl, stm, m, d).squares ==
              SwapAt(pl.squares[FromSq(m) := e][ToSq(m) := pl.squares[FromSq(m)]], c.rookFrom, c.rookTo)
  {
  }

  /** The square list `undo_move` leaves after a castle. */
  lemma CastleBackward(t: Tables, a: Placement, opp: Side, m: bv16, moved: Piece, captured: PieceCode, d: Dispatch)
    requires Shaped(a) && KindOf(FlagOf(m), d) == Castle
    ensures var c := t.castleMove(Other(opp), FlagOf(m) == KS_CASTLE);
            UnmovePlacement(t, a, opp, m, moved, captured, d).squares ==
              SwapAt(a.squares[FromSq(m) := moved][ToSq(m) := captured], c.rookFrom, c.rookTo)
  {
  }

  lemma SquaresCastle(t: Tables, pl: Placement, stm: Side, m: bv16, d: Dispatch)
    requires Fits(t, pl, stm, m, d) && KindOf(FlagOf(m), d) == Castle
    ensures Restored(t, pl, stm, m, d).squares == pl.squares
  {
    var from, to := FromSq(m), ToSq(m);
    var c := t.castleMove(stm, FlagOf(m) == KS_CASTLE);
    var a := MovePlacement(t, pl, stm, m, d);
    CastleForward(t, pl, stm, m, d);
    CastleBackward(t, a, Other(stm), m, pl.squares[from], pl.squares[to], d);
    SwapBack(pl.squares, from, to, EMPTY, pl.squares[from], c.rookFrom, c.rookTo);
  }

  lemma SquaresOther(t: Tables, pl: Placement, stm: Side, m: bv16, d: Dispatch)
    requires Fits(t, pl, stm, m, d) && KindOf(FlagOf(m), d) in {DoublePush, Promotion, Plain}
    ensures Restored(t, pl, stm, m, d).squares == pl.squares
  {
    var a := MovePlacement(t, pl, stm, m, d);
    WriteBack(pl.squares, a.squares, FromSq(m), ToSq(m));
  }

  /** Every board view comes back, whatever kind of move it was. */
  lemma PlacementRoundTrip(t: Tables, pl: Placement, stm: Side, m: bv16, d: Dispatch)
    requires Fits(t, pl, stm, m, d)
    ensures Restored(t, pl, stm, m, d) == pl
  {
    match KindOf(FlagOf(m), d)
    case EnPassant =>
      PiecesEp(t, pl, stm, m, d);
      SidesEp(t, pl, stm, m, d);
      SquaresEp(t, pl, stm, m, d);
    case Promotion =>
      PiecesPromo(t, pl, stm, m, d);
      SidesPlain(t, pl, stm, m, d);
      SquaresOther(t, pl, stm, m, d);
    case Castle =>
      PiecesCastle(t, pl, stm, m, d);
      SidesCastle(t, pl, stm, m, d);
      SquaresCastle(t, pl, stm, m, d);
    case _ =>
      PiecesPlain(t, pl, stm, m, d);
      SidesPlain(t, pl, stm, m, d);
      SquaresOther(t, pl, stm, m, d);
  }

  /** A move `do_move` accepts leaves a position `undo_move` accepts, and
      `undo_move` then gives back the position exactly: the boards, the square
      cache, the side to move, the state, the null-move depth and the history. */
  lemma UndoAfterApply(t: Tables, b: Board, m: bv16, d: Dispatch)
    requires Fits(t, b.placement, b.sideToMove, m, d)
    ensures Undoable(ApplyMove(t, b, m, d), d)
    ensures UnmakeMove(t, ApplyMove(t, b, m, d), d) == b
  {
    var a := ApplyMove(t, b, m, d);
    PlacementRoundTrip(t, b.placement, b.sideToMove, m, d);
    assert a.stack[..|a.stack| - 1] == b.stack;
  }

  /** `do_move` on an illegal move leaves nothing behind; on a legal one it
      leaves the moved position. */
  lemma IllegalLeavesNothing(t: Tables, b: Board, m: bv16, d: Dispatch)
    requires Fits(t, b.placement, b.sideToMove, m, d)
    ensures MakeMove(t, b, m, d).0 ==> MakeMove(t, b, m, d).1 == b
    ensures !MakeMove(t, b, m, d).0 ==> MakeMove(t, b, m, d).1 == ApplyMove(t, b, m, d)
  {
    UndoAfterApply(t, b, m, d);
  }
}
