/** What `do_move` and `do_null` promise about the state they leave: castle
    rights only shrink, the castle hash covers exactly the lost rights, the
    half-move clock and en-passant rules, the null-move round trip, and what
    the promotion arm does under each reading of its `match`. */
module MoveRules {
  import opened Bits
  import opened Xors
  import opened Consts
  import opened Moves
  import opened State

  /* ---------------- Castle rights ---------------- */

  /** `sub` holds no right that `sup` lacks. */
  predicate RightsWithin(sub: bv8, sup: bv8)
  {
    sub & !sup == 0
  }

  lemma RestrictWithin(rights: bv8, mask: bv8)
    ensures RightsWithin(Restrict(rights, mask), rights)
  {
  }

  lemma WithinTrans(a: bv8, b: bv8, c: bv8)
    requires RightsWithin(a, b) && RightsWithin(b, c)
    ensures RightsWithin(a, c)
  {
  }

  lemma WithinRefl(a: bv8)
    ensures RightsWithin(a, a)
  {
  }

  /** The capture and king/rook-move step only masks the rights. */
  lemma CaptureShrinks(t: Tables, s: GameState, opp: Side, from: Square, to: Square, moved: Piece, captured: PieceCode)
    ensures RightsWithin(StateCapture(t, s, opp, from, to, moved, captured).castleRights, s.castleRights)
  {
    var s1 :=
      if captured != EMPTY then
        var c := RemovePiece(t, s, to, opp, captured);
        var c' := c.(phase := c.phase - t.phaseVal(captured));
        if captured == ROOK then c'.(castleRights := Restrict(c'.castleRights, t.castleMask(to))) else c'
      else s;
    if captured != EMPTY && captured == ROOK {
      RestrictWithin(s.castleRights, t.castleMask(to));
    } else {
      WithinRefl(s.castleRights);
    }
    if moved == KING || moved == ROOK {
      RestrictWithin(s1.castleRights, t.castleMask(from));
      WithinTrans(StateCapture(t, s, opp, from, to, moved, captured).castleRights, s1.castleRights, s.castleRights);
    }
  }

  /** `do_move` never grants a castle right: every step of it either keeps the
      rights or ANDs them with a mask. */
  lemma RightsOnlyShrink(t: Tables, pl: Placement, stm: Side, s: GameState, m: bv16, d: Dispatch)
    requires Fits(t, pl, stm, m, d)
    ensures RightsWithin(MoveGameState(t, stm, s, m, pl.squares[FromSq(m)], pl.squares[ToSq(m)], d).castleRights, s.castleRights)
  {
    var from, to := FromSq(m), ToSq(m);
    var moved: Piece := pl.squares[from];
    var s1 := StateStart(t, s, stm, from, to, moved);
    var s2 := StateCapture(t, s1, Other(stm), from, to, moved, pl.squares[to]);
    var s3 := StateSpecial(t, s2, stm, m, moved, d);
    assert s1.castleRights == s.castleRights;
    CaptureShrinks(t, s1, Other(stm), from, to, moved, pl.squares[to]);
    assert s3.castleRights == s2.castleRights;
  }

  /** Right bit `i` (as a mask). */
  function RightBit(i: bv8): bv8
    requires i < 8
  {
    1 << i
  }

  /** `changed` holds no right below bit `i`. */
  predicate NoneBelow(changed: bv8, i: bv8)
    requires i <= 8
  {
    changed & ((1 << i) - 1) == 0
  }

  /** The reference castle hash: `castleKey(rights, bit)` XORed over the right
      bits of `changed` from bit `i` up, each bit once. */
  function CastleKeysFrom(t: Tables, rights: bv8, changed: bv8, i: bv8): bv64
    requires i <= 8
    decreases 8 - i
  {
    if i == 8 then 0
    else
      var rest := CastleKeysFrom(t, rights, changed, i + 1);
      if changed & RightBit(i) != 0 then Xor(t.castleKey(rights, RightBit(i)), rest) else rest
  }

  lemma NoneBelowEight(changed: bv8)
    requires NoneBelow(changed, 8)
    ensures changed == 0
  {
  }

  /** Without bit `i`, nothing below `i + 1` either. */
  lemma NoneBelowNext(changed: bv8, i: bv8)
    requires i < 8 && NoneBelow(changed, i) && changed & RightBit(i) == 0
    ensures NoneBelow(changed, i + 1)
  {
  }

  /** With bit `i` the lowest, `changed & -changed` is that bit and `pop!`
      clears exactly it. */
  lemma LowestAt(changed: bv8, i: bv8)
    requires i < 8 && NoneBelow(changed, i) && changed & RightBit(i) != 0
    ensures LowBit(changed) == RightBit(i)
    ensures PopLow(changed) == changed & !RightBit(i)
    ensures NoneBelow(PopLow(changed), i + 1)
  {
  }

  /** The reference sum reads only bits `j >= i`. */
  lemma {:induction false} KeysFromAbove(t: Tables, rights: bv8, c1: bv8, c2: bv8, i: bv8)
    requires i <= 8
    requires forall j: bv8 :: i <= j < 8 ==> (c1 & RightBit(j) != 0) == (c2 & RightBit(j) != 0)
    ensures CastleKeysFrom(t, rights, c1, i) == CastleKeysFrom(t, rights, c2, i)
    decreases 8 - i
  {
    if i < 8 {
      KeysFromAbove(t, rights, c1, c2, i + 1);
    }
  }

  lemma ClearedBitsAbove(changed: bv8, i: bv8, j: bv8)
    requires i < j < 8
    ensures (changed & !RightBit(i)) & RightBit(j) == changed & RightBit(j)
  {
  }

  /** The engine's lowest-bit-first loop XORs in exactly the reference keys. */
  lemma {:induction false} CastleFoldFrom(t: Tables, rights: bv8, changed: bv8, i: bv8)
    requires i <= 8 && NoneBelow(changed, i)
    ensures CastleFold(t, rights, changed) == CastleKeysFrom(t, rights, changed, i)
    decreases 8 - i
  {
    if i == 8 {
      NoneBelowEight(changed);
    } else if changed & RightBit(i) == 0 {
      NoneBelowNext(changed, i);
      CastleFoldFrom(t, rights, changed, i + 1);
    } else {
      LowestAt(changed, i);
      var popped := PopLow(changed);
      CastleFoldFrom(t, rights, popped, i + 1);
      forall j: bv8 | i + 1 <= j < 8
        ensures (popped & RightBit(j) != 0) == (changed & RightBit(j) != 0)
      {
        ClearedBitsAbove(changed, i, j);
      }
      KeysFromAbove(t, rights, popped, changed, i + 1);
    }
  }

  /** Lines 178-183: the castle-hash loop ends, and XORs one key per right
      lost in the move (`rights & !new_rights`), no key twice and no other. */
  lemma CastleHashPerLostRight(t: Tables, rights: bv8, now: bv8)
    ensures CastleFold(t, rights, Lost(rights, now)) == CastleKeysFrom(t, rights, Lost(rights, now), 0)
  {
    CastleFoldFrom(t, rights, Lost(rights, now), 0);
  }

  /* ---------------- Clock, en passant, side ---------------- */

  /** Line 186: the half-move clock restarts after a pawn move or a move
      flagged `CAPTURE` and counts up otherwise.  En-passant and promotion
      captures carry flags of their own but still restart it, since the
      mover is a pawn. */
  lemma HalfmoveRule(t: Tables, pl: Placement, stm: Side, s: GameState, m: bv16, d: Dispatch)
    requires Fits(t, pl, stm, m, d)
    ensures var moved := pl.squares[FromSq(m)];
            MoveGameState(t, stm, s, m, pl.squares[FromSq(m)], pl.squares[ToSq(m)], d).halfmoveClock ==
              (if moved == PAWN || FlagOf(m) == CAPTURE then 0 else s.halfmoveClock + 1)
  {
    var from, to := FromSq(m), ToSq(m);
    var moved: Piece := pl.squares[from];
    var s1 := StateStart(t, s, stm, from, to, moved);
    var s2 := StateCapture(t, s1, Other(stm), from, to, moved, pl.squares[to]);
    var s3 := StateSpecial(t, s2, stm, m, moved, d);
    assert s1.halfmoveClock == s.halfmoveClock;
    assert s2.halfmoveClock == s1.halfmoveClock;
    assert s3.halfmoveClock == s2.halfmoveClock;
  }

  /** Lines 129 and 154-156: after a move the en-passant square is set only by
      a double push, to the square the pawn passed over. */
  lemma EnPassantRule(t: Tables, pl: Placement, stm: Side, s: GameState, m: bv16, d: Dispatch)
    requires Fits(t, pl, stm, m, d)
    ensures MoveGameState(t, stm, s, m, pl.squares[FromSq(m)], pl.squares[ToSq(m)], d).enPassantSq ==
              (if FlagOf(m) == DBL_PUSH then DoublePushEp(ToSq(m), Other(stm)) else 0)
  {
    var from, to := FromSq(m), ToSq(m);
    var moved: Piece := pl.squares[from];
    var s1 := StateStart(t, s, stm, from, to, moved);
    var s2 := StateCapture(t, s1, Other(stm), from, to, moved, pl.squares[to]);
    var s3 := StateSpecial(t, s2, stm, m, moved, d);
    assert s1.enPassantSq == 0;
    assert s2.enPassantSq == 0;
    assert s3.enPassantSq == (if FlagOf(m) == DBL_PUSH then DoublePushEp(to, Other(stm)) else 0);
  }

  /** For a pawn pushed two ranks forward, the en-passant square is the
      square it passed: on the pawn's file, one rank behind its new square
      (from the mover's side), midway between its old and new squares. */
  lemma DoublePushEpBehind(from: Square, to: Square, stm: Side)
    requires stm == WHITE ==> to as int == from as int + 16
    requires stm == BLACK ==> from as int == to as int + 16
    ensures var ep := DoublePushEp(to, Other(stm)) as int;
            ep < 64 && 2 * ep == from as int + to as int && ep % 8 == to as int % 8 &&
            ep / 8 == if stm == WHITE then to as int / 8 - 1 else to as int / 8 + 1
  {
    var ep := DoublePushEp(to, Other(stm));
    if stm == WHITE {
      assert ep as int == to as int - 8;
    } else {
      assert ep as int == to as int + 8;
    }
  }

  /* ---------------- Null moves ---------------- */

  /** `do_null` passes the turn, deepens the null count, clears the en-passant
      square and leaves the boards and the history alone; `undo_null` with its
      token restores the position exactly. */
  lemma NullRoundTrip(t: Tables, b: Board)
    ensures var (token, a) := MakeNull(t, b);
            a.placement == b.placement && a.stack == b.stack &&
            a.nulls == b.nulls + 1 && a.state.enPassantSq == 0 &&
            a.sideToMove == Other(b.sideToMove) &&
            UnmakeNull(a, token) == b
  {
  }

  /* ---------------- The promotion arm ---------------- */

  /** As written, a queen promotion misses the promotion arm: the pawn stays on
      the destination square. */
  lemma PromotionAsWritten(t: Tables, pl: Placement, stm: Side, m: bv16)
    requires Fits(t, pl, stm, m, AsWritten)
    requires FlagOf(m) == QUEEN_PROMO && pl.squares[FromSq(m)] == PAWN
    ensures MovePlacement(t, pl, stm, m, AsWritten).squares[ToSq(m)] == PAWN
  {
  }

  /** Read as intended, every promotion, capturing or not, leaves the promoted
      piece on the destination square, as the piece chosen from bits 12-13. */
  lemma PromotionIntended(t: Tables, pl: Placement, stm: Side, m: bv16)
    requires Fits(t, pl, stm, m, Intended)
    requires FlagOf(m) & KNIGHT_PROMO != 0
    ensures MovePlacement(t, pl, stm, m, Intended).squares[ToSq(m)] == PromoPiece(FlagOf(m))
  {
  }
}
