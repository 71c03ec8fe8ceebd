/** The packed 16-bit move of the engine: `from!`, `to!`, the flag field and
    the square arithmetic the move kinds use. */
module Moves {
  import opened Bits
  import opened Consts

  /** `from!(m)`: bits 6 to 11. */
  function FromSq(m: bv16): Square
  {
    ((m >> 6) & 63) as bv8
  }

  /** `to!(m)`: bits 0 to 5. */
  function ToSq(m: bv16): Square
  {
    (m & 63) as bv8
  }

  /** `m & MoveFlags::ALL`: bits 12 to 15. */
  function FlagOf(m: bv16): bv16
  {
    m & ALL_FLAGS
  }

  /** The packing the move generator uses: flag, then from, then to. */
  function Pack(from: Square, to: Square, flag: bv16): bv16
  {
    (flag & ALL_FLAGS) | ((from as bv16) << 6) | (to as bv16)
  }

  /** The decoders read back exactly what was packed. */
  lemma UnpackPack(from: Square, to: Square, flag: bv16)
    ensures FromSq(Pack(from, to, flag)) == from
    ensures ToSq(Pack(from, to, flag)) == to
    ensures FlagOf(Pack(from, to, flag)) == flag & ALL_FLAGS
  {
  }

  /** Every move is the packing of its three fields. */
  lemma PackUnpack(m: bv16)
    ensures Pack(FromSq(m), ToSq(m), FlagOf(m)) == m
  {
  }

  /** The promotion piece of a promotion flag: bits 12 and 13 plus one, so
      knight, bishop, rook or queen. */
  function PromoPiece(flag: bv16): (p: Piece)
    ensures KNIGHT <= p <= QUEEN
  {
    (((flag >> 12) & 3) as int) + 1
  }

  /** How the `match flag` of `do_move` and `undo_move` is read.  `AsWritten`
      takes the promotion arm only for a flag equal to `KNIGHT_PROMO`, as a
      match on a constant does; `Intended` takes it for every promotion flag
      (bit 15 set), which is what the arm's own choice of piece from bits 12 and
      13 is written for. */
  datatype Dispatch = AsWritten | Intended

  datatype Kind = EnPassant | DoublePush | Promotion | Castle | Plain

  function KindOf(flag: bv16, d: Dispatch): Kind
  {
    if flag == EN_PASSANT then EnPassant
    else if flag == DBL_PUSH then DoublePush
    else if (if d == AsWritten then flag == KNIGHT_PROMO else flag & KNIGHT_PROMO != 0) then Promotion
    else if flag == KS_CASTLE || flag == QS_CASTLE then Castle
    else Plain
  }

  /** Under the intended reading every promotion flag, with or without a
      capture, takes the promotion arm, and nothing else does. */
  lemma KindOfPromotions(flag: bv16)
    requires flag & ALL_FLAGS == flag
    ensures (KindOf(flag, Intended) == Promotion) == (flag & KNIGHT_PROMO != 0)
    ensures KindOf(flag, AsWritten) == Promotion ==> flag == KNIGHT_PROMO
  {
  }

  /** The file of an en-passant square (`& 7`), the index of its hash key. */
  function EpFile(sq: bv16): bv8
  {
    (sq & 7) as bv8
  }

  /** The file of a board square. */
  function FileOf(sq: Square): bv8
  {
    sq & 7
  }

  /** The mask of a move's source and destination squares. */
  function FromTo(from: Square, to: Square): bv64
  {
    Bit(from) | Bit(to)
  }

  /** Castle rights after `&=` with a mask. */
  function Restrict(rights: bv8, mask: bv8): bv8
  {
    rights & mask
  }

  /** The rights held in `before` and not in `after`. */
  function Lost(before: bv8, after: bv8): bv8
  {
    before & !after
  }

  /** `x & x.wrapping_neg()`: the lowest set bit of `x`. */
  function LowBit(x: bv8): bv8
  {
    x & -x
  }

  /** `pop!(x)`: `x` without its lowest set bit, which is smaller. */
  function PopLow(x: bv8): (r: bv8)
    ensures x != 0 ==> r < x
  {
    x & (x - 1)
  }

  /** The square of the pawn an en-passant capture takes: behind the
      destination, from the mover's point of view. */
  function EpPawnSq(to: Square, opp: Side): bv8
  {
    if opp == WHITE then to + 8 else to - 8
  }

  /** Whether `EpPawnSq` stays on the board (the engine's `usize` arithmetic
      would overflow or index out of range otherwise). */
  predicate EpPawnOnBoard(to: Square, opp: Side)
  {
    if opp == WHITE then to < 56 else to >= 8
  }

  /** The en-passant square a double push leaves: the square the pawn passed. */
  function DoublePushEp(to: Square, opp: Side): bv16
  {
    if opp == BLACK then (to as bv16) - 8 else (to as bv16) + 8
  }
}
