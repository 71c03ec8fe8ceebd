/** The engine's constants and the tables it only reads.  The numeric contents
    of the Zobrist keys, the piece-square tables, the phase weights, the
    per-square castle masks, the castle rook moves and the attack test live in
    modules outside this model; here they are the fields of a `Tables` value,
    and everything proved holds whatever those fields contain. */
module Consts {
  import opened Bits

  /** Piece types, the index into `pieces`. */
  const PAWN: int := 0
  const KNIGHT: int := 1
  const BISHOP: int := 2
  const ROOK: int := 3
  const QUEEN: int := 4
  const KING: int := 5
  /** The sentinel stored in `squares` for an empty square. */
  const EMPTY: int := 6

  /** Sides, the index into `sides`. */
  const WHITE: int := 0
  const BLACK: int := 1

  type Piece = x: int | 0 <= x < 6
  /** A piece type or the empty sentinel: what `squares` holds. */
  type PieceCode = x: int | 0 <= x <= 6
  type Side = x: int | 0 <= x < 2

  /** `side ^ 1`: the other side. */
  function Other(side: Side): Side
  {
    1 - side
  }

  /** The move flags, bits 12 to 15 of a packed move. */
  const ALL_FLAGS: bv16 := 0xF000
  const QUIET: bv16 := 0x0000
  const DBL_PUSH: bv16 := 0x1000
  const KS_CASTLE: bv16 := 0x2000
  const QS_CASTLE: bv16 := 0x3000
  const CAPTURE: bv16 := 0x4000
  const EN_PASSANT: bv16 := 0x5000
  const KNIGHT_PROMO: bv16 := 0x8000
  const BISHOP_PROMO: bv16 := 0x9000
  const ROOK_PROMO: bv16 := 0xA000
  const QUEEN_PROMO: bv16 := 0xB000
  const KNIGHT_PROMO_CAPTURE: bv16 := 0xC000
  const QUEEN_PROMO_CAPTURE: bv16 := 0xF000

  /** Castle-right bits. */
  const WHITE_QS: bv8 := 8
  const WHITE_KS: bv8 := 4
  const BLACK_QS: bv8 := 2
  const BLACK_KS: bv8 := 1

  /** A castle's rook move: the mask toggled in the rook and side boards, and
      the rook's start and end squares. */
  datatype CastleMove = CastleMove(mask: bv64, rookFrom: Square, rookTo: Square)

  /** The read-only tables:
      - `pieceKey(side, piece, sq)`, `sideKey`, `epKey(file)` and
        `castleKey(rights, bit)` are the Zobrist keys (`ZVALS`);
      - `pstMg`/`pstEg(piece, sq)` the piece-square tables, indexed from
        black's point of view;
      - `sideFactor(side)` the sign each side's scores carry;
      - `phaseVal(piece)` the game-phase weight of a piece type;
      - `castleMask(sq)` the rights that survive a move from or onto `sq`;
      - `castleMove(side, kingside)` the rook move of a castle;
      - `attacked(pieces, sides, sq, side, occ)` whether `side`'s square `sq`
        is attacked by the other side, given the occupancy `occ`. */
  datatype Tables = Tables(
    pieceKey: (Side, Piece, Square) -> bv64,
    sideKey: bv64,
    epKey: bv8 -> bv64,
    castleKey: (bv8, bv8) -> bv64,
    pstMg: (Piece, Square) -> int,
    pstEg: (Piece, Square) -> int,
    sideFactor: Side -> int,
    phaseVal: Piece -> int,
    castleMask: Square -> bv8,
    castleMove: (Side, bool) -> CastleMove,
    attacked: (seq<bv64>, seq<bv64>, bv8, Side, bv64) -> bool)
}
