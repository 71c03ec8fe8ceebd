# akimbo position core in Dafny

This project models the position core of the akimbo chess engine:

- the board as three views that are kept in step: six per-piece bitboards, two per-side bitboards and a 64-entry piece-per-square cache;
- the `GameState` snapshot, which holds the Zobrist hash, the phase, the midgame and endgame piece-square totals, the en-passant square, the half-move clock and the castle rights;
- the history stack of `MoveState` entries;
- `do_move`, `undo_move`, `do_null` and `undo_null`;
- the draw queries and the from-scratch `calc`;
- the UCI square and move text: `idx_to_sq`, `sq_to_idx`, `u16_to_uci` and the search in `uci_to_u16`;
- the placement, castling and en-passant fields of `parse_fen`.

Modules and files:

- `Position` (position.dfy) holds the engine's `Position` as a class. Its `pieces`, `sides` and `squares` are arrays, and `state`, `stack`, `sideToMove` and `nulls` are fields. Its methods perform the engine's edits in place. Each method is proved to leave exactly the state given by a function of the value model below. `MoveList` is a class over a 256-entry array and a length.
- `State` (state.dfy) is that value model: what `do_move`, `undo_move`, `do_null` and `undo_null` do to a `Board` value. Each one is written as its board edits (`Placement`) and its `GameState` edits, in the engine's own order.
- `Views` (views.dfy) proves that `do_move` keeps the three board views in agreement and says what each square holds after a move.
- `Totals` (totals.dfy) proves that the phase and totals `do_move` carries forward are the ones `calc` computes on the new board.
- `RoundTrip` (roundtrip.dfy), `MoveRules` (moverules.dfy) and `Queries` (queries.dfy) prove the properties the engine relies on:
  - undoing a move restores the position exactly;
  - an illegal move leaves nothing behind;
  - castle rights only shrink, and one hash key is folded in per lost right;
  - the half-move and en-passant rules;
  - the null-move round trip;
  - the meaning of the three draw tests and of `calc`.
- `Uci` (uci.dfy) covers the square and move text and the move search of `uci_to_u16`.
- `Fen` (fen.dfy) covers the board reader of `parse_fen` and the meaning of a well-formed placement field.
- `Bits`, `Xors`, `Consts` and `Moves` provide bitboard facts, XOR algebra, the engine's constants and the packed move fields.

The tables the core only reads are the fields of a `Consts.Tables` value, and every result holds whatever those tables contain. They are:

- the Zobrist keys;
- the piece-square tables;
- the phase weights;
- the side factors;
- the per-square castle masks;
- the castle rook moves;
- the attack test `is_square_attacked`.

Where the code and its documentation part ways, the model follows the code:

- The repetition test needs at least one earlier matching position before it can answer true, even for `num <= 1`, because the count is only compared after a match.
- The digit step of the placement reader does not move the cursor at all when the skip would pass square 0, rather than clamping at 0.
- The `match flag` in `do_move` and `undo_move` is read as written and shown to miss most promotions (see Findings). The class uses the intended reading.

## Model

| member | source | states |
|---|---|---|
| Position.Position.constructor | src/position.rs:4-8 | the empty position: empty boards, white to move, zero state, no nulls, empty history |
| Position.Position.PieceAt | src/position.rs:22 | the `squares` array read at a square is the model's square cache there |
| Position.Position.Toggle | src/position.rs:86-89 | XORs the mask into the piece board and the side board; `State.ToggleTwice` shows a second identical call undoes it |
| Position.Position.Add | src/position.rs:92-97 | hashes the piece in and adds its side-signed piece-square values to mg and eg, touching nothing else |
| Position.Position.Remove | src/position.rs:100-105 | the mirror of `Add`: same hash key, values subtracted |
| State.ToggleTwice | src/position.rs:86-89 | toggling twice with the same side, piece and mask gives back the same boards |
| State.RemoveUndoesAdd | src/position.rs:92-105 | `remove` after `add` for the same square, side and piece restores the state exactly |
| State.AddUndoesRemove | src/position.rs:92-105 | `add` after `remove` restores the state exactly |
| State.AddRemoveKeep | src/position.rs:92-105 | `add` and `remove` change only the hash, mg and eg |
| Position.Position.SetSquare | src/position.rs:126-127 | writes one entry of `squares` and nothing else |
| Position.Position.SwapSquares | src/position.rs:169 | `squares.swap(i, j)` |
| Position.Position.FlipPieceBoard | src/position.rs:160-161 | XORs a mask into one piece board only |
| Position.Position.PlaceStartStep | src/position.rs:123-127 | the mover's bits leave `from` and reach `to`; `squares[from]` becomes empty and `squares[to]` the mover |
| Position.Position.PlaceCaptureStep | src/position.rs:133-136 | a captured piece's bit is cleared from the opponent's boards |
| Position.Position.PlaceSpecialStep | src/position.rs:146-175 | the en-passant, promotion and castle board edits, as `State.PlaceSpecial` gives them |
| Position.Position.PlaceMove | src/position.rs:116-175 | all board edits of `do_move` together equal `State.MovePlacement` |
| Position.Position.StateStartStep | src/position.rs:124-130 | hash and piece-square moves of the mover, the old en-passant key out, en passant cleared, side key in |
| Position.Position.StateCaptureStep | src/position.rs:133-143 | the captured piece is hashed out, its phase weight dropped, and rights are masked for a rook capture and for a king or rook move |
| Position.Position.StateSpecialStep | src/position.rs:146-175 | the state edits of the move-kind arms |
| Position.Position.PromoteStep | src/position.rs:159-165 | phase gains the promoted piece's weight; the pawn is removed and the promoted piece added on `to` |
| Position.Position.CastleRookStep | src/position.rs:168-172 | the rook's hash and piece-square terms move from its start square to its end square |
| Position.Position.HashLostRights | src/position.rs:178-183 | the loop ends, and XORs into the hash exactly the fold of one key per right in `rights & !castle_rights` |
| Position.Position.StateFinishStep | src/position.rs:178-186 | the castle hashes, then the half-move clock |
| Position.Position.StateMove | src/position.rs:122-187 | the `GameState` after `do_move` is `State.MoveGameState`; one `MoveState` holding the pre-move state is pushed; the side flips |
| Position.Position.MakeMoveSteps | src/position.rs:109-187 | the whole raw mutation of `do_move`, fields and arrays, equals `State.ApplyMove` |
| Position.Position.DoMove | src/position.rs:107-194 | returns the illegality verdict and leaves exactly the position `State.MakeMove` gives (undone when illegal) |
| Position.Position.UnplaceMove | src/position.rs:215-237 | the board edits of `undo_move` equal `State.UnmovePlacement` |
| Position.Position.UnplaceSpecialStep | src/position.rs:219-237 | the arms of `undo_move` |
| Position.Position.UndoMove | src/position.rs:197-238 | with a non-empty history, the position becomes `State.UnmakeMove` of the old one: the last entry is popped, its state restored and the side flipped |
| Position.Position.DoNull | src/position.rs:240-249 | returns the token and leaves `State.MakeNull` of the old position |
| Position.Position.UndoNull | src/position.rs:251-256 | leaves `State.UnmakeNull` of the old position with the token |
| State.ApplyMove | src/position.rs:122 | the raw mutation pushes exactly one entry holding the pre-move state, moved and captured piece, and flips the side |
| State.UnmakeMove | src/position.rs:197-214 | pops the last entry, restores its state verbatim and flips the side |
| State.StateStart | src/position.rs:128-130 | en passant is 0 after the first edits; clock and rights untouched |
| State.StateSpecial | src/position.rs:154-156 | only a double push sets en passant, to the square the pawn passed; clock and rights untouched |
| State.StateFinish | src/position.rs:178-186 | the final edits leave en passant and rights alone |
| RoundTrip.PlacementRoundTrip | src/position.rs:107-238 | for every move that fits, `undo_move`'s board edits after `do_move`'s restore pieces, sides and squares exactly |
| RoundTrip.PiecesEp | src/position.rs:147-153 | the en-passant edits and their undo cancel on the piece boards |
| RoundTrip.PiecesPromo | src/position.rs:158-166 | the promotion edits and their undo cancel on the piece boards |
| RoundTrip.PiecesCastle | src/position.rs:167-173 | the castle edits and their undo cancel on the piece boards |
| RoundTrip.PiecesPlain | src/position.rs:123-136 | quiet moves, double pushes and captures cancel on the piece boards |
| RoundTrip.SidesEp | src/position.rs:147-153 | the en-passant edits cancel on the side boards |
| RoundTrip.SidesCastle | src/position.rs:167-173 | the castle edits cancel on the side boards |
| RoundTrip.SidesPlain | src/position.rs:123-136 | the other move kinds cancel on the side boards |
| RoundTrip.SquaresEp | src/position.rs:152 | the en-passant victim's square is restored to a pawn |
| RoundTrip.CastleForward | src/position.rs:126-127 | `do_move`'s square edits for a castle are the king's move then the rook swap |
| RoundTrip.CastleBackward | src/position.rs:216-233 | `undo_move`'s square edits for a castle are the write-back then the same swap |
| RoundTrip.SquaresCastle | src/position.rs:169 | the castle's square edits cancel |
| RoundTrip.SquaresOther | src/position.rs:126-127 | the other move kinds' square edits cancel |
| RoundTrip.UndoAfterApply | src/position.rs:107-238 | after the raw mutation of any move that fits, `undo_move` may be called and gives back the whole position: boards, squares, side, state, nulls and history |
| RoundTrip.IllegalLeavesNothing | src/position.rs:189-193 | an illegal move leaves the position exactly as it was; a legal one leaves the raw mutation |
| MoveRules.CaptureShrinks | src/position.rs:138-143 | the capture and king or rook edits only clear castle-right bits |
| MoveRules.RightsOnlyShrink | src/position.rs:139 | after `do_move` the castle rights are a subset of the rights before |
| MoveRules.CastleHashPerLostRight | src/position.rs:178-183 | the castle hash folds in one key per lost right, from the lowest bit up |
| MoveRules.CastleFoldFrom | src/position.rs:179-182 | the lowest-bit-first loop order equals a scan of the eight right bits from the bottom |
| MoveRules.HalfmoveRule | src/position.rs:186 | the clock becomes 0 for a pawn move or a `CAPTURE` flag, and old + 1 otherwise |
| MoveRules.EnPassantRule | src/position.rs:129 | en passant is non-zero only after a double push, where it is the square behind the pawn |
| MoveRules.DoublePushEpBehind | src/position.rs:154-156 | for a double push of either colour, the en-passant square is on the board, in the pawn's file, halfway between `from` and `to`, one rank behind `to` from the mover's side |
| MoveRules.NullRoundTrip | src/position.rs:240-256 | `do_null` keeps the boards and history, adds one null, clears en passant and flips the side; `undo_null` with its token restores the position exactly |
| MoveRules.PromotionAsWritten | src/position.rs:158 | as written, a queen promotion leaves the pawn on the destination square |
| MoveRules.PromotionIntended | src/position.rs:158-166 | read as intended, every promotion leaves the promoted piece (bits 12-13 plus one) on the destination square |
| Moves.KindOfPromotions | src/position.rs:146-175 | the intended reading takes the promotion arm exactly for flags with bit 15 set; the written one only for `KNIGHT_PROMO` |
| Moves.UnpackPack | src/position.rs:11-14 | `from!` and `to!` recover the fields a move was packed from |
| Moves.PackUnpack | src/position.rs:11-14 | repacking a move's from, to and flag fields gives the move back |
| Queries.ScanStart | src/position.rs:262-263 | the scan starts at `len - clock` when that lies in 0..1024, and at 0 otherwise; never past the length |
| Queries.ScanStartWraps | src/position.rs:259-263 | for a stack shorter than 2^64 and an 8-bit clock, the start is `(len - clock)` taken modulo 2^64, reset to 0 when above 1024 |
| Queries.MatchesDownPositive | src/position.rs:265-269 | a positive count means some entry at an even distance below `l - 2`, within the window, holds the current hash, and conversely |
| Queries.RepetitionMeansEarlierOccurrence | src/position.rs:258-272 | for `num <= 2`, a repetition draw holds iff there are six entries, no nulls, and an earlier position of the same side to move in the window with the same hash |
| Queries.MatchesDownCounts | src/position.rs:264-270 | the loop's count is the number of indices in the scanned window, at even distance below `l - 2`, whose entry holds the current hash |
| Queries.RepetitionThresholds | src/position.rs:258-272 | a repetition draw holds iff there are six entries, no nulls, at least one earlier position of the same side to move in the window has the current hash, and 1 plus the number of such positions reaches `num` |
| Queries.NoRepetitionAfterReset | src/position.rs:262-271 | with the clock at 0 and at most 1024 history entries, no repetition is found |
| Queries.LongHistoryScansAll | src/position.rs:262-266 | with the clock at 0 and more than 1024 history entries, the clamp resets the start to 0 and every earlier entry at an even distance below `l - 2` holding the current hash counts |
| Queries.FiftyAfterMove | src/position.rs:275-277 | after a move, the fifty-move draw holds iff the mover is not a pawn, the flag is not `CAPTURE`, and the clock was at least 99 |
| Queries.DrawByMaterialMeaning | src/position.rs:283-293 | no draw with pawns or phase above 2; a draw without pawns below phase 2; at phase 2, a draw iff neither side owns all bishops and all bishops are on one colour |
| Queries.ColourMasks | src/position.rs:288 | the two masks are exactly the light and the dark squares |
| Queries.AllOneColour | src/position.rs:288 | a board within a colour mask has all its squares on that colour |
| Queries.PstWalkIsPopSum | src/position.rs:305-311 | the pop-lowest-bit walk sums the piece-square term over the board's squares |
| Queries.ScoreIsSquareSum | src/position.rs:301-311 | the walk over one piece and side equals the sum over exactly the squares that hold it |
| Views.MoveShows | src/position.rs:116-175 | on a board whose views agree, after any move the generator could produce, every square holds exactly the piece and side `After` describes: `from` empty, the mover on `to`, and the victim's square emptied, the promoted piece placed or the rook moved |
| Views.MoveKeepsLockstep | src/position.rs:116-175 | `do_move`'s board edits keep the piece boards, side boards and square cache in agreement |
| Views.DoMoveKeepsLockstep | src/position.rs:107-238 | the views stay in agreement through `do_move`, legal or taken back, and through `undo_move` of a move it made |
| Totals.TotalIsMailbox | src/position.rs:297-315 | on a board whose views agree, a total over the twelve piece-and-side boards equals the total over the square cache |
| Totals.StartedSum | src/position.rs:123-136 | the mover's and the capture's board edits move the mover's weight from `from` to `to` and take the captured piece's weight off |
| Totals.MoveSum | src/position.rs:116-175 | on the boards, a move changes any per-piece total by `MoveDelta`: the mover's weight moves, a captured piece's leaves, and the move kind adds its own |
| Totals.ScoreIsTotal | src/position.rs:299-313 | `calc`'s mg or eg total is the sum of the piece-square terms of every piece on the board |
| Totals.PhaseIsTotal | src/position.rs:299-304 | `calc`'s phase is the sum of the phase weights of every piece on the board |
| Totals.StateScore | src/position.rs:124-175 | `do_move`'s `add` and `remove` calls change the mg or eg total it carries by that same `MoveDelta` |
| Totals.StatePhase | src/position.rs:137-163 | `do_move`'s phase edits change the phase by `MoveDelta` when a pawn weighs nothing |
| Totals.MoveKeepsPhase | src/position.rs:137-163 | a phase equal to `calc`'s before a move equals `calc`'s on the new board |
| Totals.MoveKeepsScore | src/position.rs:124-175 | mg and eg totals equal to `calc`'s before a move equal `calc`'s on the new board |
| Totals.DoMoveKeepsTotals | src/position.rs:107-194 | a position whose phase and totals match `calc` still matches after `do_move`, legal or taken back |
| Position.Position.IsDrawByRepetition | src/position.rs:258-272 | the loop's answer is `Queries.DrawByRepetition` of the position |
| Position.Position.Calc | src/position.rs:297-315 | returns the phase and the mg and eg totals of the board as `Queries` defines them |
| Position.Position.SideTotals | src/position.rs:299-313 | the totals of one side's pieces |
| Position.Position.PieceTotals | src/position.rs:302-311 | one piece type's contribution to the three totals |
| Position.Position.BoardTotals | src/position.rs:305-311 | the inner `while pcs > 0` loop computes the walk sums |
| Position.MoveList.constructor | src/position.rs:53-57 | an empty list |
| Position.MoveList.Push | src/position.rs:61-64 | with room left, the listed moves become the old ones plus `m` |
| Bits.LsbFound | src/position.rs:190 | the lowest set bit is set and no lower bit is |
| Bits.PopIsLsb | src/position.rs:182 | `pop!` clears exactly the lowest set bit |
| Uci.DecimalRoundTrip | src/main.rs:175 | the rank text reads back as the number it was written from |
| Uci.IdxToSqIsName | src/main.rs:172-178 | every board index is written as a file letter and a rank digit |
| Uci.SquareRoundTrip | src/main.rs:172-187 | `sq_to_idx(idx_to_sq(idx)) == idx` for every index 0..63 |
| Uci.NameRoundTrip | src/main.rs:172-187 | every square name reads as an index below 64 that writes back as the same name |
| Uci.UnknownFileIsA | src/main.rs:181-184 | a file character outside `FILES` reads as file 0 |
| Uci.NonDigitRankIsZero | src/main.rs:185-186 | a non-digit rank parses as 0, and `0 - 1` wraps in 16 bits |
| Uci.UciText | src/main.rs:188-196 | the text is the from square of bits 6-11, the to square of bits 0-5, a promotion letter from `nbrq` by bits 12-13 only when bit 15 is set, and a space |
| Uci.TextNamesMove | src/main.rs:190-225 | every move's own text, read back, accepts that move |
| Uci.NamedMovesAgree | src/main.rs:198-222 | any move that a move's text accepts has the same from and to, and for a promotion the same promotion bits |
| Uci.FindMove | src/main.rs:214-225 | returns the first listed move whose low 12 bits match the request and, for long input, whose promotion bits match; `None` when no listed move matches |
| Uci.UciToU16 | src/main.rs:198-225 | the first listed move the text accepts; `None` where the engine panics |
| Fen.PieceIndexIsPosition | src/main.rs:230-244 | a piece letter's index is its position in `PIECES`; any other character gives 6 |
| Fen.ParseCastles | src/main.rs:256-259 | the rights are the OR of the bits of `Q`, `K`, `q` and `k` present in the field; other characters add nothing |
| Fen.CastleBitsStep | src/main.rs:257-258 | one more character ORs in its right |
| Fen.EpFieldReadsSquare | src/main.rs:260-265 | a field other than `-` reads as `8 * (rank - 1) + file`, like `sq_to_idx` |
| Fen.EpFieldRoundTrip | src/main.rs:260-265 | a square written by name reads back as itself |
| Fen.SplitJoin | src/main.rs:238 | splitting on `/` and joining again gives the field back |
| Fen.JoinSplit | src/main.rs:238 | joining slash-free ranks and splitting gives the ranks back |
| Fen.CursorDescends | src/main.rs:237-252 | the cursor never moves up from 63 |
| Fen.CursorAt | src/main.rs:246-251 | while fewer than 64 squares are covered, the cursor is 63 minus the squares covered |
| Fen.BelowEmpty | src/main.rs:235-251 | squares below the cursor are still empty |
| Fen.PlaceKeepsLockstep | src/main.rs:244-245 | putting a piece on an empty square keeps the piece, side and square views in agreement |
| Fen.ScanLockstep | src/main.rs:239-253 | a field covering at most 64 squares leaves each square either in no board or in exactly its piece's board and one side board |
| Fen.PieceLands | src/main.rs:243-247 | in a field covering at most 64 squares, each piece letter is written, as its piece code, on the square just below those covered before it |
| Fen.PieceSide | src/main.rs:243-245 | in a field covering at most 64 squares, that square is in its colour's side board |
| Fen.FenPiece | src/main.rs:238-254 | in a placement of at most eight ranks of eight squares, the letter in column `i` of the `r`-th rank lands on `8 * (7 - r)` plus the squares before it in its rank, with its piece code and colour |
| Fen.FenEmpty | src/main.rs:238-253 | conversely, every non-empty square of the board read from such a placement got there from a piece letter of the field, at the position `FenPiece` names, with that letter's piece code |
| Fen.FenAgrees | src/main.rs:235-254 | the board read from such a placement has its three views in agreement |
| Fen.ClearBoard | src/main.rs:235-237 | the arrays are emptied |
| Fen.PlaceChar | src/main.rs:242-251 | one character: a piece is toggled in and written, the cursor steps down unless at 0; a digit moves the cursor by its value only when that stays on the board |
| Fen.PlaceRow | src/main.rs:240-253 | one rank, read backwards, character by character |
| Fen.ParsePlacement | src/main.rs:234-254 | the arrays end as `FenBoard` of the placement field |
| Fen.ParseFen | src/main.rs:232-273 | the board is read from the placement; the phase and the mg and eg totals are those of `Queries` on the new board; the castle rights and en-passant square come from their fields; the history is cleared |

## Left out

- Numeric table contents (Zobrist keys, piece-square tables, phase weights, side factors, castle masks, castle rook moves) live in modules outside the model. They are fields of `Consts.Tables`, and every result holds for any contents.
- `is_square_attacked` and the slider attack generators are left abstract: the attack test is a table field. Legality is stated in terms of it.
- `is_in_check` is only the predicate `State.InCheck`; nothing about it is proved.
- The `static mut POS` global and the `unsafe` blocks. The position is one owned `Position` object.
- `MoveList::default`'s uninitialised array is a fresh array whose contents are unknown. Only the first `len` entries are ever observed.
- `i16` overflow of `phase`, `mg` and `eg` and `u8` overflow of `halfmove_clock` and `nulls` are not modelled: these are mathematical integers.
- `sq_to_idx`'s `- 1` on a rank that does not parse is modelled as 16-bit wrap-around (`0xFFFF`). A debug build would panic there instead.
- Position.Position.DoMove: the class performs the promotion arm under the intended reading of `match flag`, not as written (see Findings). So do `PlaceSpecialStep`, `PlaceMove`, `StateSpecialStep`, `StateMove`, `MakeMoveSteps`, `UnplaceMove`, `UnplaceSpecialStep` and `UndoMove`, whose contracts name `State` functions at `Intended`. The as-written reading exists only in `State`, `MoveRules`, `Views` and `Totals`, whose lemmas hold for either reading.
- Position.Position.DoMove: the class runs the board edits before the state edits. The engine interleaves them, but since each edit touches only the arrays or only `state`, the end state is the same.
- Position.Position.IsDrawBy50 and Position.Position.IsDrawByMaterial are one-line reads of `Queries.DrawBy50` and `Queries.DrawByMaterial`. Their properties are the `Queries` lemmas.
- Uci.UciToU16: the move list is passed in rather than generated by `gen_moves`. The engine's panic when nothing matches is the result `None`. The text's first four characters are required, as the slices `m[0..2]` and `m[2..4]` demand.
- Uci: strings are sequences of characters. Byte length and non-ASCII text are not modelled.
- Fen.ParseFen: it takes the placement, castling and en-passant fields as three strings instead of splitting the line on whitespace. It ignores the side-to-move, half-move and full-move fields.
- Fen.ParseFen: `eval::calc` is not part of this model. It is taken to compute what `Position::calc` computes, and the model calls `Calc` in its place. `zobrist::calc` is not part of this model either, so the hash is left as it was, and so is the half-move clock, whose field is not read.
- Totals.MoveKeepsPhase and Totals.DoMoveKeepsTotals require a pawn's phase weight to be 0. `PHASE_VALS` is not part of this model, and `do_move` never takes a promoted pawn's weight out of the phase, so the incremental phase matches `calc` only under that condition.
- Totals.DoMoveKeepsTotals: it states the totals after `do_move` only. After `undo_move` the position is the one before the move (`RoundTrip.UndoAfterApply`), so its totals match again.
- Fen.SkipLength: `is_numeric` also accepts non-ASCII numerals, which the engine then reads as 8 (`unwrap_or(8)`). The model counts only `0`-`9` as digits, so every other character is read as a piece letter.
- The UCI and search front end of main.rs (stdin loops, `run_commands`, `perft`, `go`, timing and printing) is outside the core and not modelled.

## Findings

| source | as written | input that shows it | evidently intended | confidence | as-written member | corrected member |
|---|---|---|---|---|---|---|
| src/position.rs:158 | `match flag { MoveFlags::KNIGHT_PROMO => ... }` matches only a flag equal to `KNIGHT_PROMO`, so bishop, rook and queen promotions and every capturing promotion skip the arm, leaving a pawn on the last rank | a pawn move with flag `QUEEN_PROMO` (0xB000) | every promotion flag (bit 15 set) takes the arm, which picks the piece from bits 12-13 as `(flag >> 12 & 3) + 1`, a choice that means nothing if only the knight flag can reach it | medium (the flag constants' module is not part of this model), not executed | MoveRules.PromotionAsWritten | MoveRules.PromotionIntended |
