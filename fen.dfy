/** Reading a position from FEN (`parse_fen`, `src/main.rs`): the piece
    placement field, the castling field and the en-passant field.  The
    placement is read rank by rank from the eighth, each rank's characters
    from the last to the first, with a cursor that starts on h8 (63) and moves
    down one square per piece and `n` squares per digit `n`. */
module Fen {
  import opened Bits
  import opened Xors
  import opened Consts
  import opened State
  import opened Position
  import Uci

  /** `PIECES`: the piece letters, white then black, each in piece order. */
  const PIECES: string := "PNBRQKpnbrqk"

  /** The position of `c` in `PIECES`, or 6 for any other character
      (`unwrap_or(6)`, which reads an unknown letter as a black pawn). */
  function PieceIndex(c: char): (r: nat)
    ensures r < 12
  {
    match c
    case 'P' => 0
    case 'N' => 1
    case 'B' => 2
    case 'R' => 3
    case 'Q' => 4
    case 'K' => 5
    case 'p' => 6
    case 'n' => 7
    case 'b' => 8
    case 'r' => 9
    case 'q' => 10
    case 'k' => 11
    case _ => 6
  }

  /** `PieceIndex` is the first position of `c` in `PIECES`, with 6 for a
      character that is not there. */
  lemma PieceIndexIsPosition(c: char)
    ensures c in PIECES ==> PIECES[PieceIndex(c)] == c
    ensures c !in PIECES ==> PieceIndex(c) == 6
  {
  }

  /** `col`: black for indices past the white letters. */
  function Colour(i2: nat): Side
    requires i2 < 12
  {
    if i2 > 5 then BLACK else WHITE
  }

  /** `pc`: the index less six for a black letter. */
  function Kind(i2: nat): Piece
    requires i2 < 12
  {
    i2 - 6 * (if i2 > 5 then 1 else 0)
  }

  /** The squares a digit skips: its value (`parse::<usize>()`), or 8 where
      parsing fails (`unwrap_or(8)`). */
  function SkipLength(c: char): bv8
  {
    if Uci.IsDigit(c) then Uci.DigitValue(c) as bv8 else 8
  }

  /** The placement so far and the cursor `idx`. */
  datatype Cursor = Cursor(pl: Placement, idx: Square)

  /** The empty board (`[0; 6]`, `[EMPTY; 64]`, `[0; 2]`) and the cursor on
      square 63. */
  function Start(): (c: Cursor)
    ensures Shaped(c.pl)
  {
    Cursor(Placement(seq(6, _ => 0), seq(2, _ => 0), seq(64, _ => EMPTY)), 63)
  }

  /** What one character of a rank does to the board (lines 242-248): a
      piece letter (or any other character that is neither a digit nor a
      slash) is toggled into its piece and side boards at the cursor and
      written to `squares` there; a digit or a slash leaves the board alone. */
  function Put(pl: Placement, idx: Square, c: char): (r: Placement)
    requires Shaped(pl)
    ensures Shaped(r)
  {
    if c == '/' || Uci.IsDigit(c) then pl
    else
      var i2 := PieceIndex(c);
      var col, pc := Colour(i2), Kind(i2);
      Place(Toggle(pl, col, pc, Bit(idx)), idx, pc)
  }

  /** What one character of a rank does to the cursor (lines 248-251): a
      piece moves it down one square unless it is on square 0; a digit moves
      it down by its value unless that would pass below square 0; a slash is
      skipped. */
  function Advance(idx: Square, c: char): Square
  {
    if c == '/' then idx
    else if !Uci.IsDigit(c) then idx - (if idx > 0 then 1 else 0)
    else
      var len := SkipLength(c);
      idx - (if idx >= len then len else 0)
  }

  /** One character of a rank (lines 242-252). */
  function Step(cur: Cursor, c: char): (r: Cursor)
    requires Shaped(cur.pl)
    ensures Shaped(r.pl)
  {
    Cursor(Put(cur.pl, cur.idx, c), Advance(cur.idx, c))
  }

  /** The characters `cs`, one `Step` at a time from `cur`. */
  function ScanFrom(cur: Cursor, cs: string): (r: Cursor)
    requires Shaped(cur.pl)
    ensures Shaped(r.pl)
    decreases |cs|
  {
    if cs == [] then cur else Step(ScanFrom(cur, cs[..|cs| - 1]), cs[|cs| - 1])
  }

  /** `row.chars().rev()`. */
  function Reverse(s: string): (r: string)
    ensures |r| == |s|
  {
    seq(|s|, i requires 0 <= i < |s| => s[|s| - 1 - i])
  }

  /** The order in which `parse_fen` reads the characters: the ranks in the
      order given, each one backwards. */
  function Stream(rows: seq<string>): string
    decreases |rows|
  {
    if rows == [] then [] else Stream(rows[..|rows| - 1]) + Reverse(rows[|rows| - 1])
  }

  /** `split('/')`: the pieces between slashes, one more than there are
      slashes. */
  function Split(s: string): (rows: seq<string>)
    ensures |rows| >= 1
    decreases |s|
  {
    if s == [] then [[]]
    else
      var rest := Split(s[1..]);
      if s[0] == '/' then [[]] + rest else [[s[0]] + rest[0]] + rest[1..]
  }

  /** The inverse of `Split`: the pieces with a slash between each two. */
  function Join(rows: seq<string>): string
    requires |rows| >= 1
    decreases |rows|
  {
    if |rows| == 1 then rows[0] else rows[0] + "/" + Join(rows[1..])
  }

  /** The board `parse_fen` builds from the placement field. */
  function FenBoard(placement: string): (pl: Placement)
    ensures Shaped(pl)
  {
    ScanFrom(Start(), Stream(Split(placement))).pl
  }

  /* ---------------- Castling and en passant ---------------- */

  /** The castle right a character of the castling field stands for (line
      258); any other character stands for none. */
  function RightOf(c: char): bv8
  {
    match c
    case 'Q' => WHITE_QS
    case 'K' => WHITE_KS
    case 'q' => BLACK_QS
    case 'k' => BLACK_KS
    case _ => 0
  }

  function Or(x: bv8, y: bv8): bv8
  {
    x | y
  }

  /** The castle rights a castling field grants, by membership: each of the
      four rights exactly when its letter occurs, in any order and any number
      of times, and nothing else. */
  function CastleBits(castles: string): bv8
  {
    Or(Or(Or(if 'Q' in castles then WHITE_QS else 0, if 'K' in castles then WHITE_KS else 0),
          if 'q' in castles then BLACK_QS else 0),
       if 'k' in castles then BLACK_KS else 0)
  }

  lemma CastleBitsStep(cs: string, c: char)
    ensures CastleBits(cs + [c]) == Or(CastleBits(cs), RightOf(c))
  {
    assert forall x :: x in cs + [c] <==> x in cs || x == c;
  }

  /** Lines 256-259: the castling field, OR-ed in one character at a time. */
  method ParseCastles(castles: string) returns (rights: bv8)
    ensures rights == CastleBits(castles)
  {
    rights := 0;
    for i := 0 to |castles|
      invariant rights == CastleBits(castles[..i])
    {
      CastleBitsStep(castles[..i], castles[i]);
      assert castles[..i + 1] == castles[..i] + [castles[i]];
      rights := Or(rights, RightOf(castles[i]));
    }
    assert castles[..|castles|] == castles;
  }

  /** Lines 260-265: 0 for `-`, otherwise `8 * rank + file` from the second
      and first characters, with the same defaults and 16-bit wrapping as
      `sq_to_idx`. */
  function EpField(ep: string): bv16
    requires ep == "-" || |ep| >= 2
  {
    if ep == "-" then 0
    else
      var rank := Uci.ParseDigit(ep[1]) - 1;
      var file := Uci.FileIndex(ep[0]);
      8 * rank + file
  }

  /** The en-passant field is read as a square name, so every board square
      written by name reads back as itself. */
  lemma EpFieldReadsSquare(ep: string)
    requires ep != "-" && |ep| >= 2
    ensures EpField(ep) == Uci.SqToIdx(ep)
  {
  }

  lemma EpFieldRoundTrip(sq: bv16)
    requires sq < 64
    ensures EpField(Uci.IdxToSq(sq)) == sq
  {
    Uci.IdxToSqIsName(sq);
    EpFieldReadsSquare(Uci.IdxToSq(sq));
    Uci.SquareRoundTrip(sq);
  }

  /* ---------------- Splitting the placement into ranks ---------------- */

  /** Splitting and joining again gives the field back. */
  lemma {:induction false} SplitJoin(s: string)
    ensures Join(Split(s)) == s
    decreases |s|
  {
    if s != [] {
      var rest := Split(s[1..]);
      SplitJoin(s[1..]);
      if s[0] == '/' {
        assert Split(s) == [[]] + rest;
        assert Split(s)[1..] == rest;
      } else if |rest| > 1 {
        assert Split(s)[1..] == rest[1..];
      }
    }
  }

  /** No piece holds a slash. */
  lemma {:induction false} SplitNoSlash(s: string)
    ensures forall i :: 0 <= i < |Split(s)| ==> '/' !in Split(s)[i]
    decreases |s|
  {
    if s != [] {
      SplitNoSlash(s[1..]);
    }
  }

  lemma {:induction false} SplitPrefix(a: string, t: string)
    requires '/' !in a
    ensures Split(a + t) == [a + Split(t)[0]] + Split(t)[1..]
    decreases |a|
  {
    if a != [] {
      assert (a + t)[1..] == a[1..] + t;
      SplitPrefix(a[1..], t);
      var rest := Split(a[1..] + t);
      assert (a + t)[0] == a[0];
      assert Split(a + t) == [[a[0]] + rest[0]] + rest[1..];
      assert rest[0] == a[1..] + Split(t)[0];
      assert rest[1..] == Split(t)[1..];
      assert a == [a[0]] + a[1..];
      assert [a[0]] + (a[1..] + Split(t)[0]) == a + Split(t)[0];
    } else {
      assert a + t == t;
      assert a + Split(t)[0] == Split(t)[0];
      assert Split(t) == [Split(t)[0]] + Split(t)[1..];
    }
  }

  /** Joining ranks that hold no slash and splitting again gives the ranks
      back: `Split` and `Join` are inverse. */
  lemma {:induction false} JoinSplit(rows: seq<string>)
    requires |rows| >= 1 && forall i :: 0 <= i < |rows| ==> '/' !in rows[i]
    ensures Split(Join(rows)) == rows
    decreases |rows|
  {
    if |rows| == 1 {
      SplitPrefix(rows[0], []);
      assert rows[0] + [] == rows[0];
    } else {
      var rest := Join(rows[1..]);
      JoinSplit(rows[1..]);
      assert Join(rows) == rows[0] + ("/" + rest);
      SplitPrefix(rows[0], "/" + rest);
      assert ("/" + rest)[1..] == rest;
      assert rows[0] + [] == rows[0];
    }
  }

  /* ---------------- What the placement means ---------------- */

  /** The squares a character of the placement covers: one for a piece
      letter, its value for a digit, none for a slash. */
  function Width(c: char): nat
  {
    if c == '/' then 0 else if Uci.IsDigit(c) then Uci.DigitValue(c) else 1
  }

  /** The squares covered by the characters `cs`. */
  function Consumed(cs: string): nat
    decreases |cs|
  {
    if cs == [] then 0 else Consumed(cs[..|cs| - 1]) + Width(cs[|cs| - 1])
  }

  lemma {:induction false} ConsumedPrefix(cs: string, n: nat)
    requires n <= |cs|
    ensures Consumed(cs[..n]) <= Consumed(cs)
    decreases |cs|
  {
    if n == |cs| {
      assert cs[..n] == cs;
    } else {
      var init := cs[..|cs| - 1];
      assert init[..n] == cs[..n];
      ConsumedPrefix(init, n);
    }
  }

  lemma ConsumedStep(cs: string, k: nat)
    requires k < |cs|
    ensures Consumed(cs[..k + 1]) == Consumed(cs[..k]) + Width(cs[k])
  {
    assert cs[..k + 1][..k] == cs[..k];
  }

  /** A piece letter: any character that is neither a digit nor a slash. */
  predicate IsPieceChar(c: char)
  {
    c != '/' && !Uci.IsDigit(c)
  }

  /** Square `n`, for `0 <= n < 64`. */
  function SquareOf(n: int): (r: Square)
    requires 0 <= n < 64
    ensures r as int == n
  {
    if n == 0 then 0 else SquareOf(n - 1) + 1
  }

  lemma StartLockstep()
    ensures Lockstep(Start().pl)
  {
    forall sq: Square
      ensures Agrees(Start().pl, sq)
    {
      HasZero(sq);
    }
  }

  /** One bit toggled: only square `idx` changes. */
  lemma HasFlipBit(b: bv64, idx: Square, sq: Square)
    ensures Has(Xor(b, Bit(idx)), sq) == (Has(b, sq) != (sq == idx))
  {
    HasXorBit(b, idx, sq);
  }

  lemma PiecesAfterPlace(pl: Placement, col: Side, pc: Piece, idx: Square, q: Piece, sq: Square)
    requires Shaped(pl)
    ensures Has(Place(Toggle(pl, col, pc, Bit(idx)), idx, pc).pieces[q], sq) == (Has(pl.pieces[q], sq) != (q == pc && sq == idx))
  {
    var r := Place(Toggle(pl, col, pc, Bit(idx)), idx, pc);
    if q == pc {
      assert r.pieces[q] == Xor(pl.pieces[q], Bit(idx));
      HasFlipBit(pl.pieces[q], idx, sq);
    } else {
      assert r.pieces[q] == pl.pieces[q];
    }
  }

  lemma SidesAfterPlace(pl: Placement, col: Side, pc: Piece, idx: Square, s: Side, sq: Square)
    requires Shaped(pl)
    ensures Has(Place(Toggle(pl, col, pc, Bit(idx)), idx, pc).sides[s], sq) == (Has(pl.sides[s], sq) != (s == col && sq == idx))
  {
    var r := Place(Toggle(pl, col, pc, Bit(idx)), idx, pc);
    if s == col {
      assert r.sides[s] == Xor(pl.sides[s], Bit(idx));
      HasFlipBit(pl.sides[s], idx, sq);
    } else {
      assert r.sides[s] == pl.sides[s];
    }
  }

  /** The square a piece is put on agrees afterwards ... */
  lemma AgreesHere(pl: Placement, col: Side, pc: Piece, idx: Square)
    requires Shaped(pl) && Agrees(pl, idx) && pl.squares[idx] == EMPTY
    ensures Agrees(Place(Toggle(pl, col, pc, Bit(idx)), idx, pc), idx)
  {
    var r := Place(Toggle(pl, col, pc, Bit(idx)), idx, pc);
    forall q: Piece
      ensures Has(r.pieces[q], idx) <==> q == pc
    {
      PiecesAfterPlace(pl, col, pc, idx, q, idx);
    }
    SidesAfterPlace(pl, col, pc, idx, WHITE, idx);
    SidesAfterPlace(pl, col, pc, idx, BLACK, idx);
  }

  /** ... and every other square is untouched. */
  lemma AgreesElsewhere(pl: Placement, col: Side, pc: Piece, idx: Square, sq: Square)
    requires Shaped(pl) && Agrees(pl, sq) && sq != idx
    ensures Agrees(Place(Toggle(pl, col, pc, Bit(idx)), idx, pc), sq)
  {
    var r := Place(Toggle(pl, col, pc, Bit(idx)), idx, pc);
    forall q: Piece
      ensures Has(r.pieces[q], sq) == Has(pl.pieces[q], sq)
    {
      PiecesAfterPlace(pl, col, pc, idx, q, sq);
    }
    SidesAfterPlace(pl, col, pc, idx, WHITE, sq);
    SidesAfterPlace(pl, col, pc, idx, BLACK, sq);
    SameViews(pl, r, sq);
  }

  /** Two placements that look the same on `sq` agree there alike. */
  lemma SameViews(pl: Placement, r: Placement, sq: Square)
    requires Shaped(pl) && Shaped(r) && Agrees(pl, sq)
    requires r.squares[sq] == pl.squares[sq]
    requires forall q: Piece :: Has(r.pieces[q], sq) == Has(pl.pieces[q], sq)
    requires Has(r.sides[WHITE], sq) == Has(pl.sides[WHITE], sq)
    requires Has(r.sides[BLACK], sq) == Has(pl.sides[BLACK], sq)
    ensures Agrees(r, sq)
  {
  }

  /** Putting a piece on an empty square keeps the views in lockstep. */
  lemma PlaceKeepsLockstep(pl: Placement, col: Side, pc: Piece, idx: Square)
    requires Lockstep(pl) && pl.squares[idx] == EMPTY
    ensures Lockstep(Place(Toggle(pl, col, pc, Bit(idx)), idx, pc))
  {
    forall sq: Square
      ensures Agrees(Place(Toggle(pl, col, pc, Bit(idx)), idx, pc), sq)
    {
      if sq == idx {
        AgreesHere(pl, col, pc, idx);
      } else {
        AgreesElsewhere(pl, col, pc, idx, sq);
      }
    }
  }

  /** The cursor never moves up: the squares are visited from 63 downward. */
  lemma {:induction false} CursorDescends(cur: Cursor, cs: string)
    requires Shaped(cur.pl)
    ensures ScanFrom(cur, cs).idx <= cur.idx
    decreases |cs|
  {
    if cs != [] {
      CursorDescends(cur, cs[..|cs| - 1]);
    }
  }

  lemma SubAsInt(a: bv8, b: bv8)
    requires b <= a < 64 && b < 10
    ensures (a - b) as int == a as int - b as int
  {
  }

  lemma SkipIsWidth(c: char)
    requires Uci.IsDigit(c)
    ensures SkipLength(c) < 10 && SkipLength(c) as int == Width(c)
  {
  }

  /** A character that does not run past square 0 moves the cursor down by
      its width. */
  lemma AdvanceBy(idx: Square, c: char, n: nat)
    requires idx as int == 63 - n && n + Width(c) <= 63
    ensures Advance(idx, c) as int == 63 - (n + Width(c))
  {
    if c == '/' {
    } else if !Uci.IsDigit(c) {
      SubAsInt(idx, 1);
    } else {
      SkipIsWidth(c);
      SubAsInt(idx, SkipLength(c));
    }
  }

  /** While fewer than 64 squares are covered, the cursor sits just below
      the covered squares ... */
  lemma {:induction false} CursorAt(cs: string)
    requires Consumed(cs) <= 63
    ensures ScanFrom(Start(), cs).idx as int == 63 - Consumed(cs)
    decreases |cs|
  {
    if cs != [] {
      var init := cs[..|cs| - 1];
      CursorAt(init);
      AdvanceBy(ScanFrom(Start(), init).idx, cs[|cs| - 1], Consumed(init));
    }
  }

  lemma PutElsewhere(pl: Placement, idx: Square, c: char, sq: Square)
    requires Shaped(pl) && sq != idx
    ensures Put(pl, idx, c).squares[sq] == pl.squares[sq]
  {
  }

  lemma PutHere(pl: Placement, idx: Square, c: char)
    requires Shaped(pl) && IsPieceChar(c)
    ensures Put(pl, idx, c).squares[idx] == Kind(PieceIndex(c))
  {
  }

  /** ... every square below it is still empty ... */
  lemma {:induction false} BelowEmpty(cs: string, sq: Square)
    requires sq as int + Consumed(cs) <= 63
    ensures ScanFrom(Start(), cs).pl.squares[sq] == EMPTY
    decreases |cs|
  {
    if cs != [] {
      var init := cs[..|cs| - 1];
      BelowEmpty(init, sq);
      var cur := ScanFrom(Start(), init);
      if IsPieceChar(cs[|cs| - 1]) {
        CursorAt(init);
        PutElsewhere(cur.pl, cur.idx, cs[|cs| - 1], sq);
      }
    }
  }

  /** ... and the three views stay in lockstep, since every piece lands on
      an empty square. */
  lemma {:induction false} ScanLockstep(cs: string)
    requires Consumed(cs) <= 64
    ensures Lockstep(ScanFrom(Start(), cs).pl)
    decreases |cs|
  {
    if cs == [] {
      StartLockstep();
    } else {
      var init := cs[..|cs| - 1];
      ScanLockstep(init);
      if IsPieceChar(cs[|cs| - 1]) {
        CursorAt(init);
        var cur := ScanFrom(Start(), init);
        BelowEmpty(init, cur.idx);
        var i2 := PieceIndex(cs[|cs| - 1]);
        PlaceKeepsLockstep(cur.pl, Colour(i2), Kind(i2), cur.idx);
      }
    }
  }

  lemma SquareOfCursor(cs: string)
    requires Consumed(cs) <= 63
    ensures ScanFrom(Start(), cs).idx == SquareOf(63 - Consumed(cs))
  {
    CursorAt(cs);
  }

  /** What a placement says about one square: its piece code and whether
      each side's board holds it. */
  function Column(pl: Placement, sq: Square): (PieceCode, bool, bool)
    requires Shaped(pl)
  {
    (pl.squares[sq], Has(pl.sides[WHITE], sq), Has(pl.sides[BLACK], sq))
  }

  lemma PutKeepsColumn(pl: Placement, idx: Square, c: char, sq: Square)
    requires Shaped(pl) && sq != idx
    ensures Column(Put(pl, idx, c), sq) == Column(pl, sq)
  {
    if IsPieceChar(c) {
      var i2 := PieceIndex(c);
      SidesAfterPlace(pl, Colour(i2), Kind(i2), idx, WHITE, sq);
      SidesAfterPlace(pl, Colour(i2), Kind(i2), idx, BLACK, sq);
    }
  }

  /** What a piece letter writes on the cursor's square: its piece code,
      and a bit in its colour's board. */
  lemma PutColumn(pl: Placement, idx: Square, c: char)
    requires Shaped(pl) && IsPieceChar(c)
    ensures Column(Put(pl, idx, c), idx).0 == Kind(PieceIndex(c))
    ensures Has(Put(pl, idx, c).sides[Colour(PieceIndex(c))], idx) == !Has(pl.sides[Colour(PieceIndex(c))], idx)
  {
    var i2 := PieceIndex(c);
    SidesAfterPlace(pl, Colour(i2), Kind(i2), idx, Colour(i2), idx);
  }

  /** Once the cursor has passed a square, the rest of the field leaves
      that square alone. */
  lemma {:induction false} Settled(cs: string, m: nat, sq: Square)
    requires m <= |cs| && Consumed(cs) <= 64 && sq as int > 63 - Consumed(cs[..m])
    ensures Column(ScanFrom(Start(), cs).pl, sq) == Column(ScanFrom(Start(), cs[..m]).pl, sq)
    decreases |cs|
  {
    if m < |cs| {
      var init := cs[..|cs| - 1];
      assert init[..m] == cs[..m];
      ConsumedPrefix(cs, |cs| - 1);
      Settled(init, m, sq);
      if IsPieceChar(cs[|cs| - 1]) {
        ConsumedPrefix(init, m);
        CursorAt(init);
        var cur := ScanFrom(Start(), init);
        PutKeepsColumn(cur.pl, cur.idx, cs[|cs| - 1], sq);
      }
    } else {
      assert cs[..m] == cs;
    }
  }

  /** The square the `k`-th character of the field is read at. */
  lemma {:induction false} LandsAt(cs: string, k: nat)
    requires Consumed(cs) <= 64 && k < |cs| && IsPieceChar(cs[k])
    ensures Consumed(cs[..k]) <= 63
    ensures Column(ScanFrom(Start(), cs[..k + 1]).pl, SquareOf(63 - Consumed(cs[..k]))).0 == Kind(PieceIndex(cs[k]))
    ensures Has(ScanFrom(Start(), cs[..k + 1]).pl.sides[Colour(PieceIndex(cs[k]))], SquareOf(63 - Consumed(cs[..k])))
  {
    var pre := cs[..k + 1];
    assert pre[..k] == cs[..k];
    assert pre[k] == cs[k];
    ConsumedPrefix(cs, k + 1);
    var cur := ScanFrom(Start(), cs[..k]);
    SquareOfCursor(cs[..k]);
    ScanLockstep(cs[..k]);
    BelowEmpty(cs[..k], cur.idx);
    assert Agrees(cur.pl, cur.idx);
    PutColumn(cur.pl, cur.idx, cs[k]);
  }

  /** Lines 243-248: each piece letter ends up on the square below the ones
      covered before it, in its piece's board ... */
  lemma PieceLands(cs: string, k: nat)
    requires Consumed(cs) <= 64 && k < |cs| && IsPieceChar(cs[k])
    ensures Consumed(cs[..k]) <= 63
    ensures ScanFrom(Start(), cs).pl.squares[SquareOf(63 - Consumed(cs[..k]))] == Kind(PieceIndex(cs[k]))
  {
    LandsAt(cs, k);
    ConsumedStep(cs, k);
    Settled(cs, k + 1, SquareOf(63 - Consumed(cs[..k])));
  }

  /** ... and in its colour's side board. */
  lemma PieceSide(cs: string, k: nat)
    requires Consumed(cs) <= 64 && k < |cs| && IsPieceChar(cs[k])
    ensures Consumed(cs[..k]) <= 63
    ensures Has(ScanFrom(Start(), cs).pl.sides[Colour(PieceIndex(cs[k]))], SquareOf(63 - Consumed(cs[..k])))
  {
    LandsAt(cs, k);
    ConsumedStep(cs, k);
    Settled(cs, k + 1, SquareOf(63 - Consumed(cs[..k])));
  }

  /* ---------------- Ranks and files ---------------- */

  lemma {:induction false} ConsumedConcat(a: string, b: string)
    ensures Consumed(a + b) == Consumed(a) + Consumed(b)
    decreases |b|
  {
    if b == [] {
      assert a + b == a;
    } else {
      var b0 := b[..|b| - 1];
      assert (a + b)[..|a + b| - 1] == a + b0;
      ConsumedConcat(a, b0);
    }
  }

  lemma ReverseCons(s: string)
    requires s != []
    ensures Reverse(s) == [s[|s| - 1]] + Reverse(s[..|s| - 1])
  {
  }

  /** Reading a rank backwards covers as many squares as reading it
      forwards. */
  lemma {:induction false} ConsumedReverse(s: string)
    ensures Consumed(Reverse(s)) == Consumed(s)
    decreases |s|
  {
    if s != [] {
      ReverseCons(s);
      ConsumedReverse(s[..|s| - 1]);
      ConsumedConcat([s[|s| - 1]], Reverse(s[..|s| - 1]));
      assert [s[|s| - 1]][..0] == [];
    }
  }

  /** A rank of a well-formed placement covers exactly eight squares, and a
      well-formed placement has at most eight ranks. */
  predicate FullRanks(rows: seq<string>)
  {
    |rows| <= 8 && forall r :: 0 <= r < |rows| ==> Consumed(rows[r]) == 8
  }

  lemma StreamStep(rows: seq<string>, r: nat)
    requires r < |rows|
    ensures Stream(rows[..r + 1]) == Stream(rows[..r]) + Reverse(rows[r])
  {
    assert rows[..r + 1][..r] == rows[..r];
  }

  /** The ranks before the `r`-th cover `8 * r` squares. */
  lemma {:induction false} StreamConsumed(rows: seq<string>, r: nat)
    requires FullRanks(rows) && r <= |rows|
    ensures Consumed(Stream(rows[..r])) == 8 * r
  {
    if r > 0 {
      StreamConsumed(rows, r - 1);
      StreamStep(rows, r - 1);
      ConsumedConcat(Stream(rows[..r - 1]), Reverse(rows[r - 1]));
      ConsumedReverse(rows[r - 1]);
    } else {
      assert rows[..0] == [];
    }
  }

  /** The first `r` ranks are read before the others. */
  lemma {:induction false} StreamPrefix(rows: seq<string>, r: nat)
    requires r <= |rows|
    ensures Stream(rows[..r]) <= Stream(rows)
    decreases |rows| - r
  {
    if r < |rows| {
      StreamPrefix(rows, r + 1);
      StreamStep(rows, r);
    } else {
      assert rows[..r] == rows;
    }
  }

  lemma ReverseTail(row: string, i: nat)
    requires i < |row|
    ensures Reverse(row)[..|row| - 1 - i] == Reverse(row[i + 1..])
    ensures Reverse(row)[|row| - 1 - i] == row[i]
  {
  }

  /** The `i`-th character of the `r`-th rank is read with the earlier
      ranks and the rest of its own rank, backwards, before it. */
  lemma ReadBefore(rows: seq<string>, r: nat, i: nat)
    requires r < |rows| && i < |rows[r]|
    ensures |Stream(rows[..r])| + |rows[r]| - 1 - i < |Stream(rows)|
    ensures Stream(rows)[|Stream(rows[..r])| + |rows[r]| - 1 - i] == rows[r][i]
    ensures Stream(rows)[..|Stream(rows[..r])| + |rows[r]| - 1 - i] == Stream(rows[..r]) + Reverse(rows[r][i + 1..])
  {
    var before := Stream(rows[..r]);
    var row := rows[r];
    StreamStep(rows, r);
    StreamPrefix(rows, r + 1);
    ReverseTail(row, i);
    var k := |before| + |row| - 1 - i;
    assert Stream(rows)[..k] == (before + Reverse(row))[..k];
    assert (before + Reverse(row))[..k] == before + Reverse(row)[..|row| - 1 - i];
  }

  /** The files left of the `i`-th character of a full rank are the squares
      the characters before it cover. */
  lemma RankSplit(row: string, i: nat)
    requires i < |row|
    ensures Consumed(row) == Consumed(row[..i]) + Width(row[i]) + Consumed(row[i + 1..])
  {
    assert row == row[..i + 1] + row[i + 1..];
    ConsumedConcat(row[..i + 1], row[i + 1..]);
    ConsumedStep(row, i);
  }

  /** Where the `i`-th character of the `r`-th rank is read: on the square
      of file `Consumed(row[..i])` on the `8 - r`-th rank. */
  lemma ReadAt(rows: seq<string>, r: nat, i: nat)
    requires FullRanks(rows) && r < |rows| && i < |rows[r]| && IsPieceChar(rows[r][i])
    ensures Consumed(Stream(rows)) <= 64
    ensures |Stream(rows[..r])| + |rows[r]| - 1 - i < |Stream(rows)|
    ensures Consumed(Stream(rows)[..|Stream(rows[..r])| + |rows[r]| - 1 - i]) == 63 - (8 * (7 - r) + Consumed(rows[r][..i]))
  {
    StreamConsumed(rows, |rows|);
    assert rows[..|rows|] == rows;
    ReadBefore(rows, r, i);
    StreamConsumed(rows, r);
    ConsumedConcat(Stream(rows[..r]), Reverse(rows[r][i + 1..]));
    ConsumedReverse(rows[r][i + 1..]);
    RankSplit(rows[r], i);
  }

  /** A piece letter read where `n` squares are still left below the
      cursor lands on square `n`. */
  lemma LandsOn(cs: string, k: nat, n: int)
    requires Consumed(cs) <= 64 && k < |cs| && IsPieceChar(cs[k])
    requires 0 <= n < 64 && Consumed(cs[..k]) == 63 - n
    ensures ScanFrom(Start(), cs).pl.squares[SquareOf(n)] == Kind(PieceIndex(cs[k]))
    ensures Has(ScanFrom(Start(), cs).pl.sides[Colour(PieceIndex(cs[k]))], SquareOf(n))
  {
    PieceLands(cs, k);
    PieceSide(cs, k);
  }

  /** The meaning of a well-formed placement field: the piece letter in
      column `i` of the `r`-th rank listed (the eighth rank first) stands
      on file `Consumed(row[..i])` of rank `8 - r`, that is on square
      `8 * (7 - r) + Consumed(row[..i])`, in its piece code and in its
      colour's board ... */
  lemma FenPiece(placement: string, r: nat, i: nat, c: char, n: int)
    requires FullRanks(Split(placement)) && r < |Split(placement)| && i < |Split(placement)[r]|
    requires c == Split(placement)[r][i] && IsPieceChar(c)
    requires n == 8 * (7 - r) + Consumed(Split(placement)[r][..i])
    ensures 0 <= n < 64
    ensures FenBoard(placement).squares[SquareOf(n)] == Kind(PieceIndex(c))
    ensures Has(FenBoard(placement).sides[Colour(PieceIndex(c))], SquareOf(n))
  {
    var rows := Split(placement);
    var k := |Stream(rows[..r])| + |rows[r]| - 1 - i;
    ReadAt(rows, r, i);
    ReadBefore(rows, r, i);
    LandsOn(Stream(rows), k, n);
  }

  /** Only a piece letter fills a square: an occupied square is the one
      some letter was read at. */
  lemma {:induction false} OnlyLettersPlace(cs: string, sq: Square) returns (k: nat)
    requires Consumed(cs) <= 64 && ScanFrom(Start(), cs).pl.squares[sq] != EMPTY
    ensures k < |cs| && IsPieceChar(cs[k]) && Consumed(cs[..k]) == 63 - sq as int
    decreases |cs|
  {
    if cs == [] {
      assert false;
    }
    var init, c := cs[..|cs| - 1], cs[|cs| - 1];
    var cur := ScanFrom(Start(), init);
    if IsPieceChar(c) && sq as int == 63 - Consumed(init) {
      k := |cs| - 1;
    } else {
      if IsPieceChar(c) {
        CursorAt(init);
        PutElsewhere(cur.pl, cur.idx, c, sq);
      }
      k := OnlyLettersPlace(init, sq);
      assert cs[..k] == init[..k];
    }
  }

  /** Every position of the character stream is some character of some
      rank. */
  lemma {:induction false} StreamIndex(rows: seq<string>, k: nat) returns (r: nat, i: nat)
    requires k < |Stream(rows)|
    ensures r < |rows| && i < |rows[r]| && k == |Stream(rows[..r])| + |rows[r]| - 1 - i
    decreases |rows|
  {
    var init := rows[..|rows| - 1];
    if k < |Stream(init)| {
      r, i := StreamIndex(init, k);
      assert init[..r] == rows[..r];
    } else {
      r, i := |rows| - 1, |rows[|rows| - 1]| - 1 - (k - |Stream(init)|);
    }
  }

  /** ... and, conversely, every occupied square of the board holds the
      piece of a letter standing at that square's rank and file. */
  lemma FenEmpty(placement: string, sq: Square)
    requires FullRanks(Split(placement)) && FenBoard(placement).squares[sq] != EMPTY
    ensures exists r, i :: 0 <= r < |Split(placement)| && 0 <= i < |Split(placement)[r]| &&
              IsPieceChar(Split(placement)[r][i]) &&
              8 * (7 - r) + Consumed(Split(placement)[r][..i]) == sq as int &&
              FenBoard(placement).squares[sq] == Kind(PieceIndex(Split(placement)[r][i]))
  {
    var rows := Split(placement);
    StreamConsumed(rows, |rows|);
    assert rows[..|rows|] == rows;
    var k := OnlyLettersPlace(Stream(rows), sq);
    var r, i := StreamIndex(rows, k);
    ReadBefore(rows, r, i);
    ReadAt(rows, r, i);
    FenPiece(placement, r, i, rows[r][i], sq as int);
  }

  /** ... and the three views of the board it builds agree. */
  lemma FenAgrees(placement: string)
    requires FullRanks(Split(placement))
    ensures Lockstep(FenBoard(placement))
  {
    var rows := Split(placement);
    StreamConsumed(rows, |rows|);
    assert rows[..|rows|] == rows;
    ScanLockstep(Stream(rows));
  }

  /* ---------------- The imperative parse ---------------- */

  /** Lines 235-237: the empty board. */
  method ClearBoard(p: Position)
    requires p.Valid()
    modifies p`board, p.pieces, p.sides, p.squares
    ensures p.Valid() && p.board == Start().pl
  {
    forall i | 0 <= i < 6 {
      p.pieces[i] := 0;
    }
    forall i | 0 <= i < 64 {
      p.squares[i] := EMPTY;
    }
    forall i | 0 <= i < 2 {
      p.sides[i] := 0;
    }
    p.board := Start().pl;
    assert p.pieces[..] == Start().pl.pieces;
    assert p.sides[..] == Start().pl.sides;
    assert p.squares[..] == Start().pl.squares;
  }

  /** The body of the inner loop for one character other than `/`. */
  method PlaceChar(p: Position, idx: Square, ch: char) returns (next: Square)
    requires p.Valid() && ch != '/'
    modifies p`board, p.pieces, p.sides, p.squares
    ensures p.Valid() && Cursor(p.board, next) == Step(Cursor(old(p.board), idx), ch)
  {
    if !Uci.IsDigit(ch) {
      var idx2 := PieceIndex(ch);
      var col, pc := Colour(idx2), Kind(idx2);
      p.Toggle(col, pc, Bit(idx));
      p.SetSquare(idx, pc);
      next := idx - (if idx > 0 then 1 else 0);
    } else {
      var len := SkipLength(ch);
      next := idx - (if idx >= len then len else 0);
    }
  }

  /** The inner loop of lines 241-253: one rank, last character first. */
  method PlaceRow(p: Position, idx: Square, row: string, ghost done: string) returns (next: Square)
    requires p.Valid() && Cursor(p.board, idx) == ScanFrom(Start(), done)
    modifies p`board, p.pieces, p.sides, p.squares
    ensures p.Valid() && Cursor(p.board, next) == ScanFrom(Start(), done + Reverse(row))
  {
    next := idx;
    assert done + Reverse(row)[..0] == done;
    for j := |row| downto 0
      invariant p.Valid() && Cursor(p.board, next) == ScanFrom(Start(), done + Reverse(row)[..|row| - j])
    {
      var ch := row[j];
      ghost var before := done + Reverse(row)[..|row| - 1 - j];
      assert done + Reverse(row)[..|row| - j] == before + [ch];
      if ch == '/' {
        continue;
      }
      next := PlaceChar(p, next, ch);
    }
    assert Reverse(row)[..|row|] == Reverse(row);
  }

  /** Lines 235-254: the board from the placement field. */
  method ParsePlacement(p: Position, placement: string)
    requires p.Valid()
    modifies p`board, p.pieces, p.sides, p.squares
    ensures p.Valid() && p.board == FenBoard(placement)
  {
    ClearBoard(p);
    var idx: Square := 63;
    var rows := Split(placement);
    for r := 0 to |rows|
      invariant p.Valid() && Cursor(p.board, idx) == ScanFrom(Start(), Stream(rows[..r]))
    {
      idx := PlaceRow(p, idx, rows[r], Stream(rows[..r]));
      assert rows[..r + 1][..r] == rows[..r];
    }
    assert rows[..|rows|] == rows;
  }

  /** `parse_fen` for the placement, castling and en-passant fields: the
      board is rebuilt from the placement, the phase and the two
      piece-square totals are recomputed from the new board, the castle
      rights and en-passant square are set, and the history is cleared. */
  method ParseFen(p: Position, placement: string, castles: string, ep: string)
    requires p.Valid() && (ep == "-" || |ep| >= 2)
    modifies p`board, p.pieces, p.sides, p.squares, p`state, p`stack
    ensures p.Valid() && p.board == FenBoard(placement)
    ensures p.state == old(p.state).(phase := Queries.PhaseOf(p.t, p.board),
                                     mg := Queries.ScoreOf(p.t, p.board, false),
                                     eg := Queries.ScoreOf(p.t, p.board, true),
                                     castleRights := CastleBits(castles), enPassantSq := EpField(ep))
    ensures p.stack == []
  {
    ParsePlacement(p, placement);
    var rights := ParseCastles(castles);
    var enp := EpField(ep);
    var phase, mg, eg := p.Calc();
    p.state := p.state.(phase := phase, mg := mg, eg := eg, enPassantSq := enp, castleRights := rights);
    p.stack := [];
  }
}
