/** The text forms the engine exchanges over UCI (`src/main.rs`): a square as
    its algebraic name ("e4"), a packed move as from-square, to-square and an
    optional promotion letter ("e7e8q"), and the lookup of a move named in that
    form among the generated moves.  Square indices and moves are `u16`, so the
    arithmetic here is 16-bit and wraps. */
module Uci {
  import opened Position

  datatype Option<T> = None | Some(value: T)

  /** `FILES`: the file letters, indexed by file. */
  const FILES: string := "abcdefgh"

  /** `PROMOS`: the promotion letters, indexed by bits 12-13 of a move. */
  const PROMOS: seq<string> := ["n", "b", "r", "q"]

  /** `PROMO_BIT`: bit 15 marks a promotion. */
  const PROMO_BIT: bv16 := 0x8000

  /** `TWELVE`: the from and to fields of a move. */
  const TWELVE: bv16 := 0x0FFF

  /** The promotion bits a move keeps for matching: bit 15 and bits 12-13
      (bit 14, the capture bit, is left out). */
  const PROMO_MATCH: bv16 := 0xB000

  /* ---------------- Decimal numbers (`to_string` and `parse`) ---------------- */

  predicate IsDigit(c: char)
  {
    '0' <= c <= '9'
  }

  function DigitChar(d: nat): (c: char)
    requires d < 10
    ensures IsDigit(c)
  {
    ('0' as int + d) as char
  }

  function DigitValue(c: char): (d: nat)
    requires IsDigit(c)
    ensures d < 10
  {
    c as int - '0' as int
  }

  /** `n.to_string()`: the decimal digits of `n`, most significant first, no
      leading zero. */
  function Decimal(n: nat): (s: string)
    ensures 1 <= |s| && forall i :: 0 <= i < |s| ==> IsDigit(s[i])
    decreases n
  {
    if n < 10 then [DigitChar(n)] else Decimal(n / 10) + [DigitChar(n % 10)]
  }

  /** The value of a string of decimal digits, most significant first. */
  function DecimalValue(s: string): nat
    requires forall i :: 0 <= i < |s| ==> IsDigit(s[i])
  {
    if s == [] then 0 else 10 * DecimalValue(s[..|s| - 1]) + DigitValue(s[|s| - 1])
  }

  /** Reading back the digits `to_string` writes gives the number again. */
  lemma {:induction false} DecimalRoundTrip(n: nat)
    ensures DecimalValue(Decimal(n)) == n
    decreases n
  {
    if n >= 10 {
      var s := Decimal(n);
      assert s[..|s| - 1] == Decimal(n / 10);
      DecimalRoundTrip(n / 10);
    }
  }

  /** One character parsed as a `u16`, defaulting to 0 when it is not a digit
      (`ch.to_string().parse::<u16>().unwrap_or(0)`). */
  function ParseDigit(c: char): (r: bv16)
    ensures r < 10
  {
    if IsDigit(c) then DigitValue(c) as bv16 else 0
  }

  /** The position of `c` in `FILES`, defaulting to 0 (`unwrap_or(0)` and
      `None => 0`). */
  function FileIndex(c: char): (r: bv16)
    ensures r < 8
  {
    if 'a' <= c <= 'h' then (c as int - 'a' as int) as bv16 else 0
  }

  /* ---------------- Squares ---------------- */

  /** `idx_to_sq`: the file letter of bits 0-2 followed by the rank number
      `(idx >> 3) + 1` in decimal.  Every `u16` has a name; only indices below
      64 name board squares. */
  function IdxToSq(idx: bv16): string
  {
    [FILES[(idx & 7) as int]] + Decimal((idx >> 3) as int + 1)
  }

  /** `sq_to_idx`: `8 * rank + file` from the first two characters, with an
      unknown file read as `a` and a non-digit rank read as 0.  The rank is
      one less than the digit, so rank character `0` (or a non-digit) wraps
      to 65535 and the sum wraps as well. */
  function SqToIdx(sq: string): bv16
    requires |sq| >= 2
  {
    var file := FileIndex(sq[0]);
    var rank := ParseDigit(sq[1]) - 1;
    8 * rank + file
  }

  /** A board square's name: a file letter and a rank digit from 1 to 8. */
  predicate IsSquareName(s: string)
  {
    |s| == 2 && 'a' <= s[0] <= 'h' && '1' <= s[1] <= '8'
  }

  lemma IdxToSqBoard(idx: bv16)
    requires idx < 64
    ensures IdxToSq(idx) == [FILES[(idx & 7) as int], DigitChar((idx >> 3) as int + 1)]
  {
  }

  /** Every board square's name is a square name. */
  lemma IdxToSqIsName(idx: bv16)
    requires idx < 64
    ensures IsSquareName(IdxToSq(idx))
  {
    IdxToSqBoard(idx);
  }

  lemma EightRankFile(idx: bv16)
    requires idx < 64
    ensures 8 * (idx >> 3) + (idx & 7) == idx
  {
  }

  lemma FileRoundTrip(f: bv16)
    requires f < 8
    ensures FileIndex(FILES[f as int]) == f
  {
  }

  lemma RankRoundTrip(r: bv16)
    requires r < 8
    ensures ParseDigit(DigitChar(r as int + 1)) - 1 == r
  {
  }

  /** Lines 172-187: naming a board square and reading the name back gives
      the square again. */
  lemma SquareRoundTrip(idx: bv16)
    requires idx < 64
    ensures SqToIdx(IdxToSq(idx)) == idx
  {
    var file, rank := idx & 7, idx >> 3;
    IdxToSqBoard(idx);
    FileRoundTrip(file);
    RankRoundTrip(rank);
    EightRankFile(idx);
  }

  /** ... and reading a square name and naming the result gives the name
      again, so the two are inverse bijections between 0..63 and the names. */
  lemma NameRoundTrip(s: string)
    requires IsSquareName(s)
    ensures SqToIdx(s) < 64 && IdxToSq(SqToIdx(s)) == s
  {
    var file, rank := FileIndex(s[0]), ParseDigit(s[1]) - 1;
    assert file < 8 && rank < 8;
    var idx := 8 * rank + file;
    assert idx & 7 == file && idx >> 3 == rank;
    IdxToSqBoard(idx);
    assert FILES[file as int] == s[0];
  }

  /** Line 181-184: a file character outside `FILES` counts as file `a`. */
  lemma UnknownFileIsA(s: string)
    requires |s| >= 2 && !('a' <= s[0] <= 'h')
    ensures SqToIdx(s) == SqToIdx(['a'] + s[1..])
  {
  }

  /** Line 185: a rank character that is not a digit counts as `0`, whose rank
      `0 - 1` wraps around. */
  lemma NonDigitRankIsZero(s: string)
    requires |s| >= 2 && !IsDigit(s[1])
    ensures SqToIdx(s) == SqToIdx([s[0], '0'] + s[2..])
    ensures SqToIdx(s) == 0xFFF8 + FileIndex(s[0])
  {
  }

  /* ---------------- Moves as text ---------------- */

  /** Bits 6-11: the from square. */
  function FromField(m: bv16): bv16
  {
    (m >> 6) & 0x3F
  }

  /** Bits 0-5: the to square. */
  function ToField(m: bv16): bv16
  {
    m & 0x3F
  }

  /** The promotion letter of `m`, empty unless bit 15 is set. */
  function PromoText(m: bv16): string
  {
    if m & PROMO_BIT > 0 then PROMOS[((m >> 12) & 0x3) as int] else ""
  }

  /** `u16_to_uci`: from square, to square, promotion letter and a trailing
      space. */
  function U16ToUci(m: bv16): string
  {
    IdxToSq(FromField(m)) + IdxToSq(ToField(m)) + PromoText(m) + " "
  }

  lemma FieldsOnBoard(m: bv16)
    ensures FromField(m) < 64 && ToField(m) < 64
  {
  }

  /** Lines 188-196: the text is the from square's name (bits 6-11), the to
      square's name (bits 0-5), a promotion letter exactly when bit 15 is set,
      chosen by bits 12-13 from `n`, `b`, `r`, `q`, and a space. */
  lemma UciText(m: bv16)
    ensures var r := U16ToUci(m);
      && |r| == (if m & PROMO_BIT != 0 then 6 else 5)
      && r[|r| - 1] == ' '
      && SqToIdx(r[0..2]) == FromField(m)
      && SqToIdx(r[2..4]) == ToField(m)
      && (m & PROMO_BIT != 0 ==> r[4] == "nbrq"[((m >> 12) & 0x3) as int])
  {
    var r := U16ToUci(m);
    FieldsOnBoard(m);
    IdxToSqBoard(FromField(m));
    IdxToSqBoard(ToField(m));
    assert r[0..2] == IdxToSq(FromField(m));
    assert r[2..4] == IdxToSq(ToField(m));
    SquareRoundTrip(FromField(m));
    SquareRoundTrip(ToField(m));
  }

  /** The move text without the trailing space, as a GUI sends it back. */
  function MoveText(m: bv16): (s: string)
    ensures U16ToUci(m) == s + " "
  {
    IdxToSq(FromField(m)) + IdxToSq(ToField(m)) + PromoText(m)
  }

  /* ---------------- Finding a move by its text ---------------- */

  /** The promotion bits a fifth character asks for (lines 204-210). */
  function PromoRequest(c: char): bv16
  {
    match c
    case 'n' => 0x8000
    case 'b' => 0x9000
    case 'r' => 0xA000
    case 'q' => 0xB000
    case _ => 0
  }

  /** `no_flags`: the from and to squares read from the first four characters,
      packed as `(from << 6) | to` in 16 bits, with the promotion bits of a
      fifth character when the text has exactly five. */
  function RequestKey(text: string): bv16
    requires |text| >= 4
  {
    var from := SqToIdx(text[0..2]);
    var to := SqToIdx(text[2..4]);
    var noFlags := Pack(from, to);
    if |text| == 5 then WithFlags(noFlags, PromoRequest(text[4])) else noFlags
  }

  /** `(from << 6) | to`, truncated to 16 bits. */
  function Pack(from: bv16, to: bv16): bv16
  {
    (from << 6) | to
  }

  /** `key |= flags`. */
  function WithFlags(key: bv16, flags: bv16): bv16
  {
    key | flags
  }

  /** `x & TWELVE`: the from and to fields. */
  function Squares(x: bv16): bv16
  {
    x & TWELVE
  }

  /** `x & !TWELVE`: the flag bits of a request. */
  function Flags(x: bv16): bv16
  {
    x & !TWELVE
  }

  /** `x & 0b1011 << 12`: the flag bits of a listed move that matching reads. */
  function PromoFlags(x: bv16): bv16
  {
    x & PROMO_MATCH
  }

  /** The test of lines 216-222 against the packed request `key`: the low
      twelve bits agree and, for text of five or more characters, the
      requested flag bits equal the move's bit 15 and bits 12-13. */
  predicate Matches(key: bv16, long: bool, um: bv16)
  {
    Squares(key) == Squares(um) && (!long || Flags(key) == PromoFlags(um))
  }

  /** Whether `text` names the move `um`. */
  predicate Accepts(text: string, um: bv16)
    requires |text| >= 4
  {
    Matches(RequestKey(text), |text| >= 5, um)
  }

  /** `uci_to_u16` once the moves are generated: the first listed move that
      the text names, or `None` where the engine panics because none does. */
  method UciToU16(text: string, moves: MoveList) returns (r: Option<bv16>)
    requires |text| >= 4 && moves.Valid()
    ensures r.Some? ==> exists k :: 0 <= k < moves.len && moves.Contents()[k] == r.value &&
                                    Accepts(text, r.value) &&
                                    forall j :: 0 <= j < k ==> !Accepts(text, moves.Contents()[j])
    ensures r.None? ==> forall k :: 0 <= k < moves.len ==> !Accepts(text, moves.Contents()[k])
  {
    var noFlags := RequestKey(text);
    r := FindMove(noFlags, |text|, moves);
  }

  /** The loop of lines 214-225 over the generated moves, for the packed
      request `noFlags` read from text of length `l`. */
  method FindMove(noFlags: bv16, l: nat, moves: MoveList) returns (r: Option<bv16>)
    requires moves.Valid()
    ensures r.Some? ==> exists k :: 0 <= k < moves.len && moves.Contents()[k] == r.value &&
                                    Matches(noFlags, l >= 5, r.value) &&
                                    forall j :: 0 <= j < k ==> !Matches(noFlags, l >= 5, moves.Contents()[j])
    ensures r.None? ==> forall k :: 0 <= k < moves.len ==> !Matches(noFlags, l >= 5, moves.Contents()[k])
  {
    ghost var listed := moves.Contents();
    var i := 0;
    while i < moves.len
      invariant 0 <= i <= moves.len
      invariant forall j :: 0 <= j < i ==> !Matches(noFlags, l >= 5, listed[j])
    {
      var um := moves.list[i];
      assert um == listed[i];
      if Squares(noFlags) == Squares(um) {
        if l < 5 {
          return Some(um);
        }
        if Flags(noFlags) == PromoFlags(um) {
          return Some(um);
        }
      }
      i := i + 1;
    }
    return None;
  }

  lemma PackFields(m: bv16)
    ensures Pack(FromField(m), ToField(m)) == Squares(m)
  {
  }

  lemma PackRequest(base: bv16, p: bv16)
    requires Squares(base) == base && Squares(p) == 0
    ensures Squares(WithFlags(base, p)) == base && Flags(WithFlags(base, p)) == p
  {
  }

  /** The promotion letter asks for exactly the promotion bits it was
      written from. */
  lemma PromoBits(m: bv16)
    requires m & PROMO_BIT != 0
    ensures Squares(PromoRequest("nbrq"[((m >> 12) & 0x3) as int])) == 0
    ensures PromoRequest("nbrq"[((m >> 12) & 0x3) as int]) == PromoFlags(m)
  {
  }

  /** The first four characters of a move's text read back as its from and
      to fields. */
  lemma TextSquares(m: bv16)
    ensures |MoveText(m)| == (if m & PROMO_BIT != 0 then 5 else 4)
    ensures Pack(SqToIdx(MoveText(m)[0..2]), SqToIdx(MoveText(m)[2..4])) == Squares(m)
  {
    var s := MoveText(m);
    var from, to := FromField(m), ToField(m);
    FieldsOnBoard(m);
    IdxToSqBoard(from);
    IdxToSqBoard(to);
    assert s[0..2] == IdxToSq(from) && s[2..4] == IdxToSq(to);
    SquareRoundTrip(from);
    SquareRoundTrip(to);
    PackFields(m);
  }

  lemma TextPromo(m: bv16)
    requires m & PROMO_BIT != 0
    ensures |MoveText(m)| == 5 && PromoRequest(MoveText(m)[4]) == PromoFlags(m)
  {
    TextSquares(m);
    assert MoveText(m)[4] == "nbrq"[((m >> 12) & 0x3) as int];
    PromoBits(m);
  }

  /** The request packs the two squares the text names and, for five
      characters, the promotion bits of the fifth. */
  lemma RequestParts(s: string, base: bv16, p: bv16)
    requires |s| >= 4 && Pack(SqToIdx(s[0..2]), SqToIdx(s[2..4])) == base
    requires |s| == 5 ==> PromoRequest(s[4]) == p
    ensures RequestKey(s) == if |s| == 5 then WithFlags(base, p) else base
  {
  }

  /** The request read back from a move's text (without the trailing space)
      has the move's from and to fields ... */
  lemma RequestSquares(m: bv16)
    ensures |MoveText(m)| >= 4 && Squares(RequestKey(MoveText(m))) == Squares(m)
  {
    TextSquares(m);
    if m & PROMO_BIT != 0 {
      TextPromo(m);
      PromoBits(m);
      RequestParts(MoveText(m), Squares(m), PromoFlags(m));
      PackRequest(Squares(m), PromoFlags(m));
    } else {
      RequestParts(MoveText(m), Squares(m), 0);
    }
  }

  /** ... and, for a promotion, its promotion bits. */
  lemma RequestFlags(m: bv16)
    requires m & PROMO_BIT != 0
    ensures |MoveText(m)| == 5 && Flags(RequestKey(MoveText(m))) == PromoFlags(m)
  {
    TextSquares(m);
    TextPromo(m);
    PromoBits(m);
    RequestParts(MoveText(m), Squares(m), PromoFlags(m));
    PackRequest(Squares(m), PromoFlags(m));
  }

  /** A move's own text (without the trailing space) names it: the search
      finds a move whenever the move is listed, so it does not panic. */
  lemma TextNamesMove(m: bv16)
    ensures |MoveText(m)| >= 4 && Accepts(MoveText(m), m)
  {
    TextSquares(m);
    RequestSquares(m);
    if m & PROMO_BIT != 0 {
      RequestFlags(m);
    }
  }

  /** Any move the text of `m` names agrees with `m` on the from and to
      squares and, when `m` promotes, on the promotion piece; a move without a
      promotion letter may also be found as a promotion on the same squares. */
  lemma NamedMovesAgree(m: bv16, um: bv16)
    requires |MoveText(m)| >= 4 && Accepts(MoveText(m), um)
    ensures Squares(um) == Squares(m)
    ensures m & PROMO_BIT != 0 ==> PromoFlags(um) == PromoFlags(m)
  {
    TextSquares(m);
    RequestSquares(m);
    if m & PROMO_BIT != 0 {
      RequestFlags(m);
    }
  }
}
