/** The opaque cursor text: `formatCursor`, `parseCursor`, `entryID` and `cursorTime`. */
module CursorTexts {
  import opened Options
  import CS = CursorScans

  /* ---- Decimal numbers ---- */

  predicate Digit(c: char) {
    '0' <= c <= '9'
  }

  function Decimal(n: nat): string {
    var last := ['0' + (n % 10) as char];
    if n < 10 then last else Decimal(n / 10) + last
  }

  predicate AllDigits(s: string) {
    forall i :: 0 <= i < |s| ==> Digit(s[i])
  }

  function Value(s: string): nat
    requires AllDigits(s)
  {
    if s == [] then 0 else Value(s[..|s| - 1]) * 10 + (s[|s| - 1] - '0') as nat
  }

  /** The largest Go `int`. */
  const MAX_INT: nat := 0x7fff_ffff_ffff_ffff

  /** `strconv.Atoi`: an optional sign and digits, within the range of `int`. */
  function Atoi(s: string): (int, bool) {
    var negative := s != [] && s[0] == '-';
    var digits := if s != [] && (s[0] == '-' || s[0] == '+') then s[1..] else s;
    if digits == [] || !AllDigits(digits) then (0, false)
    else if Value(digits) > MAX_INT + (if negative then 1 else 0) then (0, false)
    else (Value(digits) * (if negative then -1 else 1), true)
  }

  lemma {:induction false} DecimalValue(n: nat)
    ensures Decimal(n) != [] && AllDigits(Decimal(n)) && Value(Decimal(n)) == n
  {
    var last := ['0' + (n % 10) as char];
    assert Digit(last[0]) && (last[0] - '0') as nat == n % 10;
    if n < 10 {
      assert last[..0] == [];
    } else {
      DecimalValue(n / 10);
      var init := Decimal(n / 10);
      assert (init + last)[..|init|] == init;
    }
  }

  lemma {:induction false} AtoiDecimal(n: nat)
    requires n <= MAX_INT
    ensures Atoi(Decimal(n)) == (n, true)
  {
    DecimalValue(n);
    assert Digit(Decimal(n)[0]);
  }

  /* ---- Cursors ---- */

  function LastSpace(s: string): int {
    if s == [] then -1 else if s[|s| - 1] == ' ' then |s| - 1 else LastSpace(s[..|s| - 1])
  }

  lemma {:induction false} LastSpaceMeans(s: string)
    ensures -1 <= LastSpace(s) < |s|
    ensures LastSpace(s) >= 0 ==> s[LastSpace(s)] == ' '
    ensures forall i :: LastSpace(s) < i < |s| ==> s[i] != ' '
  {
    if s != [] && s[|s| - 1] != ' ' {
      LastSpaceMeans(s[..|s| - 1]);
    }
  }

  function Format(id: string, n: int): string {
    id + " " + Decimal(if n < 1 then 1 else n)
  }

  function Parse(cursor: string): (string, int) {
    LastSpaceMeans(cursor);
    var i := LastSpace(cursor);
    if i < 0 then (cursor, 1) else
    var (v, ok) := Atoi(cursor[i + 1..]);
    if ok && v > 0 then (cursor[..i], v) else (cursor, 1)
  }

  /** Parsing undoes formatting for every id, spaces included, and every occurrence number. */
  lemma {:induction false} RoundTrip(id: string, n: int)
    requires 1 <= n <= MAX_INT
    ensures Parse(Format(id, n)) == (id, n)
  {
    hide Value, Decimal, Atoi;
    var d := Decimal(n);
    DecimalValue(n);
    AtoiDecimal(n);
    assert forall i :: 0 <= i < |d| ==> Digit(d[i]) && d[i] != ' ';
    Split(id, d);
  }

  /** Digits that are a positive `int`. */
  ghost predicate Positive(d: string) {
    d != [] && (forall i :: 0 <= i < |d| ==> '0' <= d[i] <= '9') && 1 <= Value(d) <= MAX_INT
  }

  function Sign(plus: bool): string {
    if plus then "+" else ""
  }

  lemma {:induction false} AtoiReads(plus: bool, d: string)
    requires Positive(d)
    ensures Atoi(Sign(plus) + d) == (Value(d), true) && ' ' !in Sign(plus) + d
  {
    hide Value;
    var s := Sign(plus) + d;
    assert Digit(d[0]);
    assert plus ==> s[0] == '+' && s[1..] == d;
    assert !plus ==> s == d;
  }

  lemma {:induction false} AtoiPositive(s: string) returns (plus: bool, d: string)
    requires Atoi(s).1 && Atoi(s).0 > 0
    ensures s == Sign(plus) + d && Positive(d) && Value(d) == Atoi(s).0
  {
    hide Value;
    plus := s[0] == '+';
    d := if plus then s[1..] else s;
    assert s[0] != '-';
    assert forall i :: 0 <= i < |d| ==> Digit(d[i]);
  }

  /** Every text with a count after its last space, with or without a plus sign, is split there. */
  lemma {:induction false} CountIsRead(id: string, plus: bool, d: string)
    requires Positive(d)
    ensures Parse(id + " " + (Sign(plus) + d)) == (id, Value(d))
  {
    hide Atoi, Value, Sign, LastSpace;
    AtoiReads(plus, d);
    Split(id, Sign(plus) + d);
  }

  /** And every other text is an id as a whole. */
  lemma {:induction false} OtherwiseWhole(text: string) returns (id: string, plus: bool, d: string)
    ensures Parse(text) == (text, 1) || (Positive(d) && text == id + " " + (Sign(plus) + d) && Parse(text) == (id, Value(d)))
  {
    hide Atoi, Value, Sign, LastSpace, Positive;
    id, plus, d := text, false, "";
    LastSpaceMeans(text);
    var i := LastSpace(text);
    if i >= 0 {
      id := text[..i];
      var s := text[i + 1..];
      assert text == id + " " + s;
      if Atoi(s).1 && Atoi(s).0 > 0 {
        plus, d := AtoiPositive(s);
      }
    }
  }

  lemma {:induction false} Split(id: string, d: string)
    requires forall i :: 0 <= i < |d| ==> d[i] != ' '
    ensures LastSpace(id + " " + d) == |id|
    ensures (id + " " + d)[..|id|] == id && (id + " " + d)[|id| + 1..] == d
  {
    var text := id + " " + d;
    if d == [] {
      assert text[|text| - 1] == ' ';
    } else {
      Split(id, d[..|d| - 1]);
      assert text[..|text| - 1] == id + " " + d[..|d| - 1];
    }
  }

  /** So cursor texts are as good as the positions they write down. */
  lemma {:induction false} Injective(a: string, m: int, b: string, n: int)
    requires 1 <= m <= MAX_INT && 1 <= n <= MAX_INT && Format(a, m) == Format(b, n)
    ensures a == b && m == n
  {
    RoundTrip(a, m);
    RoundTrip(b, n);
  }

  /** No formatted cursor is the empty text, which stands for the start. */
  lemma {:induction false} NeverEmpty(id: string, n: int)
    ensures Format(id, n) != ""
  {
    assert |Format(id, n)| >= 1;
  }

  /* ---- The texts of ids and positions ---- */

  function Hex(n: nat): string {
    var d := n % 16;
    var last := [if d < 10 then '0' + d as char else 'a' + (d - 10) as char];
    if n < 16 then last else Hex(n / 16) + last
  }

  const HEX_DIGITS := "0123456789abcdef"

  /** Each digit is that of the table, the last one that of the remainder. */
  lemma {:induction false} HexDigits(m: nat)
    ensures Hex(m) == (if m < 16 then "" else Hex(m / 16)) + [HEX_DIGITS[m % 16]]
  {
    var d := m % 16;
    assert d < 10 ==> HEX_DIGITS[d] == '0' + d as char;
    assert d >= 10 ==> HEX_DIGITS[d] == 'a' + (d - 10) as char;
  }

  lemma {:induction false} HexMeans(m: nat)
    ensures Hex(m) != "" && (m >= 16 ==> |Hex(m)| > 1)
    ensures forall i :: 0 <= i < |Hex(m)| ==> Hex(m)[i] != ' '
  {
    if m >= 16 { HexMeans(m / 16); }
  }

  lemma {:induction false} HexInjective(m: nat, n: nat)
    requires Hex(m) == Hex(n)
    ensures m == n
  {
    HexMeans(m);
    HexMeans(n);
    assert m % 16 == n % 16 by {
      assert Hex(m)[|Hex(m)| - 1] == Hex(n)[|Hex(n)| - 1];
    }
    if m >= 16 {
      assert Hex(m / 16) == Hex(m)[..|Hex(m)| - 1];
      assert Hex(n / 16) == Hex(n)[..|Hex(n)| - 1];
      HexInjective(m / 16, n / 16);
    }
  }

  /** How instants are written: `parse` reads back what `write` wrote, and no text of an instant
      holds a space. */
  ghost predicate Clock(write: nat -> string, parse: string -> Option<nat>) {
    && parse("").None?
    && forall t: nat :: t > 0 ==> parse(write(t)) == Some(t) && ' ' !in write(t)
  }

  function Stamp(write: nat -> string, ts: nat): string {
    if ts == 0 then "" else write(ts)
  }

  /** `entryID`. */
  function IdText(write: nat -> string, id: CS.Id): string {
    Stamp(write, id.ts) + " " + Hex(id.digest)
  }

  /** The text up to the first space. */
  function FirstField(s: string): string {
    if s == "" || s[0] == ' ' then "" else [s[0]] + FirstField(s[1..])
  }

  /** `cursorTime`. */
  function TimeOf(parse: string -> Option<nat>, id: string): nat {
    var t := parse(FirstField(id));
    if t.Some? then t.value else 0
  }

  function CursorText(write: nat -> string, c: CS.Cursor): string {
    Format(IdText(write, c.id), c.n)
  }

  lemma {:induction false} FirstFieldOf(a: string, rest: string)
    requires ' ' !in a
    ensures FirstField(a + " " + rest) == a
  {
    var s := a + " " + rest;
    if a != "" {
      FirstFieldOf(a[1..], rest);
      assert s[1..] == a[1..] + " " + rest;
    }
  }

  /** The text of a position gives back the id, the count and the time the scan works with. */
  lemma {:induction false} PositionReadsBack(write: nat -> string, parse: string -> Option<nat>, c: CS.Cursor)
    requires Clock(write, parse) && 1 <= c.n <= MAX_INT
    ensures Parse(CursorText(write, c)) == (IdText(write, c.id), c.n)
    ensures TimeOf(parse, IdText(write, c.id)) == CS.CursorTime(Some(c))
  {
    RoundTrip(IdText(write, c.id), c.n);
    FirstFieldOf(Stamp(write, c.id.ts), Hex(c.id.digest));
  }

  /** Different positions have different texts, and none has the text of the start. */
  lemma {:induction false} PositionsDiffer(write: nat -> string, parse: string -> Option<nat>, c: CS.Cursor, d: CS.Cursor)
    requires Clock(write, parse) && 1 <= c.n <= MAX_INT && 1 <= d.n <= MAX_INT
    ensures CursorText(write, c) == CursorText(write, d) ==> c == d
    ensures CursorText(write, c) != ""
  {
    hide Hex, Format;
    NeverEmpty(IdText(write, c.id), c.n);
    if CursorText(write, c) == CursorText(write, d) {
      Injective(IdText(write, c.id), c.n, IdText(write, d.id), d.n);
      var a, b := Stamp(write, c.id.ts), Stamp(write, d.id.ts);
      FirstFieldOf(a, Hex(c.id.digest));
      FirstFieldOf(b, Hex(d.id.digest));
      assert a == b;
      assert Hex(c.id.digest) == IdText(write, c.id)[|a| + 1..];
      assert Hex(d.id.digest) == IdText(write, d.id)[|b| + 1..];
      HexInjective(c.id.digest, d.id.digest);
      assert write(c.id.ts) == write(d.id.ts) || c.id.ts == 0 || d.id.ts == 0;
    }
  }
}
