/** Journal file names: `unitFileName`, `encodeReservedFileName`, `decodeUnitFileName` and
`retainedDiskName`.

A character below 256 is a byte of the name. Canonical names are trimmed and lower case; case
folding covers ASCII. */
module FileNames {
  import opened Options
  import Names

  /** The archive generations beside the current file. */
  const KEEP: nat := 3

  function CanonicalUnit(unit: string): string {
    Names.Lower(Names.Trim(unit))
  }

  /* ---- Percent escapes ---- */

  predicate Safe(c: char) {
    'a' <= c <= 'z' || 'A' <= c <= 'Z' || '0' <= c <= '9' || c in "-_.@"
  }

  function HexDigit(n: int): char
    requires 0 <= n < 16
  {
    if n < 10 then '0' + n as char else 'A' + (n - 10) as char
  }

  function Hex(c: char): string {
    ['%', HexDigit(c as int / 16 % 16), HexDigit(c as int % 16)]
  }

  predicate IsHex(c: char) {
    '0' <= c <= '9' || 'A' <= c <= 'F' || 'a' <= c <= 'f'
  }

  function HexValue(c: char): int
    requires IsHex(c)
  {
    if c <= '9' then c as int - '0' as int else if c <= 'F' then c as int - 'A' as int + 10 else c as int - 'a' as int + 10
  }

  function Encode(unit: string): string {
    if unit == "" then "" else (if Safe(unit[0]) then [unit[0]] else Hex(unit[0])) + Encode(unit[1..])
  }

  predicate EscapeAhead(name: string) {
    |name| > 2 && name[0] == '%' && IsHex(name[1]) && IsHex(name[2])
  }

  /** What the decoder makes of a name without its suffix. */
  function Decoded(name: string): string {
    if name == "" then ""
    else if EscapeAhead(name) then [(HexValue(name[1]) * 16 + HexValue(name[2])) as char] + Decoded(name[3..])
    else [name[0]] + Decoded(name[1..])
  }

  /* ---- Device names ---- */

  predicate ReservedDevice(stem: string) {
    var s := Names.Lower(stem);
    || s in {"con", "prn", "aux", "nul"}
    || (|s| == 4 && s[..3] in {"com", "lpt"} && '1' <= s[3] <= '9')
  }

  function Stem(name: string): string {
    if name == "" || name[0] == '.' then "" else [name[0]] + Stem(name[1..])
  }

  predicate EndsDotted(name: string) {
    name != "" && (name[|name| - 1] == '.' || name[|name| - 1] == ' ')
  }

  function Undotted(name: string): string {
    if EndsDotted(name) then name[..|name| - 1] + Hex(name[|name| - 1]) else name
  }

  function Protected(name: string): string {
    var n := Undotted(name);
    if ReservedDevice(Stem(n)) && n != "" then Hex(n[0]) + n[1..] else n
  }

  const UNKNOWN := "_unknown"
  const SUFFIX := ".log"

  /** Names whose encoding no file of their own can have. */
  predicate Dots(name: string) {
    name == "" || name == "." || name == ".."
  }

  function FileName(unit: string): string {
    var name := Encode(CanonicalUnit(unit));
    (if Dots(name) then UNKNOWN else Protected(name)) + SUFFIX
  }

  function ArchiveSuffix(generation: nat): string
    requires generation <= KEEP
  {
    ['.', '0' + generation as char]
  }

  function DiskName(unit: string, generation: nat): string
    requires generation <= KEEP
  {
    if generation == 0 then FileName(unit) else FileName(unit) + ArchiveSuffix(generation)
  }

  /* ---- The loops ---- */

  /** The encoding of the first `i` characters is done. */
  predicate Encoding(u: string, i: nat, b: string)
    requires i <= |u|
  {
    b + Encode(u[i..]) == Encode(u)
  }

  lemma {:induction false} EncodeStep(u: string, i: nat, b: string)
    requires i < |u| && Encoding(u, i, b)
    ensures Encoding(u, i + 1, b + if Safe(u[i]) then [u[i]] else Hex(u[i]))
  {
    hide Hex, Safe;
    assert u[i..][1..] == u[i + 1..];
  }

  lemma {:induction false} EncodeEnds(u: string)
    ensures Encoding(u, 0, "") && forall b :: Encoding(u, |u|, b) ==> b == Encode(u)
  {
    assert u[0..] == u && u[|u|..] == "";
    forall b | Encoding(u, |u|, b) ensures b == Encode(u) { assert b + "" == b; }
  }

  method EncodeBytes(u: string) returns (b: string)
    ensures b == Encode(u)
  {
    hide Encode, Encoding, Hex, Safe;
    b := "";
    EncodeEnds(u);
    for i := 0 to |u|
      invariant Encoding(u, i, b)
    {
      EncodeStep(u, i, b);
      if Safe(u[i]) { b := b + [u[i]]; } else { b := b + Hex(u[i]); }
    }
  }

  /** `unitFileName`. */
  method UnitFileName(unit: string) returns (name: string)
    ensures name == FileName(unit)
  {
    hide Protected;
    var u := CanonicalUnit(unit);
    if u == "" { return UNKNOWN + SUFFIX; }
    var b := EncodeBytes(u);
    hide Encode;
    if b == "" || b == "." || b == ".." { return UNKNOWN + SUFFIX; }
    var r := EncodeReservedFileName(b);
    return r + SUFFIX;
  }

  /** `encodeReservedFileName`. */
  method EncodeReservedFileName(name: string) returns (r: string)
    ensures r == Protected(name)
  {
    r := name;
    while EndsDotted(r)
      invariant r == name || (r == Undotted(name) && !EndsDotted(r))
      decreases EndsDotted(r)
    {
      r := r[..|r| - 1] + Hex(r[|r| - 1]);
      assert r[|r| - 1] != '.' && r[|r| - 1] != ' ';
    }
    if ReservedDevice(Stem(r)) && |r| > 0 { r := Hex(r[0]) + r[1..]; }
  }

  /** The first `i` characters are decoded. */
  predicate Decoding(name: string, i: nat, b: string)
    requires i <= |name|
  {
    b + Decoded(name[i..]) == Decoded(name)
  }

  lemma {:induction false} DecodeEscape(name: string, i: nat, b: string)
    requires i + 2 < |name| && Decoding(name, i, b) && name[i] == '%' && IsHex(name[i + 1]) && IsHex(name[i + 2])
    ensures Decoding(name, i + 3, b + [(HexValue(name[i + 1]) * 16 + HexValue(name[i + 2])) as char])
  {
    hide HexValue, IsHex;
    var rest := name[i..];
    assert EscapeAhead(rest) && rest[3..] == name[i + 3..];
  }

  lemma {:induction false} DecodePlain(name: string, i: nat, b: string)
    requires i < |name| && Decoding(name, i, b)
    requires !(name[i] == '%' && i + 2 < |name| && IsHex(name[i + 1]) && IsHex(name[i + 2]))
    ensures Decoding(name, i + 1, b + [name[i]])
  {
    hide HexValue, IsHex;
    var rest := name[i..];
    assert !EscapeAhead(rest) && rest[1..] == name[i + 1..];
  }

  lemma {:induction false} DecodeEnds(name: string)
    ensures Decoding(name, 0, "") && forall b :: Decoding(name, |name|, b) ==> b == Decoded(name)
  {
    assert name[0..] == name && name[|name|..] == "";
    forall b | Decoding(name, |name|, b) ensures b == Decoded(name) { assert b + "" == b; }
  }

  method DecodeBytes(name: string) returns (b: string)
    ensures b == Decoded(name)
  {
    hide Decoded, Decoding;
    b := "";
    var i := 0;
    DecodeEnds(name);
    while i < |name|
      invariant 0 <= i <= |name| && Decoding(name, i, b)
    {
      if name[i] == '%' && i + 2 < |name| && IsHex(name[i + 1]) && IsHex(name[i + 2]) {
        DecodeEscape(name, i, b);
        b := b + [(HexValue(name[i + 1]) * 16 + HexValue(name[i + 2])) as char];
        i := i + 3;
      } else {
        DecodePlain(name, i, b);
        b := b + [name[i]];
        i := i + 1;
      }
    }
  }

  function DecodedFile(filename: string): Option<string> {
    if !Names.EndsWith(filename, SUFFIX) then None
    else if filename[..|filename| - 4] == UNKNOWN then Some("")
    else Some(Decoded(filename[..|filename| - 4]))
  }

  /** `decodeUnitFileName`. */
  method DecodeUnitFileName(filename: string) returns (unit: Option<string>)
    ensures unit == DecodedFile(filename)
  {
    hide Decoded;
    if !Names.EndsWith(filename, SUFFIX) { return None; }
    var name := filename[..|filename| - 4];
    if name == UNKNOWN { return Some(""); }
    var b := DecodeBytes(name);
    return Some(b);
  }

  predicate HasArchiveSuffix(name: string, generation: nat) {
    1 <= generation <= KEEP && Names.EndsWith(name, ArchiveSuffix(generation))
  }

  /** The name without its archive suffix, if it is a journal name at all. */
  ghost function Base(name: string): Option<string> {
    if Names.EndsWith(name, SUFFIX) then Some(name)
    else if exists k :: HasArchiveSuffix(name, k) then Some(name[..|name| - 2])
    else None
  }

  ghost function Retained(name: string): Option<string> {
    match Base(name)
    case None => None
    case Some(base) =>
      var unit := if base == UNKNOWN + SUFFIX then Some(UNKNOWN) else DecodedFile(base);
      if unit.Some? && unit.value != "" && FileName(unit.value) == base then unit else None
  }

  method CutArchive(name: string) returns (base: Option<string>)
    ensures base == Base(name)
  {
    if Names.EndsWith(name, SUFFIX) { return Some(name); }
    for i := 1 to KEEP + 1
      invariant forall k: nat :: HasArchiveSuffix(name, k) ==> k >= i
    {
      if Names.EndsWith(name, ArchiveSuffix(i)) {
        assert HasArchiveSuffix(name, i);
        return Some(name[..|name| - 2]);
      }
    }
    return None;
  }

  /** `retainedDiskName`. */
  method RetainedDiskName(name: string) returns (unit: Option<string>)
    ensures unit == Retained(name)
  {
    hide Base, DecodedFile, FileName;
    var cut := CutArchive(name);
    if cut.None? { return None; }
    var base := cut.value;
    unit := DecodeUnitFileName(base);
    if base == UNKNOWN + SUFFIX { unit := Some(UNKNOWN); }
    if unit.None? || unit.value == "" { return None; }
    var again := UnitFileName(unit.value);
    if again != base { return None; }
  }

  /* ---- Spellings ---- */

  /** One character of a unit name, written out or escaped. */
  datatype Letter = Letter(c: char, escaped: bool)

  function Written(l: Letter): string {
    if l.escaped then Hex(l.c) else [l.c]
  }

  function Spell(s: seq<Letter>): string {
    if s == [] then "" else Written(s[0]) + Spell(s[1..])
  }

  function Chars(s: seq<Letter>): (r: string)
    ensures |r| == |s| && forall i :: 0 <= i < |r| ==> r[i] == s[i].c
  {
    seq(|s|, i requires 0 <= i < |s| => s[i].c)
  }

  /** Bytes, with every percent sign escaped. */
  predicate Readable(s: seq<Letter>) {
    forall i :: 0 <= i < |s| ==> s[i].c as int < 256 && (s[i].c == '%' ==> s[i].escaped)
  }

  predicate Bytes(u: string) {
    forall i :: 0 <= i < |u| ==> u[i] as int < 256
  }

  lemma {:induction false} HexReads(c: char)
    requires c as int < 256
    ensures EscapeAhead(Hex(c)) && HexValue(Hex(c)[1]) * 16 + HexValue(Hex(c)[2]) == c as int
  {}

  /** Whichever characters are escaped, the decoder finds the name again. */
  lemma {:induction false} DecodeSpelling(s: seq<Letter>)
    requires Readable(s)
    ensures Decoded(Spell(s)) == Chars(s)
  {
    if s != [] {
      DecodeSpelling(s[1..]);
      var name, rest := Spell(s), Spell(s[1..]);
      if s[0].escaped {
        HexReads(s[0].c);
        assert name[3..] == rest && name[..3] == Hex(s[0].c);
      } else {
        assert name[1..] == rest && name[0] != '%';
      }
      assert Chars(s) == [s[0].c] + Chars(s[1..]);
    } else {
      assert Chars(s) == "";
    }
  }

  lemma {:induction false} SpellConcat(a: seq<Letter>, b: seq<Letter>)
    ensures Spell(a + b) == Spell(a) + Spell(b)
  {
    if a == [] {
      assert a + b == b;
    } else {
      SpellConcat(a[1..], b);
      assert (a + b)[0] == a[0] && (a + b)[1..] == a[1..] + b;
      assert Spell(a + b) == Written(a[0]) + Spell(a[1..] + b) && Spell(a) == Written(a[0]) + Spell(a[1..]);
      hide Spell, Written;
      Names.Regrouped(Written(a[0]), Spell(a[1..]), Spell(b));
    }
  }

  /** The plain encoding escapes exactly the unsafe characters. */
  function Letters(u: string): (r: seq<Letter>)
    ensures |r| == |u| && forall i :: 0 <= i < |r| ==> r[i] == Letter(u[i], !Safe(u[i]))
  {
    seq(|u|, i requires 0 <= i < |u| => Letter(u[i], !Safe(u[i])))
  }

  lemma {:induction false} EncodeSpells(u: string)
    ensures Encode(u) == Spell(Letters(u))
  {
    if u != "" {
      EncodeSpells(u[1..]);
      assert Letters(u)[1..] == Letters(u[1..]);
    }
  }

  /** The last character of a spelling, as the trailing-dot loop sees it. */
  lemma {:induction false} SpellLast(s: seq<Letter>)
    requires s != []
    ensures Spell(s) == Spell(s[..|s| - 1]) + Written(s[|s| - 1])
  {
    SpellConcat(s[..|s| - 1], [s[|s| - 1]]);
    assert s == s[..|s| - 1] + [s[|s| - 1]];
    assert Spell([s[|s| - 1]]) == Written(s[|s| - 1]) by { SpellOne(s[|s| - 1]); }
  }

  lemma {:induction false} SpellOne(l: Letter)
    ensures Spell([l]) == Written(l)
  {
    assert [l][1..] == [];
    assert Spell([]) == "";
  }

  /** Escaping a trailing dot is another spelling. */
  lemma {:induction false} UndottedSpells(s: seq<Letter>) returns (r: seq<Letter>)
    requires Readable(s) && forall i :: 0 <= i < |s| && s[i].c == ' ' ==> s[i].escaped
    ensures Readable(r) && Chars(r) == Chars(s) && Undotted(Spell(s)) == Spell(r)
  {
    r := s;
    if s != [] {
      var init, l := s[..|s| - 1], s[|s| - 1];
      SpellLast(s);
      var name := Spell(s);
      if EndsDotted(name) {
        assert !l.escaped && name[..|name| - 1] == Spell(init);
        r := init + [Letter(l.c, true)];
        SpellConcat(init, [Letter(l.c, true)]);
        SpellOne(Letter(l.c, true));
        assert Chars(r) == Chars(s);
      }
    }
  }

  /** Escaping the first character of a device name is another spelling. */
  lemma {:induction false} ProtectedSpells(s: seq<Letter>) returns (r: seq<Letter>)
    requires Readable(s) && forall i :: 0 <= i < |s| && s[i].c == ' ' ==> s[i].escaped
    ensures Readable(r) && Chars(r) == Chars(s) && Protected(Spell(s)) == Spell(r)
  {
    r := UndottedSpells(s);
    var n := Undotted(Spell(s));
    if ReservedDevice(Stem(n)) && n != "" {
      ReservedLetters(n);
      assert !r[0].escaped && n == [r[0].c] + Spell(r[1..]);
      var r' := [Letter(r[0].c, true)] + r[1..];
      assert r'[1..] == r[1..];
      assert Chars(r') == Chars(r);
      r := r';
    }
  }

  lemma {:induction false} ReservedLetters(n: string)
    requires n != "" && ReservedDevice(Stem(n))
    ensures n[0] != '%' && n[0] != '_'
  {
    var s := Names.Lower(Stem(n));
    assert s != "" && s[0] != '%' && s[0] != '_';
  }

  /* ---- File names determine units ---- */

  /** A canonical name that can have a file of its own. */
  predicate Proper(u: string) {
    Bytes(u) && CanonicalUnit(u) == u && !Dots(u)
  }

  lemma {:induction false} DecodedPlain(s: string)
    requires '%' !in s
    ensures Decoded(s) == s
  {
    if s != "" {
      assert s[0] in s && '%' !in s[1..];
      DecodedPlain(s[1..]);
    }
  }

  lemma {:induction false} EncodeDecodes(u: string)
    requires Bytes(u)
    ensures Decoded(Encode(u)) == u
  {
    EncodeSpells(u);
    DecodeSpelling(Letters(u));
    assert Chars(Letters(u)) == u;
  }

  lemma {:induction false} DotsStay(u: string)
    requires Bytes(u)
    ensures Dots(Encode(u)) <==> Dots(u)
  {
    EncodeDecodes(u);
    if Dots(Encode(u)) {
      DecodedPlain(Encode(u));
    } else if Dots(u) {
      EncodeSafe(u);
    }
  }

  lemma {:induction false} EncodeSafe(u: string)
    requires forall i :: 0 <= i < |u| ==> Safe(u[i])
    ensures Encode(u) == u
  {
    if u != "" { EncodeSafe(u[1..]); }
  }

  /** The file name of a proper unit is a spelling of it. */
  lemma {:induction false} FileNameSpells(u: string) returns (r: seq<Letter>)
    requires Bytes(CanonicalUnit(u)) && !Dots(CanonicalUnit(u))
    ensures Readable(r) && Chars(r) == CanonicalUnit(u) && FileName(u) == Spell(r) + SUFFIX
  {
    hide Encode, Protected, Spell, CanonicalUnit;
    var c := CanonicalUnit(u);
    DotsStay(c);
    EncodeSpells(c);
    assert Chars(Letters(c)) == c;
    r := ProtectedSpells(Letters(c));
  }

  lemma {:induction false} CutSuffix(a: string, b: string)
    ensures Names.EndsWith(a + b, b) && (a + b)[..|a + b| - |b|] == a
  {}

  /** `retainedDiskName` inverts `unitFileName`, for the current file and every archive. */
  lemma {:induction false} RetainedInverts(u: string, generation: nat)
    requires Proper(u) && generation <= KEEP
    ensures Retained(DiskName(u, generation)) == Some(u)
  {
    hide FileName, Decoded, Spell, CanonicalUnit;
    var r := FileNameSpells(u);
    var stem := Spell(r);
    CutSuffix(stem, SUFFIX);
    DecodeSpelling(r);
    BaseOf(u, generation, stem);
    UnknownReads();
    if FileName(u) == UNKNOWN + SUFFIX {
      CutSuffix(UNKNOWN, SUFFIX);
      assert stem == UNKNOWN;
    }
  }

  lemma {:induction false} UnknownReads()
    ensures Decoded(UNKNOWN) == UNKNOWN
  {
    DecodedPlain(UNKNOWN);
  }

  lemma {:induction false} BaseOf(u: string, generation: nat, stem: string)
    requires generation <= KEEP && FileName(u) == stem + SUFFIX
    ensures Base(DiskName(u, generation)) == Some(FileName(u))
  {
    hide FileName;
    CutSuffix(stem, SUFFIX);
    if generation > 0 {
      var name := DiskName(u, generation);
      CutSuffix(FileName(u), ArchiveSuffix(generation));
      assert HasArchiveSuffix(name, generation);
      assert name[|name| - 1] != SUFFIX[3];
      assert |name| >= 4 ==> name[|name| - 4..][3] == name[|name| - 1];
    }
  }

  lemma {:induction false} LowerConcat(a: string, b: string)
    ensures Names.Lower(a + b) == Names.Lower(a) + Names.Lower(b)
  {}

  lemma {:induction false} LowerHex(c: char)
    requires c as int < 256
    ensures EscapeAhead(Names.Lower(Hex(c)))
    ensures HexValue(Names.Lower(Hex(c))[1]) * 16 + HexValue(Names.Lower(Hex(c))[2]) == c as int
  {}

  /** The decoder does not mind the case of the hexadecimal digits. */
  lemma {:induction false} DecodeFolded(s: seq<Letter>)
    requires Readable(s) && forall i :: 0 <= i < |s| ==> Names.LowerChar(s[i].c) == s[i].c
    ensures Decoded(Names.Lower(Spell(s))) == Chars(s)
  {
    hide Hex, HexValue, IsHex;
    if s != [] {
      DecodeFolded(s[1..]);
      LowerConcat(Written(s[0]), Spell(s[1..]));
      var name, rest := Names.Lower(Spell(s)), Names.Lower(Spell(s[1..]));
      if s[0].escaped {
        LowerHex(s[0].c);
        FoldedEscape(s[0].c, name, rest);
      } else {
        assert name[1..] == rest && name[0] == s[0].c != '%';
      }
      assert Chars(s) == [s[0].c] + Chars(s[1..]);
    } else {
      assert Names.Lower("") == "" && Chars(s) == "";
    }
  }

  lemma {:induction false} FoldedEscape(c: char, name: string, rest: string)
    requires c as int < 256 && name == Names.Lower(Hex(c)) + rest
    ensures Decoded(name) == [c] + Decoded(rest)
  {
    LowerHex(c);
    assert |Names.Lower(Hex(c))| == 3;
    assert name[3..] == rest && name[1] == Names.Lower(Hex(c))[1] && name[2] == Names.Lower(Hex(c))[2];
  }

  /** Distinct units and generations never share a file, even where names that differ only in
      case are the same file. */
  lemma {:induction false} NamesDistinct(u: string, g: nat, w: string, h: nat)
    requires Proper(u) && Proper(w) && g <= KEEP && h <= KEEP
    requires Names.Lower(DiskName(u, g)) == Names.Lower(DiskName(w, h))
    ensures u == w && g == h
  {
    hide FileName, Proper, Names.Lower;
    GenerationEnds(u, g);
    GenerationEnds(w, h);
    FoldedName(u, g);
    FoldedName(w, h);
  }

  /** The folded name still tells the unit. */
  lemma {:induction false} FoldedName(u: string, g: nat)
    requires Proper(u) && g <= KEEP
    ensures var name := Names.Lower(DiskName(u, g)); var cut := if g == 0 then 4 else 6;
      |name| >= cut && Decoded(name[..|name| - cut]) == u
  {
    hide FileName, Decoded, Spell, CanonicalUnit, Names.LowerChar;
    var r := FileNameSpells(u);
    assert forall i :: 0 <= i < |r| ==> Names.LowerChar(r[i].c) == r[i].c by { ProperIsLower(u); }
    DecodeFolded(r);
    LowerConcat(Spell(r), SUFFIX);
    if g > 0 { LowerConcat(Spell(r) + SUFFIX, ArchiveSuffix(g)); }
    var name := Names.Lower(DiskName(u, g));
    assert name[..|Names.Lower(Spell(r))|] == Names.Lower(Spell(r));
  }

  lemma {:induction false} ProperIsLower(u: string)
    requires Proper(u)
    ensures forall i :: 0 <= i < |u| ==> Names.LowerChar(u[i]) == u[i]
  {
    var t := Names.Trim(u);
    assert Names.Lower(t) == u;
  }

  lemma {:induction false} GenerationEnds(u: string, g: nat)
    requires g <= KEEP
    ensures DiskName(u, g) != "" && DiskName(u, g)[|DiskName(u, g)| - 1] == if g == 0 then 'g' else '0' + g as char
    ensures Names.Lower(DiskName(u, g))[|DiskName(u, g)| - 1] == DiskName(u, g)[|DiskName(u, g)| - 1]
  {
    hide Encode, Protected, CanonicalUnit;
  }

  lemma {:induction false} DecodedBytes(name: string)
    requires Bytes(name)
    ensures Bytes(Decoded(name))
    decreases |name|
  {
    hide HexValue;
    if name != "" {
      if EscapeAhead(name) {
        DecodedBytes(name[3..]);
        HexRange(name[1]);
        HexRange(name[2]);
      } else {
        DecodedBytes(name[1..]);
      }
    }
  }

  lemma {:induction false} HexRange(c: char)
    requires IsHex(c)
    ensures 0 <= HexValue(c) < 16
  {}

  lemma {:induction false} CanonicalBytes(u: string)
    requires Bytes(u)
    ensures Bytes(CanonicalUnit(u))
  {
    LeftBytes(u);
  }

  lemma {:induction false} LeftBytes(u: string)
    requires Bytes(u)
    ensures Bytes(Names.TrimLeft(u))
  {
    if u != "" && Names.IsSpace(u[0]) { LeftBytes(u[1..]); }
  }

  /** The retention namespace is exactly the names that the journal writes. */
  lemma {:induction false} RetainedExactly(name: string, u: string)
    requires Bytes(name)
    ensures Retained(name) == Some(u) <==> Proper(u) && exists g: nat :: g <= KEEP && name == DiskName(u, g)
  {
    hide FileName, Decoded, Spell, CanonicalUnit, DiskName, Base;
    if Proper(u) && exists g: nat :: g <= KEEP && name == DiskName(u, g) {
      var g: nat :| g <= KEEP && name == DiskName(u, g);
      RetainedInverts(u, g);
    }
    if Retained(name) == Some(u) {
      BaseNames(name, u);
      RetainedProper(Base(name).value, u);
    }
  }

  lemma {:induction false} BaseNames(name: string, u: string)
    requires Bytes(name) && Base(name) == Some(FileName(u))
    ensures Bytes(FileName(u)) && exists g: nat :: g <= KEEP && name == DiskName(u, g)
  {
    hide FileName;
    if Names.EndsWith(name, SUFFIX) {
      assert name == DiskName(u, 0);
    } else {
      var k :| HasArchiveSuffix(name, k);
      assert name == name[..|name| - 2] + ArchiveSuffix(k);
      assert name == DiskName(u, k);
    }
  }

  lemma {:induction false} RetainedProper(base: string, u: string)
    requires Bytes(base) && u != "" && FileName(u) == base
    requires base == UNKNOWN + SUFFIX ==> u == UNKNOWN
    requires base != UNKNOWN + SUFFIX ==> DecodedFile(base) == Some(u)
    ensures Proper(u)
  {
    hide Decoded, Spell, Protected, Encode, CanonicalUnit;
    if base == UNKNOWN + SUFFIX {
      UnknownProper();
    } else {
      assert Bytes(base[..|base| - 4]);
      DecodedBytes(base[..|base| - 4]);
      CanonicalBytes(u);
      DotsStay(CanonicalUnit(u));
      var r := FileNameSpells(u);
      CutSuffix(Spell(r), SUFFIX);
      DecodeSpelling(r);
    }
  }

  lemma {:induction false} UnknownProper()
    ensures Proper(UNKNOWN)
  {
    assert Names.Normal(UNKNOWN);
    hide Names.Trim, Names.Lower, Names.Normal;
    Names.NormalFixed(UNKNOWN);
  }

  /* ---- No device names ---- */

  lemma {:induction false} StemEnds(a: string, s: string)
    requires s != "" && s[0] == '.'
    ensures Stem(a + s) == Stem(a)
  {
    if a == "" {
      assert a + s == s;
    } else {
      StemEnds(a[1..], s);
      assert (a + s)[1..] == a[1..] + s;
    }
  }

  const DEVICES: seq<string> := ["con", "prn", "aux", "nul"]
  const PORTS := "123456789"

  /** The names Windows keeps for devices. */
  ghost predicate Device(s: string) {
    s in DEVICES || exists d :: d in PORTS && (s == "com" + [d] || s == "lpt" + [d])
  }

  lemma {:induction false} DeviceIsReserved(stem: string)
    ensures ReservedDevice(stem) <==> Device(Names.Lower(stem))
  {
    var s := Names.Lower(stem);
    if Device(s) && s !in DEVICES {
      var d :| d in PORTS && (s == "com" + [d] || s == "lpt" + [d]);
      assert '1' <= d <= '9' && s[..3] in {"com", "lpt"} && s[3] == d;
    }
    if ReservedDevice(stem) && s !in DEVICES {
      assert s[3] == PORTS[s[3] as int - '1' as int];
      assert s[3] in PORTS && (s == "com" + [s[3]] || s == "lpt" + [s[3]]);
    }
  }

  lemma {:induction false} DeviceHasNoDot(d: string)
    requires Device(d)
    ensures '.' !in d && d != ""
  {
    if d in DEVICES {
      var i :| 0 <= i < |DEVICES| && DEVICES[i] == d;
      assert '.' !in DEVICES[0] && '.' !in DEVICES[1] && '.' !in DEVICES[2] && '.' !in DEVICES[3];
    }
  }

  /** The stem ends at the first dot. */
  lemma {:induction false} StemCut(name: string)
    ensures Stem(name) <= name && '.' !in Stem(name)
    ensures Stem(name) == name || Stem(name) + "." <= name
  {
    if name != "" && name[0] != '.' {
      StemCut(name[1..]);
      assert name == [name[0]] + name[1..];
      var stem := Stem(name);
      assert stem[1..] == Stem(name[1..]);
      if Stem(name[1..]) != name[1..] { assert name[|stem|] == '.'; }
    }
  }

  lemma {:induction false} StemIs(name: string, d: string)
    requires '.' !in d && d + "." <= Names.Lower(name)
    ensures Names.Lower(Stem(name)) == d
  {
    StemCut(name);
    var stem := Stem(name);
    assert Names.Lower(name)[|d|] == (d + ".")[|d|] == '.';
    assert name[|d|] == '.';
    forall i | 0 <= i < |d| ensures name[i] != '.' && Names.LowerChar(name[i]) == d[i] {
      assert Names.Lower(name)[i] == (d + ".")[i] == d[i];
      assert d[i] in d;
    }
    assert stem != name ==> name[|stem|] == (stem + ".")[|stem|] == '.';
    assert '.' !in stem;
  }

  /** No journal file, current or archived, of any unit is named after a device. */
  lemma {:induction false} NeverADevice(u: string, generation: nat, d: string)
    requires generation <= KEEP && Device(d)
    ensures !(d + "." <= Names.Lower(DiskName(u, generation))) && d != Names.Lower(DiskName(u, generation))
  {
    hide DiskName, Device, Names.Lower, ReservedDevice;
    var name := DiskName(u, generation);
    DeviceHasNoDot(d);
    NotReserved(u, generation);
    DeviceIsReserved(Stem(name));
    if d + "." <= Names.Lower(name) { StemIs(name, d); }
    HasDot(u, generation);
  }

  lemma {:induction false} HasDot(u: string, generation: nat)
    requires generation <= KEEP
    ensures '.' in Names.Lower(DiskName(u, generation))
  {
    hide Encode, Protected, CanonicalUnit;
    var n := FileName(u);
    assert n[|n| - 4] == '.';
    assert DiskName(u, generation)[|n| - 4] == n[|n| - 4];
    assert Names.Lower(DiskName(u, generation))[|n| - 4] == '.';
  }

  lemma {:induction false} NotReserved(u: string, generation: nat)
    requires generation <= KEEP
    ensures !ReservedDevice(Stem(DiskName(u, generation)))
  {
    hide ReservedDevice, Encode, CanonicalUnit;
    var name := Encode(CanonicalUnit(u));
    if generation > 0 { StemEnds(FileName(u), ArchiveSuffix(generation)); }
    if Dots(name) {
      StemEnds(UNKNOWN, SUFFIX);
      UnknownIsNoDevice();
    } else {
      StemEnds(Protected(name), SUFFIX);
      ProtectedIsNoDevice(name);
    }
  }

  lemma {:induction false} UnknownIsNoDevice()
    ensures !ReservedDevice(Stem(UNKNOWN))
  {
    if ReservedDevice(Stem(UNKNOWN)) { ReservedLetters(UNKNOWN); }
  }

  lemma {:induction false} ProtectedIsNoDevice(name: string)
    ensures !ReservedDevice(Stem(Protected(name)))
  {
    hide ReservedDevice;
    var n := Undotted(name);
    if ReservedDevice(Stem(n)) && n != "" {
      if ReservedDevice(Stem(Protected(name))) { ReservedLetters(Protected(name)); }
    } else if n == "" {
      EmptyIsNoDevice();
    }
  }

  lemma {:induction false} EmptyIsNoDevice()
    ensures !ReservedDevice(Stem(""))
  {
    assert |Names.Lower("")| == 0;
  }

  /* ---- Only what must be escaped is escaped ---- */

  predicate Ordinary(c: string) {
    forall i :: 0 <= i < |c| ==> 'a' <= c[i] <= 'z' || '0' <= c[i] <= '9' || c[i] in "-_.@"
  }

  ghost predicate NoDevice(c: string) {
    forall d :: Device(d) ==> c != d && !(d + "." <= c)
  }

  lemma {:induction false} OrdinaryEncodes(c: string)
    requires Ordinary(c)
    ensures Encode(c) == c && Names.Lower(c) == c && ' ' !in c
  {
    EncodeSafe(c);
  }

  lemma {:induction false} NoDeviceStem(c: string)
    requires NoDevice(c) && Names.Lower(c) == c
    ensures !ReservedDevice(Stem(c))
  {
    hide Device, ReservedDevice, Stem;
    StemCut(c);
    var stem := Stem(c);
    forall i | 0 <= i < |stem| ensures Names.LowerChar(stem[i]) == stem[i] {
      assert stem[i] == c[i] == Names.Lower(c)[i];
    }
    assert Names.Lower(stem) == stem;
    DeviceIsReserved(stem);
  }

  /** A canonical name of ordinary characters, not named after a device and without a dot at its
      end, is its own file name. */
  lemma {:induction false} OrdinaryKept(u: string)
    requires var c := CanonicalUnit(u); Ordinary(c) && NoDevice(c) && c != "" && c[|c| - 1] != '.'
    ensures FileName(u) == CanonicalUnit(u) + ".log"
  {
    hide CanonicalUnit, ReservedDevice, Ordinary, NoDevice, Encode, Stem, Names.Lower;
    var c := CanonicalUnit(u);
    OrdinaryEncodes(c);
    NoDeviceStem(c);
    assert c[|c| - 1] in c;
    assert Undotted(c) == c;
  }

  /** What Windows allows in a file name. */
  ghost predicate Portable(c: char) {
    ' ' < c < 127 as char && c !in "<>:\"/\\|?*"
  }

  ghost predicate Clean(s: string) {
    forall i :: 0 <= i < |s| ==> Portable(s[i])
  }

  lemma {:induction false} CleanConcat(a: string, b: string)
    ensures Clean(a + b) <==> Clean(a) && Clean(b)
  {
    if Clean(a + b) {
      forall i | 0 <= i < |a| ensures Portable(a[i]) { assert (a + b)[i] == a[i]; }
      forall i | 0 <= i < |b| ensures Portable(b[i]) { assert (a + b)[|a| + i] == b[i]; }
    }
  }

  lemma {:induction false} HexClean(c: char)
    ensures Clean(Hex(c))
  {}

  lemma {:induction false} EncodeClean(u: string)
    ensures Clean(Encode(u))
  {
    if u != "" {
      EncodeClean(u[1..]);
      HexClean(u[0]);
      CleanConcat(if Safe(u[0]) then [u[0]] else Hex(u[0]), Encode(u[1..]));
    }
  }

  lemma {:induction false} ProtectedClean(name: string)
    requires Clean(name)
    ensures Clean(Protected(name)) && (name != "" ==> Protected(name) != "" && !EndsDotted(Protected(name)))
  {
    hide Portable, Hex, ReservedDevice;
    var n := Undotted(name);
    if EndsDotted(name) {
      HexClean(name[|name| - 1]);
      HexEnds(name[|name| - 1]);
      CleanConcat(name[..|name| - 1], Hex(name[|name| - 1]));
    }
    assert Clean(n) && !EndsDotted(n);
    if n != "" {
      HexClean(n[0]);
      HexEnds(n[0]);
      CleanConcat(Hex(n[0]), n[1..]);
    }
  }

  lemma {:induction false} HexEnds(c: char)
    ensures Hex(c) != "" && !EndsDotted(Hex(c))
  {}

  /** Every file name is made of allowed characters, and no dot or space ends it before its suffix. */
  lemma {:induction false} NamesAllowed(u: string, generation: nat)
    requires generation <= KEEP
    ensures Clean(DiskName(u, generation))
    ensures |FileName(u)| > 4 && FileName(u)[|FileName(u)| - 5] !in " ." && FileName(u)[|FileName(u)| - 4..] == ".log"
  {
    hide Encode, Protected, CanonicalUnit, Portable;
    var name := Encode(CanonicalUnit(u));
    EncodeClean(CanonicalUnit(u));
    ProtectedClean(name);
    var stem := if Dots(name) then UNKNOWN else Protected(name);
    ConstantsClean(generation);
    CleanConcat(stem, SUFFIX);
    CleanConcat(FileName(u), ArchiveSuffix(generation));
    assert FileName(u)[|FileName(u)| - 5] == stem[|stem| - 1];
  }

  lemma {:induction false} ConstantsClean(generation: nat)
    requires generation <= KEEP
    ensures Clean(UNKNOWN) && Clean(SUFFIX) && Clean(ArchiveSuffix(generation))
  {}
}
