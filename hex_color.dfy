/**
 * The decoding of the configured point colour, a string "#RRGGBB": the first
 * character is dropped and the three two-character fields that follow are read
 * as base-16 numbers (`Substring(1)`, then `Substring(k, 2)` and
 * `Convert.ToInt32(…, 16)` for k = 0, 2, 4). A .NET string is a sequence of
 * UTF-16 code units, and `Substring` counts code units, so that is what the
 * colour string is here.
 */
module HexColor {
  import opened Wrappers
  import opened Colors

  /** One UTF-16 code unit; a character outside the Basic Multilingual Plane takes two. */
  newtype CodeUnit = x: int | 0 <= x < 0x1_0000

  /** A .NET string: its UTF-16 code units, lone surrogates included. */
  type Utf16 = seq<CodeUnit>

  /** The exception that stops the decoding. */
  datatype ColorError =
    | OutOfRange  // a `Substring` reaches past the end of the string
    | BadDigit    // a field holds a code unit that is not a base-16 digit

  predicate IsHexDigit(u: CodeUnit) {
    ('0' as CodeUnit <= u <= '9' as CodeUnit) ||
    ('a' as CodeUnit <= u <= 'f' as CodeUnit) ||
    ('A' as CodeUnit <= u <= 'F' as CodeUnit)
  }

  predicate AllHex(s: Utf16) {
    forall i | 0 <= i < |s| :: IsHexDigit(s[i])
  }

  /** The value of one base-16 digit, in either case. */
  function DigitValue(u: CodeUnit): (d: nat)
    requires IsHexDigit(u)
    ensures d < 16
    ensures d < 10 <==> '0' as CodeUnit <= u <= '9' as CodeUnit
  {
    if '0' as CodeUnit <= u <= '9' as CodeUnit then u as int - '0' as int
    else if 'a' as CodeUnit <= u <= 'f' as CodeUnit then u as int - 'a' as int + 10
    else u as int - 'A' as int + 10
  }

  /** The value of a base-16 numeral, most significant digit first. */
  function HexValue(s: Utf16): nat
    requires AllHex(s)
  {
    if s == [] then 0 else 16 * HexValue(s[..|s| - 1]) + DigitValue(s[|s| - 1])
  }

  /** A two-digit numeral is worth sixteen times its first digit plus its second. */
  lemma HexValuePair(s: Utf16)
    requires |s| == 2 && AllHex(s)
    ensures HexValue(s) == 16 * DigitValue(s[0]) + DigitValue(s[1])
  {
    var head := s[..|s| - 1];
    assert head == [s[0]] && head[..|head| - 1] == [];
    assert HexValue(head) == DigitValue(s[0]);
  }

  /** `Convert.ToInt32(field, 16)` on a two-character field. */
  function ParseField(field: Utf16): (r: Result<byte, ColorError>)
    requires |field| == 2
    ensures r.Success? <==> AllHex(field)
    ensures r.Success? ==> r.value as int == HexValue(field)
    ensures r.Failure? ==> r.error == BadDigit
  {
    if IsHexDigit(field[0]) && IsHexDigit(field[1]) then
      HexValuePair(field);
      Success((16 * DigitValue(field[0]) + DigitValue(field[1])) as byte)
    else
      Failure(BadDigit)
  }

  /** `rest.Substring(start, 2)` read as a base-16 number. */
  function FieldAt(rest: Utf16, start: nat): (r: Result<byte, ColorError>)
    ensures r.Success? <==> start + 2 <= |rest| && AllHex(rest[start..start + 2])
    ensures r.Success? ==> r.value as int == HexValue(rest[start..start + 2])
    ensures |rest| < start + 2 ==> r == Failure(OutOfRange)
    ensures start + 2 <= |rest| && r.Failure? ==> r.error == BadDigit
  {
    if |rest| < start + 2 then Failure(OutOfRange) else ParseField(rest[start..start + 2])
  }

  /**
   * Decodes the configured colour string. The fields are cut and parsed in the
   * order the source evaluates the constructor's arguments, so the error reported
   * is the first one met.
   */
  function DecodeColor(s: Utf16): (r: Result<Color, ColorError>)
    ensures r.Success? <==> |s| >= 7 && AllHex(s[1..7])
    ensures r.Success? ==>
              AllHex(s[1..3]) && AllHex(s[3..5]) && AllHex(s[5..7]) &&
              r.value.r as int == HexValue(s[1..3]) &&
              r.value.g as int == HexValue(s[3..5]) &&
              r.value.b as int == HexValue(s[5..7])
    ensures |s| < 3 ==> r == Failure(OutOfRange)
    ensures r.Failure? && |s| >= 7 ==> r.error == BadDigit
    ensures r.Failure? && |s| >= 1 && AllHex(s[1..]) ==> r.error == OutOfRange
  {
    if |s| < 1 then
      Failure(OutOfRange)
    else
      var rest := s[1..];
      FieldSlices(s);
      var red :- FieldAt(rest, 0);
      var green :- FieldAt(rest, 2);
      var blue :- FieldAt(rest, 4);
      Success(Color(red, green, blue))
  }

  /** How the fields cut from `s[1..]` sit in `s`. */
  lemma FieldSlices(s: Utf16)
    requires |s| >= 1
    ensures |s| >= 3 ==> s[1..][0..2] == s[1..3]
    ensures |s| >= 5 ==> s[1..][2..4] == s[3..5]
    ensures |s| >= 7 ==> s[1..][4..6] == s[5..7]
    ensures |s| >= 7 ==> (AllHex(s[1..7]) <==> AllHex(s[1..3]) && AllHex(s[3..5]) && AllHex(s[5..7]))
    ensures AllHex(s[1..]) ==> forall k | 1 <= k <= |s| :: AllHex(s[1..k])
  {
    if |s| >= 7 {
      assert forall i | 1 <= i < 7 :: s[1..7][i - 1] == s[i];
      assert forall i | 1 <= i < 3 :: s[1..3][i - 1] == s[i];
      assert forall i | 3 <= i < 5 :: s[3..5][i - 3] == s[i];
      assert forall i | 5 <= i < 7 :: s[5..7][i - 5] == s[i];
    }
    if AllHex(s[1..]) {
      forall k | 1 <= k <= |s| ensures AllHex(s[1..k]) {
        assert forall i | 0 <= i < k - 1 :: s[1..k][i] == s[1..][i];
      }
    }
  }

  /** The upper-case base-16 digit for 0..15. */
  function HexChar(d: nat): (u: CodeUnit)
    requires d < 16
    ensures IsHexDigit(u) && DigitValue(u) == d
  {
    if d < 10 then ('0' as int + d) as CodeUnit else ('A' as int + d - 10) as CodeUnit
  }

  /** A channel as two upper-case base-16 digits. */
  function ByteHex(b: byte): (s: Utf16)
    ensures |s| == 2 && AllHex(s) && HexValue(s) == b as int
  {
    var s := [HexChar(b as int / 16), HexChar(b as int % 16)];
    HexValuePair(s);
    s
  }

  /** A colour written as "#RRGGBB", the format the configuration file uses. */
  function FormatColor(c: Color): (s: Utf16)
    ensures |s| == 7 && s[0] == '#' as CodeUnit && AllHex(s[1..])
  {
    ['#' as CodeUnit] + ByteHex(c.r) + ByteHex(c.g) + ByteHex(c.b)
  }

  /** Decoding a formatted colour gives the colour back. */
  lemma {:induction false} DecodeFormat(c: Color)
    ensures DecodeColor(FormatColor(c)) == Success(c)
  {
    var s := FormatColor(c);
    var rg := ['#' as CodeUnit] + ByteHex(c.r) + ByteHex(c.g);
    assert s == rg + ByteHex(c.b) && |rg| == 5;
    assert s[1..3] == ByteHex(c.r);
    assert s[3..5] == ByteHex(c.g);
    assert s[5..7] == ByteHex(c.b);
  }

  /** The upper-case form of a base-16 digit. */
  function Canonical(u: CodeUnit): CodeUnit
    requires IsHexDigit(u)
  {
    if 'a' as CodeUnit <= u <= 'f' as CodeUnit then (u as int - 'a' as int + 'A' as int) as CodeUnit else u
  }

  function CanonicalForm(t: Utf16): Utf16
    requires AllHex(t)
  {
    seq(|t|, i requires 0 <= i < |t| => Canonical(t[i]))
  }

  lemma HexCharOfDigit(u: CodeUnit)
    requires IsHexDigit(u)
    ensures HexChar(DigitValue(u)) == Canonical(u)
  {
  }

  lemma {:induction false} CanonicalFormAppend(a: Utf16, b: Utf16)
    requires AllHex(a) && AllHex(b)
    ensures AllHex(a + b) && CanonicalForm(a + b) == CanonicalForm(a) + CanonicalForm(b)
  {
    assert forall i | 0 <= i < |a + b| :: (a + b)[i] == if i < |a| then a[i] else b[i - |a|];
  }

  /** Formatting a channel read from a field gives the field's digits in upper case. */
  lemma {:induction false} ByteHexOfField(f: Utf16, b: byte)
    requires |f| == 2 && AllHex(f) && HexValue(f) == b as int
    ensures ByteHex(b) == CanonicalForm(f)
  {
    HexValuePair(f);
    var hi, lo := DigitValue(f[0]), DigitValue(f[1]);
    assert b as int / 16 == hi && b as int % 16 == lo;
    HexCharOfDigit(f[0]);
    HexCharOfDigit(f[1]);
  }

  /**
   * Formatting a decoded colour gives back the six digits that were read, up to
   * letter case: nothing of the string but s[1..7] decides the colour.
   */
  lemma {:induction false} FormatDecode(s: Utf16, c: Color)
    requires DecodeColor(s) == Success(c)
    ensures FormatColor(c) == ['#' as CodeUnit] + CanonicalForm(s[1..7])
  {
    var r, g, b := s[1..3], s[3..5], s[5..7];
    assert AllHex(r) && AllHex(g) && AllHex(b);
    assert HexValue(r) == c.r as int && HexValue(g) == c.g as int && HexValue(b) == c.b as int;
    ByteHexOfField(r, c.r);
    ByteHexOfField(g, c.g);
    ByteHexOfField(b, c.b);
    assert s[1..7] == r + g + b;
    CanonicalFormAppend(r, g);
    CanonicalFormAppend(r + g, b);
    assert CanonicalForm(s[1..7]) == ByteHex(c.r) + ByteHex(c.g) + ByteHex(c.b);
  }

  /** The leading code unit and everything after index 6 are ignored. */
  lemma DecodeIgnoresMarkerAndTail(s: Utf16, s': Utf16)
    requires |s| >= 7 && |s'| >= 7 && s[1..7] == s'[1..7]
    ensures DecodeColor(s) == DecodeColor(s')
  {
    assert forall i | 1 <= i < 7 :: s[i] == s[1..7][i - 1] == s'[1..7][i - 1] == s'[i];
    assert s[1..3] == s'[1..3] && s[3..5] == s'[3..5] && s[5..7] == s'[5..7];
  }

  /**
   * "😀FF0000": the emoji is a surrogate pair, so `Substring(1)` starts at its
   * low half and the first field is not a number.
   */
  lemma AstralMarkerShiftsFields()
    ensures DecodeColor([0xD83D, 0xDE00, 'F' as CodeUnit, 'F' as CodeUnit, '0' as CodeUnit,
                         '0' as CodeUnit, '0' as CodeUnit, '0' as CodeUnit]) == Failure(BadDigit)
  {
  }
}
