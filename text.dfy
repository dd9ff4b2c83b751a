/** The string operations the modelled Python code relies on: `str.lower()`
    (on ASCII letters), the `in` substring test, `sep.join(...)`,
    `str.split()` without arguments, `str(int)` and `int(str)`, and the
    `strftime('%Y/%m/%d')` date format. Whitespace and decimal digits are
    those of the Unicode 15.0 character database. */
module Text {
  import opened Wrappers

  // ---------------------------------------------------------------------
  // Characters

  /** The characters Python's `str.isspace()` accepts: what `str.split()`
      splits on. */
  predicate IsSpace(c: char) {
    || '\t' <= c <= '\r' || '\U{1C}' <= c <= ' ' || c == '\U{85}' || c == '\U{A0}' || c == '\U{1680}'
    || '\U{2000}' <= c <= '\U{200A}' || c == '\U{2028}' || c == '\U{2029}' || c == '\U{202F}'
    || c == '\U{205F}' || c == '\U{3000}'
  }

  /** The whitespace `int()` strips around its literal: Unicode whitespace
      except the four separators U+001C..U+001F, which `int()` keeps and
      then rejects although `str.isspace()` accepts them. */
  predicate IsIntSpace(c: char) {
    IsSpace(c) && !('\U{1C}' <= c <= '\U{1F}')
  }

  predicate IsDigit(c: char) {
    '0' <= c <= '9'
  }

  predicate AllDigits(s: string) {
    forall i :: 0 <= i < |s| ==> IsDigit(s[i])
  }

  function LowerChar(c: char): (r: char)
    ensures !('A' <= r <= 'Z')
  {
    if 'A' <= c <= 'Z' then (c as int - 'A' as int + 'a' as int) as char else c
  }

  predicate IsLowerCase(s: string) {
    forall i :: 0 <= i < |s| ==> !('A' <= s[i] <= 'Z')
  }

  // ---------------------------------------------------------------------
  // str.lower()

  function Lower(s: string): (r: string)
    ensures |r| == |s|
    ensures forall i :: 0 <= i < |s| ==> r[i] == LowerChar(s[i])
  {
    if s == [] then [] else [LowerChar(s[0])] + Lower(s[1..])
  }

  /** Lower-casing a string that has no upper-case letter changes nothing,
      so `Lower` is idempotent and leaves the (lower-case) keyword lists
      and carrier names as they are. */
  lemma LowerOfLowerCase(s: string)
    requires IsLowerCase(s)
    ensures Lower(s) == s
  {
    assert forall i :: 0 <= i < |s| ==> Lower(s)[i] == s[i];
  }

  lemma LowerIdempotent(s: string)
    ensures IsLowerCase(Lower(s)) && Lower(Lower(s)) == Lower(s)
  {
    LowerOfLowerCase(Lower(s));
  }

  // ---------------------------------------------------------------------
  // The substring test `sub in s`

  predicate Contains(s: string, sub: string)
    decreases |s|
  {
    sub <= s || (s != [] && Contains(s[1..], sub))
  }

  predicate OccursAt(s: string, sub: string, i: nat)
    requires i <= |s|
  {
    sub <= s[i..]
  }

  /** `Contains` agrees with the positional definition of a substring. */
  lemma {:induction false} ContainsIffOccurs(s: string, sub: string)
    ensures Contains(s, sub) <==> exists i :: 0 <= i <= |s| && OccursAt(s, sub, i)
    decreases |s|
  {
    if sub <= s {
      assert OccursAt(s, sub, 0);
    } else if s == [] {
      assert !OccursAt(s, sub, 0);
    } else {
      ContainsIffOccurs(s[1..], sub);
      if Contains(s[1..], sub) {
        var i :| 0 <= i <= |s[1..]| && OccursAt(s[1..], sub, i);
        assert s[1..][i..] == s[i + 1..];
        assert OccursAt(s, sub, i + 1);
      }
      if exists i :: 0 <= i <= |s| && OccursAt(s, sub, i) {
        var i :| 0 <= i <= |s| && OccursAt(s, sub, i);
        assert i != 0;
        assert s[1..][i - 1..] == s[i..];
        assert OccursAt(s[1..], sub, i - 1);
      }
    }
  }

  /** How `str()` and f-strings render an optional string: None prints as "None". */
  function PyStr(o: Option<string>): string {
    match o
    case Some(s) => s
    case None => "None"
  }

  /** The parts written one after another, as an f-string lays them out. */
  function Concat(parts: seq<string>): string {
    if parts == [] then "" else parts[0] + Concat(parts[1..])
  }

  // ---------------------------------------------------------------------
  // sep.join(parts)

  function Join(parts: seq<string>, sep: string): string {
    if |parts| == 0 then ""
    else if |parts| == 1 then parts[0]
    else parts[0] + sep + Join(parts[1..], sep)
  }

  /** Appending one more part adds the separator and the part at the end:
      what a loop that appends to a list and joins it afterwards builds. */
  lemma {:induction false} JoinSnoc(parts: seq<string>, p: string, sep: string)
    requires parts != []
    ensures Join(parts + [p], sep) == Join(parts, sep) + sep + p
    decreases |parts|
  {
    if |parts| == 1 {
      assert (parts + [p])[1..] == [p];
    } else {
      assert (parts + [p])[1..] == parts[1..] + [p];
      JoinSnoc(parts[1..], p, sep);
    }
  }

  // ---------------------------------------------------------------------
  // str.split() with no argument

  predicate IsWord(w: string) {
    w != [] && forall j :: 0 <= j < |w| ==> !IsSpace(w[j])
  }

  /** The longest prefix of `s` without whitespace. */
  function WordPrefix(s: string): (w: string)
    ensures w <= s
    ensures forall j :: 0 <= j < |w| ==> !IsSpace(w[j])
    ensures |w| < |s| ==> IsSpace(s[|w|])
    decreases |s|
  {
    if s == [] || IsSpace(s[0]) then [] else [s[0]] + WordPrefix(s[1..])
  }

  /** The maximal runs of non-whitespace characters of `s`, in order. */
  function Words(s: string): (ws: seq<string>)
    ensures forall i :: 0 <= i < |ws| ==> IsWord(ws[i])
    decreases |s|
  {
    if s == [] then []
    else if IsSpace(s[0]) then Words(s[1..])
    else
      var w := WordPrefix(s);
      [w] + Words(s[|w|..])
  }

  lemma {:induction false} WordPrefixOfWord(w: string, t: string)
    requires forall j :: 0 <= j < |w| ==> !IsSpace(w[j])
    requires t == [] || IsSpace(t[0])
    ensures WordPrefix(w + t) == w
    decreases |w|
  {
    if w != [] {
      assert (w + t)[1..] == w[1..] + t;
      WordPrefixOfWord(w[1..], t);
    }
  }

  /** Splitting words joined by single spaces gives back the words. */
  lemma {:induction false} WordsOfJoin(ws: seq<string>)
    requires forall i :: 0 <= i < |ws| ==> IsWord(ws[i])
    ensures Words(Join(ws, " ")) == ws
    decreases |ws|
  {
    if |ws| == 1 {
      WordPrefixOfWord(ws[0], []);
      assert ws[0] + [] == ws[0];
      assert ws[0][|ws[0]|..] == [];
    } else if |ws| > 1 {
      var rest := Join(ws[1..], " ");
      var s := ws[0] + " " + rest;
      assert s == ws[0] + (" " + rest);
      WordPrefixOfWord(ws[0], " " + rest);
      assert s[|ws[0]|..] == " " + rest;
      assert (" " + rest)[1..] == rest;
      WordsOfJoin(ws[1..]);
      assert Words(s) == [ws[0]] + Words(rest);
    }
  }

  // ---------------------------------------------------------------------
  // Decimal numerals: str(n) and int(s)

  function DigitChar(d: nat): (c: char)
    requires d < 10
    ensures IsDigit(c) && c as int - '0' as int == d
  {
    ('0' as int + d) as char
  }

  function NatToString(n: nat): (r: string)
    ensures |r| >= 1 && AllDigits(r)
    decreases n
  {
    if n < 10 then [DigitChar(n)] else NatToString(n / 10) + [DigitChar(n % 10)]
  }

  function DigitsValue(s: string): nat
    requires AllDigits(s)
    decreases |s|
  {
    if s == [] then 0 else DigitsValue(s[..|s| - 1]) * 10 + (s[|s| - 1] as int - '0' as int)
  }

  lemma {:induction false} NatToStringValue(n: nat)
    ensures DigitsValue(NatToString(n)) == n
    decreases n
  {
    if n >= 10 {
      NatToStringValue(n / 10);
      var s := NatToString(n);
      assert s[..|s| - 1] == NatToString(n / 10);
    }
  }

  function Pow10(w: nat): nat {
    if w == 0 then 1 else 10 * Pow10(w - 1)
  }

  lemma {:induction false} NatToStringLength(n: nat, w: nat)
    requires 1 <= w && n < Pow10(w)
    ensures |NatToString(n)| <= w
    decreases w
  {
    if n >= 10 {
      assert w > 1;
      NatToStringLength(n / 10, w - 1);
    }
  }

  function Zeros(k: nat): (z: string)
    ensures |z| == k && AllDigits(z)
    ensures forall i :: 0 <= i < k ==> z[i] == '0'
  {
    seq(k, i => '0')
  }

  /** `n` in decimal, left-padded with zeros to at least `w` digits. */
  function PadDigits(n: nat, w: nat): (r: string)
    ensures AllDigits(r)
  {
    var s := NatToString(n);
    if |s| >= w then s else Zeros(w - |s|) + s
  }

  lemma {:induction false} LeadingZerosValue(k: nat, s: string)
    requires AllDigits(s)
    ensures AllDigits(Zeros(k) + s) && DigitsValue(Zeros(k) + s) == DigitsValue(s)
    decreases |s| + k
  {
    var z := Zeros(k) + s;
    if s == [] {
      assert z == Zeros(k);
      if k > 0 {
        assert z[..|z| - 1] == Zeros(k - 1) + [];
        LeadingZerosValue(k - 1, []);
      }
    } else {
      assert z[..|z| - 1] == Zeros(k) + s[..|s| - 1];
      LeadingZerosValue(k, s[..|s| - 1]);
    }
  }

  lemma PadDigitsValue(n: nat, w: nat)
    ensures DigitsValue(PadDigits(n, w)) == n
    ensures 1 <= w && n < Pow10(w) ==> |PadDigits(n, w)| == w
  {
    var s := NatToString(n);
    NatToStringValue(n);
    if |s| < w {
      LeadingZerosValue(w - |s|, s);
    }
    if 1 <= w && n < Pow10(w) {
      NatToStringLength(n, w);
    }
  }

  function TrimStart(s: string): string
    decreases |s|
  {
    if s != [] && IsIntSpace(s[0]) then TrimStart(s[1..]) else s
  }

  function TrimEnd(s: string): string
    decreases |s|
  {
    if s != [] && IsIntSpace(s[|s| - 1]) then TrimEnd(s[..|s| - 1]) else s
  }

  /** The literal `int()` reads: the string without the whitespace
      `IsIntSpace` accepts at either end. */
  function Trim(s: string): string {
    TrimEnd(TrimStart(s))
  }

  /** The first code point of each block of ten decimal digits (general
      category Nd) after the ASCII block, in ascending order; a digit's
      value is its offset in its block. */
  const DigitZeros: seq<int> := [
    0x660, 0x6F0, 0x7C0, 0x966, 0x9E6, 0xA66, 0xAE6, 0xB66, 0xBE6, 0xC66, 0xCE6, 0xD66, 0xDE6,
    0xE50, 0xED0, 0xF20, 0x1040, 0x1090, 0x17E0, 0x1810, 0x1946, 0x19D0, 0x1A80, 0x1A90, 0x1B50, 0x1BB0,
    0x1C40, 0x1C50, 0xA620, 0xA8D0, 0xA900, 0xA9D0, 0xA9F0, 0xAA50, 0xABF0, 0xFF10, 0x104A0, 0x10D30,
    0x11066, 0x110F0, 0x11136, 0x111D0, 0x112F0, 0x11450, 0x114D0, 0x11650, 0x116C0, 0x11730, 0x118E0,
    0x11950, 0x11C50, 0x11D50, 0x11DA0, 0x11F50, 0x16A60, 0x16AC0, 0x16B50, 0x1D7CE, 0x1D7D8, 0x1D7E2,
    0x1D7EC, 0x1D7F6, 0x1E140, 0x1E2F0, 0x1E4F0, 0x1E950, 0x1FBF0]

  function DigitIn(c: char, zeros: seq<int>): (r: Option<nat>)
    ensures r.Some? ==> r.value < 10
  {
    if zeros == [] || c as int < zeros[0] then None
    else if c as int < zeros[0] + 10 then Some(c as int - zeros[0])
    else DigitIn(c, zeros[1..])
  }

  /** The value of a decimal digit of any script, None for any other character. */
  function DecimalValue(c: char): (r: Option<nat>)
    ensures r.Some? ==> r.value < 10
    ensures IsDigit(c) ==> r == Some(c as int - '0' as int)
  {
    if IsDigit(c) then Some(c as int - '0' as int)
    else if c < '\U{660}' then None
    else DigitIn(c, DigitZeros)
  }

  predicate IsDecimal(c: char) {
    DecimalValue(c).Some?
  }

  /** The digits of an `int()` literal: decimal digits of any script, where
      a single underscore may stand between two digits. */
  predicate IsNumeral(s: string) {
    && s != [] && IsDecimal(s[0]) && IsDecimal(s[|s| - 1])
    && forall i :: 0 < i < |s| - 1 && !IsDecimal(s[i]) ==> s[i] == '_' && IsDecimal(s[i - 1]) && IsDecimal(s[i + 1])
  }

  /** The value of a numeral: its digits in order, underscores skipped. */
  function NumeralValue(s: string): nat
    decreases |s|
  {
    if s == [] then 0
    else
      match DecimalValue(s[|s| - 1])
      case Some(d) => NumeralValue(s[..|s| - 1]) * 10 + d
      case None => NumeralValue(s[..|s| - 1])
  }

  /** The number of decimal digits of `s`; underscores do not count. */
  function DigitCount(s: string): nat
    decreases |s|
  {
    if s == [] then 0
    else DigitCount(s[..|s| - 1]) + (if IsDecimal(s[|s| - 1]) then 1 else 0)
  }

  /** CPython's default limit on the decimal digits of an integer converted
      from or to a string: `int()` and `str()` raise `ValueError` beyond it. */
  const MaxStrDigits: nat := 4300

  /** Python's `int(s)`: optional surrounding whitespace, then a literal;
      anything else raises (None). */
  function ParseInt(s: string): Option<int> {
    ParseLiteral(Trim(s))
  }

  /** An optional sign, then a numeral. */
  function ParseLiteral(t: string): Option<int> {
    if t != [] && (t[0] == '-' || t[0] == '+') then
      match ParseNumeral(t[1..])
      case Some(n) => Some(if t[0] == '-' then -(n as int) else n)
      case None => None
    else ParseNumeral(t)
  }

  /** A numeral of at most `MaxStrDigits` digits, and its value. */
  function ParseNumeral(t: string): (r: Option<nat>)
    ensures r.Some? <==> IsNumeral(t) && DigitCount(t) <= MaxStrDigits
    ensures r.Some? ==> r.value == NumeralValue(t)
  {
    if IsNumeral(t) && DigitCount(t) <= MaxStrDigits then Some(NumeralValue(t)) else None
  }

  /** `int()` keeps the separators U+001C..U+001F that `split()` splits on,
      so a literal they surround is refused. */
  lemma SeparatorKept()
    ensures ParseInt("\U{1C}15") == None && ParseInt("15\U{1F}") == None
    ensures Words("\U{1C}15") == ["15"]
  {
    assert Trim("\U{1C}15") == "\U{1C}15";
    assert Trim("15\U{1F}") == "15\U{1F}";
    assert !IsDecimal('\U{1C}') && !IsDecimal('\U{1F}');
    assert "\U{1C}15"[1..] == "15";
    WordsOfJoin(["15"]);
  }

  /** An ASCII digit string is a numeral with its usual value, every
      character counts as a digit, and `int()` reads it exactly when it is
      within the digit limit. */
  lemma {:induction false} AsciiNumeral(s: string)
    requires s != [] && AllDigits(s)
    ensures IsNumeral(s) && NumeralValue(s) == DigitsValue(s) && DigitCount(s) == |s|
    ensures ParseInt(s) == if |s| <= MaxStrDigits then Some(DigitsValue(s)) else None
    decreases |s|
  {
    if |s| > 1 {
      AsciiNumeral(s[..|s| - 1]);
    }
    assert !IsIntSpace(s[0]) && !IsIntSpace(s[|s| - 1]);
    assert TrimStart(s) == s;
    assert TrimEnd(s) == s;
  }

  /** An underscore between two numerals changes nothing: `int("1_000")`
      is `int("1000")`, and the underscore does not count towards the digit
      limit. */
  lemma NumeralUnderscore(a: string, b: string)
    requires IsNumeral(a) && IsNumeral(b)
    ensures IsNumeral(a + "_" + b)
    ensures NumeralValue(a + "_" + b) == NumeralValue(a + b)
    ensures DigitCount(a + "_" + b) == DigitCount(a + b) == DigitCount(a) + DigitCount(b)
  {
    UnderscoreJoins(a, b);
    UnderscoreSkipped(a, b);
  }

  lemma UnderscoreJoins(a: string, b: string)
    requires IsNumeral(a) && IsNumeral(b)
    ensures IsNumeral(a + "_" + b)
  {
    var s := a + "_" + b;
    forall i | 0 < i < |s| - 1 && !IsDecimal(s[i])
      ensures s[i] == '_' && IsDecimal(s[i - 1]) && IsDecimal(s[i + 1])
    {
      if i < |a| {
        assert s[i] == a[i];
        assert s[i - 1] == a[i - 1] && s[i + 1] == a[i + 1];
      } else if i > |a| {
        assert s[i] == b[i - |a| - 1];
        if i - |a| - 1 > 0 {
          assert s[i - 1] == b[i - |a| - 2];
        }
        assert s[i + 1] == b[i - |a|];
      }
    }
  }

  lemma {:induction false} UnderscoreSkipped(a: string, b: string)
    ensures NumeralValue(a + "_" + b) == NumeralValue(a + b)
    ensures DigitCount(a + "_" + b) == DigitCount(a + b) == DigitCount(a) + DigitCount(b)
    decreases |b|
  {
    if b == [] {
      assert (a + "_" + b)[..|a|] == a;
      assert a + b == a;
      assert !IsDecimal('_');
    } else {
      var init := b[..|b| - 1];
      assert (a + "_" + b)[..|a + "_" + b| - 1] == a + "_" + init;
      assert (a + b)[..|a + b| - 1] == a + init;
      UnderscoreSkipped(a, init);
    }
  }

  /** Python's `str(i)` for an integer, when it does not raise. */
  function IntToString(i: int): string {
    if i < 0 then "-" + NatToString(-i) else NatToString(i)
  }

  /** Whether `str(i)` succeeds: the magnitude has at most `MaxStrDigits`
      decimal digits. */
  predicate StrConvertible(i: int) {
    |NatToString(if i < 0 then -i else i)| <= MaxStrDigits
  }

  /** `n` has at most `w` decimal digits exactly when it is below `10^w`. */
  lemma {:induction false} NatToStringFits(n: nat, w: nat)
    requires 1 <= w
    ensures |NatToString(n)| <= w <==> n < Pow10(w)
    decreases w
  {
    if w > 1 {
      NatToStringFits(n / 10, w - 1);
      assert n / 10 < Pow10(w - 1) <==> n < 10 * Pow10(w - 1);
      if n < 10 {
        Pow10Positive(w - 1);
      }
    }
  }

  lemma {:induction false} Pow10Positive(w: nat)
    ensures Pow10(w) >= 1
    decreases w
  {
    if w > 0 {
      Pow10Positive(w - 1);
    }
  }

  /** `int(str(i)) == i` whenever `str(i)` succeeds; beyond the digit limit
      `int()` refuses the text as well. */
  lemma IntToStringRoundTrip(i: int)
    ensures ParseInt(IntToString(i)) == if StrConvertible(i) then Some(i) else None
  {
    var digits := NatToString(if i < 0 then -i else i);
    NatToStringValue(if i < 0 then -i else i);
    AsciiNumeral(digits);
    if i < 0 {
      NegatedNumeral(digits);
    }
  }

  /** `int()` reads a numeral of `MaxStrDigits` digits and refuses one
      digit more. */
  lemma DigitLimit()
    ensures ParseInt(Zeros(MaxStrDigits)) == Some(0)
    ensures ParseInt(Zeros(MaxStrDigits + 1)) == None
  {
    AsciiNumeral(Zeros(MaxStrDigits));
    AsciiNumeral(Zeros(MaxStrDigits + 1));
    LeadingZerosValue(MaxStrDigits, []);
    assert Zeros(MaxStrDigits) + [] == Zeros(MaxStrDigits);
  }

  /** A minus sign before a numeral negates its value. */
  lemma NegatedNumeral(digits: string)
    requires digits != [] && IsDigit(digits[|digits| - 1])
    ensures ParseInt("-" + digits)
         == match ParseNumeral(digits) case Some(n) => Some(-(n as int)) case None => None
  {
    var s := "-" + digits;
    assert s[1..] == digits;
    assert s[0] == '-' && s[|s| - 1] == digits[|digits| - 1];
    TrimPlain(s);
  }

  /** Text without whitespace at either end is its own trimmed form. */
  lemma TrimPlain(s: string)
    requires s != [] && !IsIntSpace(s[0]) && !IsIntSpace(s[|s| - 1])
    ensures Trim(s) == s
  {
    assert TrimStart(s) == s;
  }

  // ---------------------------------------------------------------------
  // strftime('%Y/%m/%d')

  datatype Date = Date(year: nat, month: nat, day: nat)

  predicate InRange(d: Date) {
    1 <= d.year <= 9999 && 1 <= d.month <= 12 && 1 <= d.day <= 31
  }

  function FormatDate(d: Date): string {
    PadDigits(d.year, 4) + "/" + PadDigits(d.month, 2) + "/" + PadDigits(d.day, 2)
  }

  /** Reads a `YYYY/MM/DD` string back into a date. */
  function ParseDate(s: string): Option<Date> {
    if |s| == 10 && s[4] == '/' && s[7] == '/'
       && AllDigits(s[..4]) && AllDigits(s[5..7]) && AllDigits(s[8..])
    then Some(Date(DigitsValue(s[..4]), DigitsValue(s[5..7]), DigitsValue(s[8..])))
    else None
  }

  /** The formatted date has the fixed `YYYY/MM/DD` shape and determines the date. */
  lemma FormatDateRoundTrip(d: Date)
    requires InRange(d)
    ensures |FormatDate(d)| == 10
    ensures ParseDate(FormatDate(d)) == Some(d)
  {
    PadDigitsValue(d.year, 4);
    PadDigitsValue(d.month, 2);
    PadDigitsValue(d.day, 2);
    var y, m, dd := PadDigits(d.year, 4), PadDigits(d.month, 2), PadDigits(d.day, 2);
    var s := FormatDate(d);
    assert s[..4] == y;
    assert s[5..7] == m;
    assert s[8..] == dd;
  }
}
