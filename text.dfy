/** JavaScript string behaviour the pages rely on: number-to-string conversion,
    `padStart`, `parseInt`, `toLowerCase` on ASCII letters and the `<`
    ordering of strings that `Array.prototype.sort` uses by default. */
module Text {
  import opened Wrappers

  // ---------------------------------------------------------------------------
  // Digits and decimal numerals
  // ---------------------------------------------------------------------------

  predicate IsDigit(c: char) { '0' <= c <= '9' }

  predicate AllDigits(s: string) { forall i :: 0 <= i < |s| ==> IsDigit(s[i]) }

  function DigitChar(d: nat): (c: char)
    requires d < 10
    ensures IsDigit(c) && c as int - '0' as int == d
  {
    ('0' as int + d) as char
  }

  /** The value of `c` as a digit in base 10 or 16 (as `parseInt` reads it),
      or -1 when `c` is not such a digit. */
  function RadixDigit(c: char, radix: nat): (v: int)
    requires radix == 10 || radix == 16
    ensures -1 <= v < radix
    ensures IsDigit(c) ==> v == c as int - '0' as int
    ensures radix == 10 ==> (0 <= v <==> IsDigit(c))
  {
    if '0' <= c <= '9' then c as int - '0' as int
    else if radix == 16 && 'a' <= c <= 'f' then c as int - 'a' as int + 10
    else if radix == 16 && 'A' <= c <= 'F' then c as int - 'A' as int + 10
    else -1
  }

  predicate AllRadixDigits(s: string, radix: nat)
    requires radix == 10 || radix == 16
  {
    forall i :: 0 <= i < |s| ==> 0 <= RadixDigit(s[i], radix)
  }

  /** The number that the digit string `s` denotes in base `radix`. */
  function RadixValue(s: string, radix: nat): nat
    requires radix == 10 || radix == 16
    requires AllRadixDigits(s, radix)
    decreases |s|
  {
    if s == [] then 0
    else radix * RadixValue(s[..|s| - 1], radix) + RadixDigit(s[|s| - 1], radix)
  }

  function DecimalValue(s: string): nat
    requires AllDigits(s)
  {
    RadixValue(s, 10)
  }

  /** `n.toString()` for a non-negative integer. */
  function NatToString(n: nat): (s: string)
    ensures 1 <= |s| && AllDigits(s)
    decreases n
  {
    if n < 10 then [DigitChar(n)] else NatToString(n / 10) + [DigitChar(n % 10)]
  }

  /** `i.toString()` (and `${i}`) for an integer. */
  function IntToString(i: int): (s: string)
    ensures 1 <= |s| && (s[0] == '-' <==> i < 0)
  {
    if i < 0 then "-" + NatToString(-i)
    else
      NatToStringLeadingDigit(i);
      NatToString(i)
  }

  /** `parseInt` reads `i.toString()` back as `i`. */
  lemma IntToStringParsesBack(i: int)
    ensures JsParseInt(IntToString(i)) == Some(i)
  {
    if i < 0 {
      ParseIntReadsNegativeNumeral(-i);
    } else {
      var s := NatToString(i);
      assert s + [] == s;
      ParseIntReadsNumeral(i, []);
    }
  }

  lemma {:induction false} DecimalValueOfNatToString(n: nat)
    ensures DecimalValue(NatToString(n)) == n
    decreases n
  {
    var s := NatToString(n);
    if n >= 10 {
      DecimalValueOfNatToString(n / 10);
      assert s[..|s| - 1] == NatToString(n / 10);
    } else {
      assert s[..|s| - 1] == [];
      assert RadixValue(s[..|s| - 1], 10) == 0;
    }
  }

  lemma NatToStringInjective(m: nat, n: nat)
    ensures NatToString(m) == NatToString(n) <==> m == n
  {
    DecimalValueOfNatToString(m);
    DecimalValueOfNatToString(n);
  }

  /** A decimal numeral has no leading zero, except "0" itself. */
  lemma {:induction false} NatToStringLeadingDigit(n: nat)
    ensures NatToString(n)[0] == '0' <==> n == 0
    decreases n
  {
    if n >= 10 {
      NatToStringLeadingDigit(n / 10);
    }
  }

  lemma NatToStringLength(n: nat)
    ensures n < 10 ==> |NatToString(n)| == 1
    ensures 10 <= n < 100 ==> |NatToString(n)| == 2
    ensures 100 <= n < 1000 ==> |NatToString(n)| == 3
    ensures 1000 <= n < 10000 ==> |NatToString(n)| == 4
  {
    if 10 <= n {
      assert |NatToString(n)| == |NatToString(n / 10)| + 1;
      if 100 <= n {
        assert |NatToString(n / 10)| == |NatToString(n / 100)| + 1;
        if 1000 <= n {
          assert |NatToString(n / 100)| == |NatToString(n / 1000)| + 1;
        }
      }
    }
  }

  // ---------------------------------------------------------------------------
  // padStart
  // ---------------------------------------------------------------------------

  /** `s.padStart(width, fill)` with a one-character fill string. */
  function PadStart(s: string, width: nat, fill: char): (r: string)
    ensures |r| == if |s| >= width then |s| else width
    ensures r[|r| - |s|..] == s
    ensures forall i :: 0 <= i < |r| - |s| ==> r[i] == fill
  {
    if |s| >= width then s else seq(width - |s|, _ => fill) + s
  }

  /** `n.toString().padStart(2, "0")`. */
  function Pad2(n: nat): (r: string)
    ensures |r| >= 2 && AllDigits(r)
  {
    PadStart(NatToString(n), 2, '0')
  }

  /** Below 100, the padded numeral is exactly two digits and denotes `n`. */
  lemma Pad2Digits(n: nat)
    requires n < 100
    ensures |Pad2(n)| == 2 && AllDigits(Pad2(n)) && DecimalValue(Pad2(n)) == n
  {
    NatToStringLength(n);
    DecimalValueOfNatToString(n);
    var p := Pad2(n);
    if n < 10 {
      assert p == ['0', DigitChar(n)];
      assert p[..1] == ['0'] && ['0'][..0] == [];
      assert DecimalValue(['0']) == 0;
    }
  }

  // ---------------------------------------------------------------------------
  // `||` on strings
  // ---------------------------------------------------------------------------

  /** `a || fallback` for a string that may be missing: the empty string is
      falsy, so it falls back too. */
  function OrElse(a: Option<string>, fallback: string): (r: string)
    ensures a.Some? && a.value != "" ==> r == a.value
    ensures r == fallback || a == Some(r)
    ensures r != "" <==> (a.Some? && a.value != "") || fallback != ""
  {
    if a.Some? && a.value != "" then a.value else fallback
  }

  // ---------------------------------------------------------------------------
  // toLowerCase
  // ---------------------------------------------------------------------------

  /** `s.toLowerCase()` restricted to the ASCII capitals A-Z. */
  function ToLowerAscii(s: string): (r: string)
    ensures |r| == |s|
    ensures !HasCapital(r)
    ensures !HasCapital(s) ==> r == s
    ensures forall i :: 0 <= i < |s| && !('A' <= s[i] <= 'Z') ==> r[i] == s[i]
    ensures forall i :: 0 <= i < |s| && 'A' <= s[i] <= 'Z' ==> 'a' <= r[i] <= 'z' && r[i] as int - s[i] as int == 32
  {
    seq(|s|, i requires 0 <= i < |s| => if 'A' <= s[i] <= 'Z' then (s[i] as int + 32) as char else s[i])
  }

  predicate HasCapital(s: string)
  {
    exists i :: 0 <= i < |s| && 'A' <= s[i] <= 'Z'
  }

  /** Lower-casing twice is lower-casing once. */
  lemma ToLowerAsciiIdempotent(s: string)
    ensures ToLowerAscii(ToLowerAscii(s)) == ToLowerAscii(s)
  {
  }

  // ---------------------------------------------------------------------------
  // parseInt (ECMAScript 2024, section 19.2.5, radix argument omitted)
  // ---------------------------------------------------------------------------

  /** The WhiteSpace and LineTerminator code points that parseInt skips. */
  predicate IsJsWhiteSpace(c: char)
  {
    c == '\t' || c == '\n' || c == '\r' || c == '\U{B}' || c == '\U{C}' || c == ' '
    || c == '\U{A0}' || c == '\U{1680}' || ('\U{2000}' <= c <= '\U{200A}')
    || c == '\U{2028}' || c == '\U{2029}' || c == '\U{202F}' || c == '\U{205F}'
    || c == '\U{3000}' || c == '\U{FEFF}'
  }

  function TrimStart(s: string): (r: string)
    ensures |r| <= |s| && r == s[|s| - |r|..]
    ensures |r| > 0 ==> !IsJsWhiteSpace(r[0])
    decreases |s|
  {
    if |s| > 0 && IsJsWhiteSpace(s[0]) then TrimStart(s[1..]) else s
  }

  /** Only an input made of blanks trims to nothing. */
  lemma {:induction false} TrimStartEmptyIffBlank(s: string)
    ensures TrimStart(s) == [] <==> forall i :: 0 <= i < |s| ==> IsJsWhiteSpace(s[i])
    decreases |s|
  {
    if |s| > 0 {
      TrimStartEmptyIffBlank(s[1..]);
      if IsJsWhiteSpace(s[0]) {
        assert forall i :: 1 <= i < |s| ==> s[i] == s[1..][i - 1];
      }
    }
  }

  /** Length of the longest prefix of `s` made of base-`radix` digits. */
  function DigitRun(s: string, radix: nat): (n: nat)
    requires radix == 10 || radix == 16
    ensures n <= |s| && AllRadixDigits(s[..n], radix)
    ensures n < |s| ==> RadixDigit(s[n], radix) < 0
    decreases |s|
  {
    if |s| > 0 && 0 <= RadixDigit(s[0], radix) then 1 + DigitRun(s[1..], radix) else 0
  }

  /** The unsigned part of parseInt: an optional "0x"/"0X" prefix selects
      base 16, then the longest run of digits is read; None when it is empty. */
  function ParseUnsigned(u: string): Option<nat>
  {
    var hex := |u| >= 2 && u[0] == '0' && (u[1] == 'x' || u[1] == 'X');
    var radix := if hex then 16 else 10;
    var body := if hex then u[2..] else u;
    var n := DigitRun(body, radix);
    if n == 0 then None else Some(RadixValue(body[..n], radix))
  }

  /** parseInt after the leading blanks are skipped: an optional sign, then
      the unsigned part. */
  function ReadSigned(s: string): (r: Option<int>)
    ensures s == [] ==> r.None?
    ensures r.Some? && r.value < 0 ==> s != [] && s[0] == '-'
  {
    if |s| > 0 && s[0] == '-' then
      match ParseUnsigned(s[1..])
      case None => None
      case Some(v) => Some(-(v as int))
    else if |s| > 0 && s[0] == '+' then
      match ParseUnsigned(s[1..])
      case None => None
      case Some(v) => Some(v)
    else
      match ParseUnsigned(s)
      case None => None
      case Some(v) => Some(v)
  }

  /** `parseInt(input)`: None stands for NaN. The sign of -0 is not kept. */
  function JsParseInt(input: string): (r: Option<int>)
    ensures input == [] ==> r.None?
    ensures r.Some? && r.value < 0 ==> '-' in input
  {
    var s := TrimStart(input);
    assert s != [] ==> s[0] == input[|input| - |s|];
    ReadSigned(s)
  }

  /** Blank input reads as NaN, and a negative number needs a minus sign as
      the first character after the blanks. */
  lemma JsParseIntBlankAndSign(input: string)
    ensures (forall i :: 0 <= i < |input| ==> IsJsWhiteSpace(input[i])) ==> JsParseInt(input).None?
    ensures JsParseInt(input).Some? && JsParseInt(input).value < 0 ==>
      TrimStart(input) != [] && TrimStart(input)[0] == '-'
  {
    TrimStartEmptyIffBlank(input);
  }

  lemma {:induction false} DigitRunStopsAfterDigits(a: string, rest: string)
    requires AllDigits(a)
    requires rest == [] || RadixDigit(rest[0], 10) < 0
    ensures DigitRun(a + rest, 10) == |a|
    decreases |a|
  {
    if a != [] {
      assert (a + rest)[1..] == a[1..] + rest;
      DigitRunStopsAfterDigits(a[1..], rest);
    }
  }

  lemma ParseUnsignedReadsNumeral(n: nat, rest: string)
    requires rest == [] || RadixDigit(rest[0], 10) < 0
    requires n != 0 || rest == [] || (rest[0] != 'x' && rest[0] != 'X')
    ensures ParseUnsigned(NatToString(n) + rest) == Some(n)
  {
    var a := NatToString(n);
    var s := a + rest;
    NatToStringLeadingDigit(n);
    NatToStringLength(n);
    if n >= 10 {
      assert s[1] == a[1];
    } else if |s| >= 2 {
      assert s[1] == rest[0];
    }
    DigitRunStopsAfterDigits(a, rest);
    assert s[..|a|] == a;
    DecimalValueOfNatToString(n);
  }

  /** parseInt reads a decimal numeral and stops at the first character that
      is not a digit ("12abc" and "12.5" both give 12). */
  lemma ParseIntReadsNumeral(n: nat, rest: string)
    requires rest == [] || RadixDigit(rest[0], 10) < 0
    requires n != 0 || rest == [] || (rest[0] != 'x' && rest[0] != 'X')
    ensures JsParseInt(NatToString(n) + rest) == Some(n)
  {
    var s := NatToString(n) + rest;
    assert s[0] == NatToString(n)[0];
    ParseUnsignedReadsNumeral(n, rest);
    JsParseIntOfDigitStart(s);
  }

  /** Input starting with a digit has no blank and no sign to skip. */
  lemma JsParseIntOfDigitStart(s: string)
    requires |s| > 0 && IsDigit(s[0])
    ensures ParseUnsigned(s).Some? ==> JsParseInt(s) == Some(ParseUnsigned(s).value as int)
  {
    assert !IsJsWhiteSpace(s[0]);
    assert TrimStart(s) == s;
  }

  /** A leading minus sign negates the numeral. */
  lemma ParseIntReadsNegativeNumeral(n: nat)
    ensures JsParseInt("-" + NatToString(n)) == Some(-(n as int))
  {
    var a := NatToString(n);
    var s := "-" + a;
    assert s[0] == '-' && !IsJsWhiteSpace('-');
    assert TrimStart(s) == s;
    assert s[1..] == a + [];
    ParseUnsignedReadsNumeral(n, []);
    assert ReadSigned(s) == Some(-(n as int));
  }

  // ---------------------------------------------------------------------------
  // The ordering of strings (`a < b` in JavaScript)
  // ---------------------------------------------------------------------------

  /** `a < b` on strings: `a` is a proper prefix of `b`, or at the first
      position where they differ `a` has the smaller character. */
  predicate LexLess(a: string, b: string)
    decreases |a|
  {
    |b| > 0 && (|a| == 0 || a[0] < b[0] || (a[0] == b[0] && LexLess(a[1..], b[1..])))
  }

  predicate LexLe(a: string, b: string)
  {
    a == b || LexLess(a, b)
  }

  lemma {:induction false} LexLessIrreflexive(a: string)
    ensures !LexLess(a, a)
    decreases |a|
  {
    if |a| > 0 {
      LexLessIrreflexive(a[1..]);
    }
  }

  lemma {:induction false} LexLessAsymmetric(a: string, b: string)
    ensures !(LexLess(a, b) && LexLess(b, a))
    decreases |a|
  {
    if |a| > 0 && |b| > 0 {
      LexLessAsymmetric(a[1..], b[1..]);
    }
  }

  lemma {:induction false} LexLessTransitive(a: string, b: string, c: string)
    requires LexLess(a, b) && LexLess(b, c)
    ensures LexLess(a, c)
    decreases |a|
  {
    if |a| > 0 && a[0] == b[0] && b[0] == c[0] {
      LexLessTransitive(a[1..], b[1..], c[1..]);
    }
  }

  lemma {:induction false} LexTotal(a: string, b: string)
    ensures a == b || LexLess(a, b) || LexLess(b, a)
    decreases |a|
  {
    if |a| > 0 && |b| > 0 && a[0] == b[0] {
      LexTotal(a[1..], b[1..]);
      if a[1..] == b[1..] {
        assert a == [a[0]] + a[1..] && b == [b[0]] + b[1..];
      }
    }
  }

  lemma LexLeTransitive(a: string, b: string, c: string)
    requires LexLe(a, b) && LexLe(b, c)
    ensures LexLe(a, c)
  {
    if a != b && b != c {
      LexLessTransitive(a, b, c);
    }
  }

  lemma LexLeAntisymmetric(a: string, b: string)
    requires LexLe(a, b) && LexLe(b, a)
    ensures a == b
  {
    LexLessAsymmetric(a, b);
  }

  /** Comparing two concatenations whose first parts have equal length: the
      first parts decide, and only on a tie do the second parts. */
  lemma {:induction false} LexLessConcat(a: string, b: string, c: string, d: string)
    requires |a| == |b|
    ensures LexLess(a + c, b + d) <==> LexLess(a, b) || (a == b && LexLess(c, d))
    decreases |a|
  {
    if |a| == 0 {
      assert a + c == c && b + d == d;
    } else {
      assert (a + c)[1..] == a[1..] + c;
      assert (b + d)[1..] == b[1..] + d;
      LexLessConcat(a[1..], b[1..], c, d);
      assert a == [a[0]] + a[1..] && b == [b[0]] + b[1..];
    }
  }

  /** For digit strings of one width, `<` on the strings is `<` on the numbers
      they denote, and equal strings are equal numbers. */
  lemma {:induction false} FixedWidthDecimalOrder(a: string, b: string)
    requires |a| == |b| && AllDigits(a) && AllDigits(b)
    ensures LexLess(a, b) <==> DecimalValue(a) < DecimalValue(b)
    ensures a == b <==> DecimalValue(a) == DecimalValue(b)
    decreases |a|
  {
    if |a| > 0 {
      var a', b' := a[..|a| - 1], b[..|b| - 1];
      var x, y := a[|a| - 1], b[|b| - 1];
      FixedWidthDecimalOrder(a', b');
      assert a == a' + [x] && b == b' + [y];
      LexLessConcat(a', b', [x], [y]);
      assert [x][1..] == [] && [y][1..] == [];
      assert LexLess([x], [y]) <==> x < y;
      assert DecimalValue(a) == 10 * DecimalValue(a') + (x as int - '0' as int);
      assert DecimalValue(b) == 10 * DecimalValue(b') + (y as int - '0' as int);
    }
  }

  // ---------------------------------------------------------------------------
  // Calendar dates written YYYY-MM-DD (the full-date form of RFC 3339, section 5.6)
  // ---------------------------------------------------------------------------

  predicate IsFullDate(s: string)
  {
    |s| == 10 && AllDigits(s[..4]) && s[4] == '-' && AllDigits(s[5..7]) && s[7] == '-'
    && AllDigits(s[8..])
  }

  function FullDateYear(s: string): nat requires IsFullDate(s) { DecimalValue(s[..4]) }
  function FullDateMonth(s: string): nat requires IsFullDate(s) { DecimalValue(s[5..7]) }
  function FullDateDay(s: string): nat requires IsFullDate(s) { DecimalValue(s[8..]) }

  /** (y1, m1, d1) is an earlier calendar day than (y2, m2, d2). */
  predicate DayBefore(y1: int, m1: int, d1: int, y2: int, m2: int, d2: int)
  {
    y1 < y2 || (y1 == y2 && (m1 < m2 || (m1 == m2 && d1 < d2)))
  }

  /** A dash followed by `c` compares with a dash followed by `d` as `c` with `d`. */
  lemma LexLessAfterDash(c: string, d: string)
    ensures LexLess("-" + c, "-" + d) <==> LexLess(c, d)
  {
    LexLessConcat("-", "-", c, d);
    LexLessIrreflexive("-");
  }

  /** YYYY-MM-DD strings sort chronologically. */
  lemma FullDateOrderIsChronological(s: string, t: string)
    requires IsFullDate(s) && IsFullDate(t)
    ensures LexLess(s, t) <==>
      DayBefore(FullDateYear(s), FullDateMonth(s), FullDateDay(s),
                FullDateYear(t), FullDateMonth(t), FullDateDay(t))
  {
    FixedWidthDecimalOrder(s[..4], t[..4]);
    FixedWidthDecimalOrder(s[5..7], t[5..7]);
    FixedWidthDecimalOrder(s[8..], t[8..]);
    assert s == s[..4] + ("-" + (s[5..7] + ("-" + s[8..])));
    assert t == t[..4] + ("-" + (t[5..7] + ("-" + t[8..])));
    LexLessConcat(s[..4], t[..4], "-" + (s[5..7] + ("-" + s[8..])), "-" + (t[5..7] + ("-" + t[8..])));
    LexLessAfterDash(s[5..7] + ("-" + s[8..]), t[5..7] + ("-" + t[8..]));
    LexLessConcat(s[5..7], t[5..7], "-" + s[8..], "-" + t[8..]);
    LexLessAfterDash(s[8..], t[8..]);
  }
}
