/**
 Printing and parsing of decimal integers and of hexadecimal byte strings, as
 used by ids, fingerprints and webhook signatures.
 */
module Text {
  import opened Wrappers

  const I64_MIN: int := -0x8000_0000_0000_0000
  const I64_MAX: int := 0x7FFF_FFFF_FFFF_FFFF

  // ----- Decimal -----

  predicate IsDigit(c: char) { '0' <= c <= '9' }

  predicate AllDigits(s: string) { forall i :: 0 <= i < |s| ==> IsDigit(s[i]) }

  function DigitChar(d: int): (c: char)
    requires 0 <= d < 10
    ensures IsDigit(c) && c as int == '0' as int + d
  {
    ('0' as int + d) as char
  }

  function Digits(n: nat): (s: string)
    ensures s != [] && AllDigits(s)
  {
    if n < 10 then [DigitChar(n)] else Digits(n / 10) + [DigitChar(n % 10)]
  }

  /** Rust's `to_string` on an integer. */
  function Decimal(i: int): string {
    if i < 0 then "-" + Digits(-i) else Digits(i)
  }

  function DigitsValue(s: string): (n: nat)
    requires AllDigits(s)
  {
    if s == [] then 0 else 10 * DigitsValue(s[..|s| - 1]) + (s[|s| - 1] as int - '0' as int)
  }

  /** Rust's `parse::<i64>()`: an optional sign, at least one digit, and a value in range. */
  function ParseI64(s: string): (r: Option<int>)
    ensures r.Some? ==> I64_MIN <= r.value <= I64_MAX
  {
    var (sign, rest) :=
      if s != [] && s[0] == '-' then (-1, s[1..])
      else if s != [] && s[0] == '+' then (1, s[1..])
      else (1, s);
    if rest == [] || !AllDigits(rest) then None
    else
      var v := sign * DigitsValue(rest);
      if I64_MIN <= v <= I64_MAX then Some(v) else None
  }

  lemma {:induction false} DigitsRoundTrip(n: nat)
    ensures DigitsValue(Digits(n)) == n
  {
    if n >= 10 {
      DigitsRoundTrip(n / 10);
      var s := Digits(n / 10) + [DigitChar(n % 10)];
      assert s[..|s| - 1] == Digits(n / 10);
    }
  }

  /** Parsing a printed in-range integer gives it back. */
  lemma DecimalRoundTrip(i: int)
    requires I64_MIN <= i <= I64_MAX
    ensures ParseI64(Decimal(i)) == Some(i)
  {
    hide Digits, DigitsValue;
    if i < 0 {
      DigitsRoundTrip(-i);
      assert Decimal(i)[0] == '-' && Decimal(i)[1..] == Digits(-i);
    } else {
      DigitsRoundTrip(i);
      assert IsDigit(Decimal(i)[0]);
    }
  }

  function InRange(v: int): Option<int> {
    if I64_MIN <= v <= I64_MAX then Some(v) else None
  }

  /** Digits are read with and without a sign of either kind, when the value fits. */
  lemma SignsAreRead(digits: string)
    requires digits != [] && AllDigits(digits)
    ensures ParseI64(digits) == ParseI64("+" + digits) == InRange(DigitsValue(digits))
    ensures ParseI64("-" + digits) == InRange(0 - DigitsValue(digits))
  {
    hide DigitsValue;
    assert IsDigit(digits[0]);
    assert ("+" + digits)[1..] == digits && ("-" + digits)[1..] == digits;
  }

  /** No other text is read. */
  lemma OnlyDigitsAreRead(s: string)
    requires ParseI64(s).Some?
    ensures exists digits :: digits != [] && AllDigits(digits) && s in [digits, "+" + digits, "-" + digits]
  {
    hide DigitsValue;
    var digits := if s[0] in {'+', '-'} then s[1..] else s;
    assert s == [s[0]] + s[1..];
    assert s in [digits, "+" + digits, "-" + digits];
  }

  lemma DecimalShape(i: int)
    ensures |Decimal(i)| > 0
    ensures forall c :: c in Decimal(i) ==> IsDigit(c) || c == '-'
    ensures i >= 0 ==> AllDigits(Decimal(i))
  {
  }

  /** Where the first occurrence of a separator is decides a split uniquely. */
  lemma SplitAtFirst(sep: char, a: string, b: string, a': string, b': string)
    requires sep !in a && sep !in a'
    requires a + [sep] + b == a' + [sep] + b'
    ensures a == a' && b == b'
  {
    var s, s' := a + [sep] + b, a' + [sep] + b';
    assert s[|a|] == sep && s'[|a'|] == sep;
    assert forall i :: 0 <= i < |a| ==> s[i] == a[i] != sep;
    assert forall i :: 0 <= i < |a'| ==> s'[i] == a'[i] != sep;
    assert a == s[..|a|] && a' == s'[..|a'|];
    assert b == s[|a| + 1..] && b' == s'[|a'| + 1..];
  }

  /** Where the last occurrence of a separator is decides a split uniquely. */
  lemma SplitAtLast(sep: char, a: string, b: string, a': string, b': string)
    requires sep !in b && sep !in b'
    requires a + [sep] + b == a' + [sep] + b'
    ensures a == a' && b == b'
  {
    var s, s' := a + [sep] + b, a' + [sep] + b';
    assert s[|a|] == sep && s'[|a'|] == sep;
    assert forall i :: |a| < i < |s| ==> s[i] == b[i - |a| - 1] != sep;
    assert forall i :: |a'| < i < |s'| ==> s'[i] == b'[i - |a'| - 1] != sep;
    assert a == s[..|a|] && a' == s'[..|a'|];
    assert b == s[|a| + 1..] && b' == s'[|a'| + 1..];
  }

  lemma DecimalInjective(i: int, j: int)
    requires Decimal(i) == Decimal(j)
    ensures i == j
  {
    assert i < 0 ==> Decimal(i)[0] == '-' && Decimal(i)[1..] == Digits(-i);
    assert j < 0 ==> Decimal(j)[0] == '-' && Decimal(j)[1..] == Digits(-j);
    assert i >= 0 ==> IsDigit(Decimal(i)[0]);
    assert j >= 0 ==> IsDigit(Decimal(j)[0]);
    DigitsRoundTrip(if i < 0 then -i else i);
    DigitsRoundTrip(if j < 0 then -j else j);
  }

  // ----- Hexadecimal -----

  function HexDigit(n: bv8): (c: char)
    requires n < 16
    ensures c != '_' && c != '-' && c != ',' && c != ' '
    ensures HexValue(c) == Some(n)
  {
    match n
    case 0 => '0' case 1 => '1' case 2 => '2' case 3 => '3'
    case 4 => '4' case 5 => '5' case 6 => '6' case 7 => '7'
    case 8 => '8' case 9 => '9' case 10 => 'a' case 11 => 'b'
    case 12 => 'c' case 13 => 'd' case 14 => 'e' case _ => 'f'
  }

  function HexValue(c: char): (r: Option<bv8>)
    ensures r.Some? ==> r.value < 16
  {
    match c
    case '0' => Some(0) case '1' => Some(1) case '2' => Some(2) case '3' => Some(3)
    case '4' => Some(4) case '5' => Some(5) case '6' => Some(6) case '7' => Some(7)
    case '8' => Some(8) case '9' => Some(9)
    case 'a' => Some(10) case 'b' => Some(11) case 'c' => Some(12)
    case 'd' => Some(13) case 'e' => Some(14) case 'f' => Some(15)
    case 'A' => Some(10) case 'B' => Some(11) case 'C' => Some(12)
    case 'D' => Some(13) case 'E' => Some(14) case 'F' => Some(15)
    case _ => None
  }

  function HexEncode(b: seq<bv8>): (s: string)
    ensures |s| == 2 * |b|
  {
    if b == [] then [] else [HexDigit(b[0] >> 4), HexDigit(b[0] & 15)] + HexEncode(b[1..])
  }

  function HexDecode(s: string): (r: Option<seq<bv8>>)
    ensures r.Some? ==> 2 * |r.value| == |s|
  {
    if s == [] then Some([])
    else if |s| == 1 then None
    else
      var hi, lo, rest := HexValue(s[0]), HexValue(s[1]), HexDecode(s[2..]);
      if hi.None? || lo.None? || rest.None? then None
      else Some([(hi.value << 4) | lo.value] + rest.value)
  }

  lemma NibblesRejoin(b: bv8)
    ensures b >> 4 < 16 && b & 15 < 16
    ensures ((b >> 4) << 4) | (b & 15) == b
  {
  }

  /** Decoding an encoded byte string gives it back. */
  lemma {:induction false} HexRoundTrip(b: seq<bv8>)
    ensures HexDecode(HexEncode(b)) == Some(b)
  {
    if b != [] {
      HexRoundTrip(b[1..]);
      NibblesRejoin(b[0]);
      var s := HexEncode(b);
      assert s[2..] == HexEncode(b[1..]);
      assert s[0] == HexDigit(b[0] >> 4) && s[1] == HexDigit(b[0] & 15);
      assert b == [b[0]] + b[1..];
    }
  }

  /** Two digits a byte, the high one first, in lower case; both cases are read. */
  lemma HexIsLowerCase(b: bv8, k: nat)
    requires k < 6
    ensures HexEncode([b])
      == ["0123456789abcdef"[(b >> 4) as int], "0123456789abcdef"[(b & 15) as int]]
    ensures HexValue("ABCDEF"[k]) == HexValue("abcdef"[k]) == Some([10, 11, 12, 13, 14, 15][k])
  {
    NibblesRejoin(b);
    LowerCaseDigit(b >> 4);
    LowerCaseDigit(b & 15);
    assert [b][1..] == [] && HexEncode([]) == [];
  }

  lemma LowerCaseDigit(n: bv8)
    requires n < 16
    ensures (n as int) < 16 && HexDigit(n) == "0123456789abcdef"[n as int]
  {
  }

  lemma {:induction false} HexShape(b: seq<bv8>)
    ensures forall c :: c in HexEncode(b) ==> HexValue(c).Some?
  {
    if b != [] {
      HexShape(b[1..]);
      NibblesRejoin(b[0]);
    }
  }

  lemma {:induction false} HexDecodeSound(s: string, i: nat)
    requires HexDecode(s).Some? && i < |s|
    ensures HexValue(s[i]).Some?
  {
    if i >= 2 { HexDecodeSound(s[2..], i - 2); }
  }
}
