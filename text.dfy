/**
 * The parts of Go's `strings`, `strconv` and `fmt` packages that the monitor's
 * decisions depend on: replacing spaces, ASCII lower-casing, substring search,
 * joining, decimal formatting of integers (`%v`) and `strconv.Atoi` with its
 * error ignored, on a 64-bit platform.
 */
module Text {

  const MaxInt64: int := 0x7fff_ffff_ffff_ffff
  const MinInt64: int := -0x8000_0000_0000_0000
  const MaxUint64: int := 0xffff_ffff_ffff_ffff

  /** `strings.Replace(s, " ", "-", -1)`. */
  function ReplaceSpaces(s: string): (r: string)
    ensures |r| == |s|
    ensures ' ' !in r
    ensures forall i :: 0 <= i < |s| && s[i] != ' ' ==> r[i] == s[i]
    ensures forall i :: 0 <= i < |s| && s[i] == ' ' ==> r[i] == '-'
  {
    if s == [] then [] else [if s[0] == ' ' then '-' else s[0]] + ReplaceSpaces(s[1..])
  }

  function LowerChar(c: char): char {
    if 'A' <= c <= 'Z' then (c as int + 32) as char else c
  }

  /** `strings.ToLower`, restricted to ASCII letters. */
  function ToLower(s: string): (r: string)
    ensures |r| == |s|
    ensures forall i :: 0 <= i < |s| ==> r[i] == LowerChar(s[i])
  {
    if s == [] then [] else [LowerChar(s[0])] + ToLower(s[1..])
  }

  predicate OccursAt(s: string, sub: string, i: nat) {
    i + |sub| <= |s| && s[i..i + |sub|] == sub
  }

  /** `strings.Contains(s, sub)`. */
  predicate Contains(s: string, sub: string)
    ensures Contains(s, sub) ==> |sub| <= |s|
    ensures sub == [] ==> Contains(s, sub)
  {
    assert OccursAt(s, sub, 0) <== sub == [];
    exists i: nat | i <= |s| :: OccursAt(s, sub, i)
  }

  /** `strings.Join(parts, sep)`. */
  function Join(parts: seq<string>, sep: string): (r: string)
    ensures |parts| == 1 ==> r == parts[0]
  {
    if parts == [] then ""
    else if |parts| == 1 then parts[0]
    else parts[0] + sep + Join(parts[1..], sep)
  }

  function DigitChar(d: nat): char
    requires d < 10
  {
    ('0' as int + d) as char
  }

  /** Decimal digits of a natural number, most significant first. */
  function NatToString(n: nat): (r: string)
    ensures |r| > 0
    ensures forall i :: 0 <= i < |r| ==> '0' <= r[i] <= '9'
    ensures r[0] == '0' <==> n == 0
  {
    if n < 10 then [DigitChar(n)] else NatToString(n / 10) + [DigitChar(n % 10)]
  }

  /** `fmt.Sprintf("%v", n)` for an `int`. */
  function IntToString(n: int): (r: string)
    ensures |r| > 0
    ensures r[0] == '-' <==> n < 0
    ensures n < 0 ==> r[1..] == NatToString(-n)
  {
    if n < 0 then "-" + NatToString(-n) else NatToString(n)
  }

  /** What `strconv.ParseUint(s, 10, 64)` sees while scanning digits left to right. */
  datatype Scan = Digits(value: nat) | Invalid | Overflow

  /**
   * Scans `s` as unsigned decimal digits on top of the value `acc` already read:
   * the scan stops at the first character that is not a digit, or as soon as the
   * value no longer fits in 64 unsigned bits, whichever comes first.
   */
  function ScanDigits(s: string, acc: nat): (r: Scan)
    requires acc <= MaxUint64
    ensures r.Digits? ==> r.value <= MaxUint64
  {
    if s == [] then Digits(acc)
    else if !('0' <= s[0] <= '9') then Invalid
    else
      var n := acc * 10 + (s[0] as int - '0' as int);
      if n > MaxUint64 then Overflow else ScanDigits(s[1..], n)
  }

  /**
   * `strconv.Atoi(s)` with its error discarded (`v, _ := strconv.Atoi(s)`):
   * an optional sign followed by at least one decimal digit gives its value,
   * clamped to the 64-bit range on overflow; anything else gives 0.
   */
  function Atoi(s: string): (v: int)
    ensures MinInt64 <= v <= MaxInt64
  {
    var negative := |s| > 0 && s[0] == '-';
    var digits := if |s| > 0 && (s[0] == '-' || s[0] == '+') then s[1..] else s;
    if digits == [] then 0
    else match ScanDigits(digits, 0)
      case Invalid => 0
      case Overflow => if negative then MinInt64 else MaxInt64
      case Digits(u) =>
        if negative then (if u > MaxInt64 + 1 then MinInt64 else -(u as int))
        else (if u > MaxInt64 then MaxInt64 else u)
  }

  lemma {:induction false} ScanDigitsAppend(a: string, c: char, acc: nat)
    requires acc <= MaxUint64
    requires ScanDigits(a, acc).Digits?
    ensures ScanDigits(a + [c], acc) == ScanDigits([c], ScanDigits(a, acc).value)
  {
    if a != [] {
      var n := acc * 10 + (a[0] as int - '0' as int);
      assert (a + [c])[1..] == a[1..] + [c];
      ScanDigitsAppend(a[1..], c, n);
    }
  }

  lemma {:induction false} ScanNatToString(n: nat)
    requires n <= MaxUint64
    ensures ScanDigits(NatToString(n), 0) == Digits(n)
  {
    if n >= 10 {
      ScanNatToString(n / 10);
      ScanDigitsAppend(NatToString(n / 10), DigitChar(n % 10), 0);
    }
  }

  /** Formatting a 64-bit integer with `%v` and reading it back with `Atoi` gives the integer back. */
  lemma AtoiIntToString(n: int)
    requires MinInt64 <= n <= MaxInt64
    ensures Atoi(IntToString(n)) == n
  {
    if n < 0 {
      var s := IntToString(n);
      assert s[1..] == NatToString(-n);
      ScanNatToString(-n);
    } else {
      ScanNatToString(n);
    }
  }
}
