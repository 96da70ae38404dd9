/**
 * Brazilian document numbers (src/utils/validation.ts): the CPF (taxpayer
 * number, 11 digits, the last two of which are mod-11 check digits) and the
 * RG (identity card number, checked only by its digit count).
 */
module Validation {

  /** The class `\d` of a JavaScript regular expression without the `u` flag. */
  predicate IsDigit(c: char) {
    '0' <= c <= '9'
  }

  predicate AllDigits(s: string) {
    forall k :: 0 <= k < |s| ==> IsDigit(s[k])
  }

  /** `s.replace(/[^\d]/g, '')`: the digits of `s`, in order. */
  function Digits(s: string): (r: string)
    ensures AllDigits(r)
    ensures |r| <= |s|
  {
    if s == [] then [] else (if IsDigit(s[0]) then [s[0]] else []) + Digits(s[1..])
  }

  lemma {:induction false} DigitsAppend(a: string, b: string)
    ensures Digits(a + b) == Digits(a) + Digits(b)
  {
    if a == [] {
      assert a + b == b;
    } else {
      assert (a + b)[1..] == a[1..] + b;
      DigitsAppend(a[1..], b);
    }
  }

  /** A string of digits is its own digit sequence. */
  lemma {:induction false} DigitsOfDigits(s: string)
    requires AllDigits(s)
    ensures Digits(s) == s
  {
    if s != [] {
      DigitsOfDigits(s[1..]);
    }
  }

  /** Extracting the digits twice is extracting them once. */
  lemma DigitsIdempotent(s: string)
    ensures Digits(Digits(s)) == Digits(s)
  {
    DigitsOfDigits(Digits(s));
  }

  /** `parseInt(c)` on a digit character. */
  function DigitValue(c: char): int {
    (c as int) - ('0' as int)
  }

  /**
   * The sum of `d[i] * (top - i)` over the positions of `d`, accumulated
   * from the front as the source's loops do.
   */
  function WeightedSum(d: string, top: int): int {
    if |d| == 0 then 0
    else WeightedSum(d[..|d| - 1], top) + DigitValue(d[|d| - 1]) * (top - (|d| - 1))
  }

  /**
   * The CPF check digit of `d`: weights |d|+1 down to 2, then
   * `11 - sum % 11`, where 10 and 11 become 0.
   */
  function CheckDigit(d: string): (r: int)
    ensures 0 <= r <= 9
  {
    var x := 11 - WeightedSum(d, |d| + 1) % 11;
    if x >= 10 then 0 else x
  }

  /** `/^(\d)\1{10}$/` on an 11-digit string: every digit repeats the first. */
  predicate AllSame(d: string) {
    forall k :: 0 <= k < |d| ==> d[k] == d[0]
  }

  /** When `validateCPF` accepts its argument. */
  predicate IsValidCPF(cpf: string) {
    var d := Digits(cpf);
    && |d| == 11
    && !AllSame(d)
    && DigitValue(d[9]) == CheckDigit(d[..9])
    && DigitValue(d[10]) == CheckDigit(d[..10])
  }

  /** `validateCPF`: the two weighted sums are accumulated by loops. */
  method ValidateCPF(cpf: string) returns (ok: bool)
    ensures ok == IsValidCPF(cpf)
  {
    var clean := Digits(cpf);
    if |clean| != 11 {
      return false;
    }
    if AllSame(clean) {
      return false;
    }
    var sum := 0;
    for i := 0 to 9
      invariant sum == WeightedSum(clean[..i], 10)
    {
      assert clean[..i + 1][..i] == clean[..i];
      sum := sum + DigitValue(clean[i]) * (10 - i);
    }
    var digit := 11 - sum % 11;
    if digit >= 10 {
      digit := 0;
    }
    if digit != DigitValue(clean[9]) {
      return false;
    }
    sum := 0;
    for i := 0 to 10
      invariant sum == WeightedSum(clean[..i], 11)
    {
      assert clean[..i + 1][..i] == clean[..i];
      sum := sum + DigitValue(clean[i]) * (11 - i);
    }
    digit := 11 - sum % 11;
    if digit >= 10 {
      digit := 0;
    }
    if digit != DigitValue(clean[10]) {
      return false;
    }
    return true;
  }

  /** The character of a digit value. */
  function DigitChar(v: int): (c: char)
    requires 0 <= v <= 9
    ensures IsDigit(c) && DigitValue(c) == v
  {
    (('0' as int) + v) as char
  }

  /**
   * The check-digit scheme completes any nine digits: appending the two
   * check digits gives a number that `validateCPF` accepts exactly when its
   * eleven digits are not all the same.
   */
  lemma CompletedCPFIsValid(base: string)
    requires |base| == 9 && AllDigits(base)
    ensures var c1 := DigitChar(CheckDigit(base));
            var full := base + [c1] + [DigitChar(CheckDigit(base + [c1]))];
            IsValidCPF(full) <==> !AllSame(full)
  {
    var c1 := DigitChar(CheckDigit(base));
    var full := base + [c1] + [DigitChar(CheckDigit(base + [c1]))];
    DigitsOfDigits(full);
    assert full[..9] == base;
    assert full[..10] == base + [c1];
  }

  /**
   * Conversely, an accepted CPF is determined by its first nine digits:
   * its last two are their check digits.
   */
  lemma ValidCPFIsCompleted(cpf: string)
    requires IsValidCPF(cpf)
    ensures var d := Digits(cpf);
            d == d[..9] + [DigitChar(CheckDigit(d[..9]))] + [DigitChar(CheckDigit(d[..10]))]
  {
    var d := Digits(cpf);
    assert d[9] == DigitChar(CheckDigit(d[..9]));
    assert d[10] == DigitChar(CheckDigit(d[..10]));
  }

  /** Eleven copies of one digit character. */
  function Repeated(c: char): (r: string)
    ensures |r| == 11 && forall k :: 0 <= k < 11 ==> r[k] == c
  {
    [c, c, c, c, c, c, c, c, c, c, c]
  }

  /** The sum of the weights `top - i` for `i` below `n`. */
  function WeightTotal(n: nat, top: int): int {
    if n == 0 then 0 else WeightTotal(n - 1, top) + (top - (n - 1))
  }

  lemma {:induction false} WeightedSumRepeated(c: char, n: nat, top: int)
    requires n <= 11
    ensures WeightedSum(Repeated(c)[..n], top) == DigitValue(c) * WeightTotal(n, top)
  {
    if n > 0 {
      var d := Repeated(c)[..n];
      assert d[..n - 1] == Repeated(c)[..n - 1];
      WeightedSumRepeated(c, n - 1, top);
      var v := DigitValue(c);
      calc {
        WeightedSum(d, top);
        WeightedSum(Repeated(c)[..n - 1], top) + v * (top - (n - 1));
        v * WeightTotal(n - 1, top) + v * (top - (n - 1));
        v * (WeightTotal(n - 1, top) + (top - (n - 1)));
      }
    }
  }

  /**
   * A number made of one repeated digit passes both checksums, so the
   * repeated-digit test is what rejects it.
   */
  lemma RepeatedDigitPassesChecksums(c: char)
    requires IsDigit(c)
    ensures var d := Repeated(c);
            && DigitValue(d[9]) == CheckDigit(d[..9])
            && DigitValue(d[10]) == CheckDigit(d[..10])
            && !IsValidCPF(d)
  {
    var d := Repeated(c);
    var v := DigitValue(c);
    WeightedSumRepeated(c, 9, 10);
    WeightedSumRepeated(c, 10, 11);
    assert WeightTotal(9, 10) == 54;
    assert WeightTotal(10, 11) == 65;
    RepeatedCheckArithmetic(v);
    assert CheckDigit(d[..9]) == v;
    assert CheckDigit(d[..10]) == v;
    assert AllDigits(d);
    DigitsOfDigits(d);
  }

  /**
   * 54 and 65, the weight totals of the two checks, are both 10 modulo 11,
   * so a repeated digit is its own check digit.
   */
  lemma RepeatedCheckArithmetic(v: int)
    requires 0 <= v <= 9
    ensures (if 11 - (v * 54) % 11 >= 10 then 0 else 11 - (v * 54) % 11) == v
    ensures (if 11 - (v * 65) % 11 >= 10 then 0 else 11 - (v * 65) % 11) == v
  {
    if v == 0 {} else if v == 1 {} else if v == 2 {} else if v == 3 {} else if v == 4 {}
    else if v == 5 {} else if v == 6 {} else if v == 7 {} else if v == 8 {} else {}
  }

  /**
   * `validateRG`: between seven and nine digits, whatever else surrounds
   * them; so a bare digit string passes exactly at lengths 7 to 9, and
   * nothing shorter than seven characters passes.
   */
  function ValidateRG(rg: string): (ok: bool)
    ensures ok ==> |rg| >= 7
    ensures AllDigits(rg) ==> (ok <==> 7 <= |rg| <= 9)
  {
    var n := |Digits(rg)|;
    assert AllDigits(rg) ==> n == |rg| by {
      if AllDigits(rg) {
        DigitsOfDigits(rg);
      }
    }
    7 <= n && n <= 9
  }

  /** The printed CPF mask `ddd.ddd.ddd-dd`. */
  predicate IsCPFMask(r: string) {
    && |r| == 14
    && forall k :: 0 <= k < 14 ==>
         if k == 3 || k == 7 then r[k] == '.'
         else if k == 11 then r[k] == '-'
         else IsDigit(r[k])
  }

  /** The printed RG mask `dd.ddd.ddd-d`. */
  predicate IsRGMask(r: string) {
    && |r| == 12
    && forall k :: 0 <= k < 12 ==>
         if k == 2 || k == 6 then r[k] == '.'
         else if k == 10 then r[k] == '-'
         else IsDigit(r[k])
  }

  /**
   * `formatCPF`: the digits, where the first eleven (when there are that
   * many) are replaced by their masked form; the regular expression is not
   * global and matches at the start.
   */
  function FormatCPF(cpf: string): string {
    var d := Digits(cpf);
    if |d| < 11 then d
    else d[..3] + "." + d[3..6] + "." + d[6..9] + "-" + d[9..11] + d[11..]
  }

  /** `formatRG`: exactly nine digits are masked, anything else is left bare. */
  function FormatRG(rg: string): string {
    var d := Digits(rg);
    if |d| == 9 then d[..2] + "." + d[2..5] + "." + d[5..8] + "-" + d[8..]
    else d
  }

  /** Formatting a CPF keeps its digits and only adds separators. */
  lemma FormatCPFKeepsDigits(cpf: string)
    ensures Digits(FormatCPF(cpf)) == Digits(cpf)
  {
    var d := Digits(cpf);
    DigitsOfDigits(d);
    if |d| >= 11 {
      var a1 := d[..3];
      var a2 := a1 + "." + d[3..6];
      var a3 := a2 + "." + d[6..9];
      var a4 := a3 + "-" + d[9..11];
      DigitsOfDigits(a1);
      DigitsBlock(a1, ".", d[3..6]);
      DigitsBlock(a2, ".", d[6..9]);
      DigitsBlock(a3, "-", d[9..11]);
      DigitsBlock(a4, "", d[11..]);
      assert a4 + "" + d[11..] == FormatCPF(cpf);
      assert d == d[..3] + d[3..6] + d[6..9] + d[9..11] + d[11..];
    }
  }

  /** Appending a separator and a block of digits appends just the block. */
  lemma DigitsBlock(prefix: string, sep: string, block: string)
    requires sep == "" || sep == "." || sep == "-"
    requires AllDigits(block)
    ensures Digits(prefix + sep + block) == Digits(prefix) + block
  {
    assert Digits(sep) == [];
    DigitsAppend(prefix, sep);
    DigitsAppend(prefix + sep, block);
    DigitsOfDigits(block);
  }

  /** Formatting an RG keeps its digits and only adds separators. */
  lemma FormatRGKeepsDigits(rg: string)
    ensures Digits(FormatRG(rg)) == Digits(rg)
  {
    var d := Digits(rg);
    DigitsOfDigits(d);
    if |d| == 9 {
      var a1 := d[..2];
      var a2 := a1 + "." + d[2..5];
      var a3 := a2 + "." + d[5..8];
      DigitsOfDigits(a1);
      DigitsBlock(a1, ".", d[2..5]);
      DigitsBlock(a2, ".", d[5..8]);
      DigitsBlock(a3, "-", d[8..]);
      assert d == d[..2] + d[2..5] + d[5..8] + d[8..];
    }
  }

  /**
   * What `formatCPF` produces: the mask for exactly eleven digits, the bare
   * digits for fewer, and the masked first eleven followed by the rest for more.
   */
  lemma FormatCPFShape(cpf: string)
    ensures var d := Digits(cpf);
            && (|d| < 11 ==> FormatCPF(cpf) == d)
            && (|d| >= 11 ==> IsCPFMask(FormatCPF(cpf)[..14]) && FormatCPF(cpf)[14..] == d[11..])
            && (|d| == 11 ==> IsCPFMask(FormatCPF(cpf)))
  {
  }

  /** What `formatRG` produces: the mask for exactly nine digits, the bare digits otherwise. */
  lemma FormatRGShape(rg: string)
    ensures var d := Digits(rg);
            && (|d| == 9 ==> IsRGMask(FormatRG(rg)))
            && (|d| != 9 ==> FormatRG(rg) == d)
  {
  }

  /** Formatting a CPF never changes whether it validates. */
  lemma ValidateCPFIgnoresFormat(cpf: string)
    ensures IsValidCPF(FormatCPF(cpf)) == IsValidCPF(cpf)
  {
    FormatCPFKeepsDigits(cpf);
  }

  /** Formatting an RG never changes whether it validates. */
  lemma ValidateRGIgnoresFormat(rg: string)
    ensures ValidateRG(FormatRG(rg)) == ValidateRG(rg)
  {
    FormatRGKeepsDigits(rg);
  }

  /** `formatCPF` is idempotent. */
  lemma FormatCPFIdempotent(cpf: string)
    ensures FormatCPF(FormatCPF(cpf)) == FormatCPF(cpf)
  {
    FormatCPFKeepsDigits(cpf);
  }

  /** `formatRG` is idempotent. */
  lemma FormatRGIdempotent(rg: string)
    ensures FormatRG(FormatRG(rg)) == FormatRG(rg)
  {
    FormatRGKeepsDigits(rg);
  }

  /** A CPF already in mask form is left as it is. */
  lemma FormatCPFFixesMask(r: string)
    requires IsCPFMask(r)
    ensures FormatCPF(r) == r
  {
    var d := r[..3] + r[4..7] + r[8..11] + r[12..];
    CPFMaskDigits(r);
    assert r == r[..3] + "." + r[4..7] + "." + r[8..11] + "-" + r[12..];
    assert d[..3] == r[..3] && d[3..6] == r[4..7] && d[6..9] == r[8..11] && d[9..11] == r[12..];
    assert d[11..] == [];
  }

  /** The digits of a masked CPF are the mask without its separators. */
  lemma CPFMaskDigits(r: string)
    requires IsCPFMask(r)
    ensures Digits(r) == r[..3] + r[4..7] + r[8..11] + r[12..]
  {
    var a1 := r[..3];
    var a2 := a1 + "." + r[4..7];
    var a3 := a2 + "." + r[8..11];
    assert r == a3 + "-" + r[12..];
    DigitsOfDigits(a1);
    DigitsBlock(a1, ".", r[4..7]);
    DigitsBlock(a2, ".", r[8..11]);
    DigitsBlock(a3, "-", r[12..]);
  }
}
