/**
 * The two-factor set-up dialog: it accepts any code of exactly six decimal
 * digits, and otherwise shows an error until the code is edited again.
 */
module TwoFactor {
  import opened Builtins

  const InvalidCodeError := "Please enter a valid 6-digit code."

  /** `/^\d{6}$/.test(code)`: exactly six characters, each `0`-`9`. */
  predicate IsValidCode(code: string)
  {
    |code| == 6 && forall i :: 0 <= i < |code| ==> IsDigit(code[i])
  }

  function Pow10(k: nat): (p: nat)
    ensures p >= 1
  {
    if k == 0 then 1 else 10 * Pow10(k - 1)
  }

  /** The last `width` decimal digits of `n`, with leading zeros. */
  function FixedDigits(n: nat, width: nat): (s: string)
    ensures |s| == width
    ensures forall i :: 0 <= i < |s| ==> IsDigit(s[i])
  {
    if width == 0 then [] else FixedDigits(n / 10, width - 1) + [DigitChar(n % 10)]
  }

  /** A digit string of length k reads as a number below 10^k. */
  lemma {:induction false} DecimalValueBound(s: string)
    requires forall i :: 0 <= i < |s| ==> IsDigit(s[i])
    ensures DecimalValue(s) < Pow10(|s|)
  {
    if s != [] {
      DecimalValueBound(s[..|s| - 1]);
    }
  }

  /** Reading back a fixed-width rendering gives the number modulo 10^width. */
  lemma {:induction false} FixedDigitsReadBack(n: nat, width: nat)
    ensures DecimalValue(FixedDigits(n, width)) == n % Pow10(width)
  {
    if width > 0 {
      var s := FixedDigits(n, width);
      assert s[..|s| - 1] == FixedDigits(n / 10, width - 1);
      FixedDigitsReadBack(n / 10, width - 1);
      ModuloStep(n, Pow10(width - 1));
    }
  }

  lemma ModuloStep(n: nat, p: nat)
    requires p >= 1
    ensures (n / 10) % p * 10 + n % 10 == n % (10 * p)
  {
    var q := n / 10;
    var d := n % 10;
    var a := q / p;
    var b := q % p;
    assert q == p * a + b;
    assert n == 10 * q + d;
    assert n == (10 * p) * a + (10 * b + d);
    ModUnique(n, 10 * p, a, 10 * b + d);
  }

  /** The remainder is the unique `r` in [0, m) with `n == m * a + r`. */
  lemma ModUnique(n: nat, m: nat, a: nat, r: nat)
    requires m >= 1 && r < m && n == m * a + r
    ensures n % m == r
  {
    var a' := n / m;
    var r' := n % m;
    assert n == m * a' + r';
    if a' > a {
      MulMonotone(m, a + 1, a');
      assert false;
    } else if a' < a {
      MulMonotone(m, a' + 1, a);
      assert false;
    }
  }

  lemma MulMonotone(m: nat, x: nat, y: nat)
    requires x <= y
    ensures m * x <= m * y
  {
  }

  /** Rendering the value of a digit string at its own width gives it back. */
  lemma {:induction false} FixedDigitsOfValue(s: string)
    requires forall i :: 0 <= i < |s| ==> IsDigit(s[i])
    ensures FixedDigits(DecimalValue(s), |s|) == s
  {
    if s != [] {
      var init := s[..|s| - 1];
      var last := s[|s| - 1] as int - '0' as int;
      var v := DecimalValue(s);
      assert v == DecimalValue(init) * 10 + last;
      assert v / 10 == DecimalValue(init) && v % 10 == last;
      FixedDigitsOfValue(init);
      assert DigitChar(last) == s[|s| - 1];
      assert s == init + [s[|s| - 1]];
    }
  }

  /** The accepted codes are exactly the six-digit renderings of the numbers below a million. */
  lemma ValidCodesAreSixDigitNumbers(code: string)
    ensures IsValidCode(code) <==> exists n :: 0 <= n < 1000000 && code == FixedDigits(n, 6)
  {
    assert Pow10(6) == 1000000;
    if IsValidCode(code) {
      DecimalValueBound(code);
      FixedDigitsOfValue(code);
      assert 0 <= DecimalValue(code) < 1000000 && code == FixedDigits(DecimalValue(code), 6);
    }
  }

  /** A few codes: the placeholder is accepted; five digits, seven digits and a letter are not. */
  lemma CodeExamples()
    ensures IsValidCode("123456") && IsValidCode("000000")
    ensures !IsValidCode("12345") && !IsValidCode("1234567") && !IsValidCode("12345a")
  {
    assert "12345a"[5] == 'a';
  }

  /** The dialog's state: the typed code and the error message (`""` when none). */
  class Modal {
    var code: string
    var error: string

    /** An error is only ever showing for a code that fails the check. */
    predicate Valid()
      reads this
    {
      error != "" ==> !IsValidCode(code)
    }

    constructor ()
      ensures code == "" && error == "" && Valid()
    {
      code := "";
      error := "";
    }

    /** Typing replaces the code and clears any error. */
    method OnChange(value: string)
      modifies this
      ensures code == value && error == "" && Valid()
    {
      code := value;
      error := "";
    }

    /**
     * `handleVerify`: `success` means the caller's `onSuccess` runs; the
     * error is set exactly when the code fails.
     */
    method HandleVerify() returns (success: bool)
      requires Valid()
      modifies this
      ensures success <==> IsValidCode(code)
      ensures code == old(code)
      ensures error == if success then old(error) else InvalidCodeError
      ensures success ==> error == ""
      ensures Valid()
    {
      success := IsValidCode(code);
      if !success {
        error := InvalidCodeError;
      }
    }
  }
}
