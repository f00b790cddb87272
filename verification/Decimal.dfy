/** `strconv.Itoa` and `strconv.Atoi` on a 64-bit `int`. */
module Decimal {
  import opened ByteStrings
  import opened Wrappers

  type int64 = n: int | -0x8000_0000_0000_0000 <= n < 0x8000_0000_0000_0000

  function Digit(d: int): byte
    requires 0 <= d < 10
  {
    (d + 48) as char
  }

  predicate IsDigit(c: char) { '0' <= c <= '9' }

  function Digits(n: nat): (s: Bytes)
    ensures |s| >= 1 && forall i :: 0 <= i < |s| ==> IsDigit(s[i])
  {
    if n < 10 then [Digit(n)] else Digits(n / 10) + [Digit(n % 10)]
  }

  function Itoa(n: int64): Bytes {
    if n < 0 then ['-'] + Digits(-(n as int)) else Digits(n)
  }

  predicate AllDigits(s: Bytes) {
    s != [] && forall i :: 0 <= i < |s| ==> IsDigit(s[i])
  }

  function DigitsValue(s: Bytes): nat
    requires forall i :: 0 <= i < |s| ==> IsDigit(s[i])
  {
    if s == [] then 0
    else
      assert IsDigit(s[|s| - 1]);
      DigitsValue(s[..|s| - 1]) * 10 + (s[|s| - 1] as int - 48)
  }

  /** An optional sign, at least one digit, nothing else, and a value that fits: anything
      else is the error of `Atoi`. */
  function Atoi(s: Bytes): Option<int64> {
    var negative := s != [] && s[0] == '-';
    var body := if negative || (s != [] && s[0] == '+') then s[1..] else s;
    if !AllDigits(body) then None
    else
      var v: int := if negative then -(DigitsValue(body) as int) else DigitsValue(body);
      if -0x8000_0000_0000_0000 <= v < 0x8000_0000_0000_0000 then Some(v) else None
  }

  lemma {:induction false} DigitsRoundTrip(n: nat)
    ensures DigitsValue(Digits(n)) == n
  {
    if n >= 10 {
      DigitsRoundTrip(n / 10);
      assert Digits(n)[..|Digits(n)| - 1] == Digits(n / 10);
    }
  }

  /** What is read as a number: at most one sign, at least one digit, and nothing else; of a
      magnitude that fits, taken as negative after a minus sign. */
  lemma AtoiIs(sign: Bytes, digits: Bytes)
    requires sign in {"", "+", "-"} && (digits == [] || !(digits[0] == '+' || digits[0] == '-'))
    ensures Atoi(sign + digits).Some? <==>
      && digits != [] && (forall i :: 0 <= i < |digits| ==> '0' <= digits[i] <= '9')
      && DigitsValue(digits) < 0x8000_0000_0000_0000 + if sign == "-" then 1 else 0
    ensures Atoi(sign + digits).Some? ==>
      Atoi(sign + digits).value as int == if sign == "-" then -(DigitsValue(digits) as int) else DigitsValue(digits)
  {
    var s := sign + digits;
    if sign == "" {
      assert s == digits;
    } else {
      assert s[0] == sign[0] && s[1..] == digits;
    }
    assert (forall i :: 0 <= i < |digits| ==> '0' <= digits[i] <= '9') <==>
      forall i :: 0 <= i < |digits| ==> IsDigit(digits[i]);
  }

  function Power10(k: nat): (p: nat)
    ensures p >= 1
  {
    if k == 0 then 1 else 10 * Power10(k - 1)
  }

  /** The digits of a number, least significant last: the one `k` places from the right counts
      the powers `10^k`. No digit is wasted: the first is zero for zero alone. */
  lemma {:induction false} DigitsPlaces(n: nat, k: nat)
    requires k < |Digits(n)|
    ensures Digits(n)[|Digits(n)| - 1 - k] as int == '0' as int + n / Power10(k) % 10
    ensures n > 0 ==> Digits(n)[0] != '0'
  {
    if n >= 10 {
      DigitsPlaces(n / 10, if k == 0 then 0 else k - 1);
      if k > 0 {
        DivideTwice(n, Power10(k - 1));
        assert Digits(n)[|Digits(n)| - 1 - k] == Digits(n / 10)[|Digits(n / 10)| - 1 - (k - 1)];
      }
      assert Digits(n)[0] == Digits(n / 10)[0];
    }
  }

  lemma DivideTwice(n: nat, p: nat)
    requires p >= 1
    ensures n / (10 * p) == n / 10 / p
  {
    var q, r := n / 10 / p, n / 10 % p;
    assert n / 10 == q * p + r && n == 10 * (n / 10) + n % 10;
    assert n == (10 * p) * q + (10 * r + n % 10) && 0 <= 10 * r + n % 10 < 10 * p;
    QuotientIs(n, 10 * p, q, 10 * r + n % 10);
  }

  lemma QuotientIs(n: int, d: int, q: int, r: int)
    requires d >= 1 && n == d * q + r && 0 <= r < d
    ensures n / d == q
  {
    var q', r' := n / d, n % d;
    assert n == d * q' + r' && d * (q - q') == r' - r;
    MultipleIsFar(d, q - q');
  }

  lemma MultipleIsFar(d: int, x: int)
    requires d >= 1
    ensures (x >= 1 ==> d * x >= d) && (x <= -1 ==> d * x <= -d)
  {
    if x >= 1 {
      assert d * (x - 1) >= 0;
    } else if x <= -1 {
      assert d * (-x - 1) >= 0;
    }
  }

  /** A negative number is its magnitude after a minus sign, any other its digits alone. */
  lemma ItoaSign(n: int64)
    ensures
      var m := if n < 0 then -(n as int) else n as int;
      Itoa(n) == (if n < 0 then "-" else "") + Digits(m)
  {
  }

  /** Every machine integer survives printing and parsing, the most negative one included. */
  lemma AtoiItoa(n: int64)
    ensures Atoi(Itoa(n)) == Some(n)
  {
    var m: int := n;
    DigitsRoundTrip(if m < 0 then -m else m);
    if n < 0 {
      assert Itoa(n)[1..] == Digits(-m);
    }
  }
}
