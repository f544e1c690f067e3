/** JavaScript property keys for the values the sketch uses as object keys.
    An emotion label read from the dataset is a number (or `undefined` when a
    turn has no label); used as an object key an integer label below 1e21 in
    magnitude becomes its decimal string, and `undefined` becomes the string
    "undefined". */
module PropertyKeys {

  datatype Option<+T> = None | Some(value: T)

  /** The key `undefined` turns into when it indexes an object. */
  const UndefinedKey: string := "undefined"

  predicate IsDigit(c: char) {
    '0' <= c <= '9'
  }

  predicate AllDigits(s: string) {
    forall i :: 0 <= i < |s| ==> IsDigit(s[i])
  }

  function DigitChar(d: nat): (c: char)
    requires d < 10
    ensures IsDigit(c)
  {
    (('0' as int) + d) as char
  }

  function DigitValue(c: char): (d: nat)
    requires IsDigit(c)
    ensures d < 10
  {
    (c as int) - ('0' as int)
  }

  /** Decimal representation of a natural number, without leading zeros. */
  function DecimalDigits(n: nat): (s: string)
    ensures |s| > 0 && AllDigits(s)
    ensures s[0] == '0' ==> n == 0
    decreases n
  {
    if n < 10 then [DigitChar(n)] else DecimalDigits(n / 10) + [DigitChar(n % 10)]
  }

  /** Reads a string of decimal digits back as a number. */
  function ParseDecimal(s: string): nat
    requires AllDigits(s)
    decreases |s|
  {
    if s == [] then 0 else ParseDecimal(s[..|s| - 1]) * 10 + DigitValue(s[|s| - 1])
  }

  lemma {:induction false} ParseDecimalInvertsDigits(n: nat)
    ensures ParseDecimal(DecimalDigits(n)) == n
    decreases n
  {
    var s := DecimalDigits(n);
    if n >= 10 {
      assert s[..|s| - 1] == DecimalDigits(n / 10);
      ParseDecimalInvertsDigits(n / 10);
      assert DigitValue(s[|s| - 1]) == n % 10;
    }
  }

  /** Number-to-string conversion of an integer, as used for property keys;
      JavaScript writes the decimal digits for magnitudes below 1e21. */
  function IntToKey(k: int): string
  {
    if k < 0 then "-" + DecimalDigits(-k) else DecimalDigits(k)
  }

  /** The key an `emotion[index]` value (a number, or `undefined`) selects. */
  function LabelKey(emotion: Option<int>): (key: string)
    ensures emotion.None? <==> key == UndefinedKey
  {
    match emotion
    case None => UndefinedKey
    case Some(k) =>
      assert IntToKey(k)[0] != 'u' by {
        if k < 0 {
          assert IntToKey(k)[0] == '-';
        } else {
          assert IsDigit(DecimalDigits(k)[0]);
        }
      }
      IntToKey(k)
  }

  /** A key starts with a minus sign exactly when the number is negative. */
  lemma KeySign(k: int)
    ensures |IntToKey(k)| > 0
    ensures IntToKey(k)[0] == '-' <==> k < 0
  {
    if k >= 0 {
      assert IsDigit(DecimalDigits(k)[0]);
    }
  }

  /** Distinct integer labels give distinct keys, so no two of them share a
      pool. */
  lemma IntToKeyInjective(a: int, b: int)
    requires IntToKey(a) == IntToKey(b)
    ensures a == b
  {
    KeySign(a);
    KeySign(b);
    if a < 0 {
      assert IntToKey(a)[1..] == DecimalDigits(-a) && IntToKey(b)[1..] == DecimalDigits(-b);
      ParseDecimalInvertsDigits(-a);
      ParseDecimalInvertsDigits(-b);
    } else {
      ParseDecimalInvertsDigits(a);
      ParseDecimalInvertsDigits(b);
    }
  }

  /** The seven dataset labels 0..6 become the one-character keys "0".."6". */
  lemma SmallLabelKeys(k: int)
    requires 0 <= k < 10
    ensures LabelKey(Some(k)) == [DigitChar(k)]
  {
  }
}
