/** ISO-8601 day labels, as `date.isoformat()` writes them. */
module Calendar {

  /** The decimal digits of `n`, most significant first, without leading zeros. */
  function Digits(n: nat): (s: string)
    ensures |s| >= 1
    decreases n
  {
    if n < 10 then [DigitChar(n)] else Digits(n / 10) + [DigitChar(n % 10)]
  }

  function DigitChar(d: nat): char
    requires d < 10
  {
    "0123456789"[d]
  }

  predicate IsDigit(c: char) {
    '0' <= c <= '9'
  }

  /** `n` written with at least `width` digits, zero-padded on the left (`%0<width>d`). */
  function Padded(n: nat, width: nat): (p: string)
    ensures |p| >= width && |p| >= 1
    ensures forall i :: 0 <= i < |p| ==> IsDigit(p[i])
  {
    DigitsAreDigits(n);
    var s := Digits(n);
    if |s| >= width then s else seq(width - |s|, _ => '0') + s
  }

  /** Proleptic Gregorian (year, month, day) of day number `day` (day 0 is 0001-01-01).
      The arithmetic is the days-to-civil algorithm of H. Hinnant, shifted so that
      its internal day count starts at 0000-03-01. */
  function Civil(day: nat): (int, int, int) {
    var z := day + 306;
    var era := z / 146097;
    var doe := z - era * 146097;
    var yoe := (doe - doe / 1460 + doe / 36524 - doe / 146096) / 365;
    var doy := doe - (365 * yoe + yoe / 4 - yoe / 100);
    var mp := (5 * doy + 2) / 153;
    var d := doy - (153 * mp + 2) / 5 + 1;
    var m := if mp < 10 then mp + 3 else mp - 9;
    var y := yoe + era * 400;
    (if m <= 2 then y + 1 else y, m, d)
  }

  /** `YYYY-MM-DD` for day number `day`: digits and dashes only, never shorter than ten
      characters. */
  function IsoDate(day: nat): (s: string)
    ensures |s| >= 10 && IsDigit(s[0])
    ensures forall i :: 0 <= i < |s| ==> IsLabelChar(s[i])
  {
    var (y, m, d) := Civil(day);
    Padded(Clamp(y), 4) + "-" + Padded(Clamp(m), 2) + "-" + Padded(Clamp(d), 2)
  }

  /** The label of a day whose civil date is known. */
  lemma IsoDateOf(day: nat, y: nat, m: nat, d: nat)
    requires Civil(day) == (y, m, d)
    ensures IsoDate(day) == Padded(y, 4) + "-" + Padded(m, 2) + "-" + Padded(d, 2)
  {
  }

  /** Civil's components are never negative for a day number; this makes that a type fact. */
  function Clamp(x: int): nat {
    if x < 0 then 0 else x
  }

  /** A label character: a digit or the separator. */
  predicate IsLabelChar(c: char) {
    IsDigit(c) || c == '-'
  }

  lemma {:induction false} DigitsAreDigits(n: nat)
    ensures forall i :: 0 <= i < |Digits(n)| ==> IsDigit(Digits(n)[i])
    decreases n
  {
    if n >= 10 {
      DigitsAreDigits(n / 10);
    }
  }
}
