/**
  The candidate profile: the seven fields the assistant collects, the values it
  stores for them, and Python's truthiness of those values, which decides
  whether a field counts as collected.
*/
module Candidate {
  import opened Wrappers
  import opened PyStr

  /** The keys of `FIELDS` in app.py, in declaration order. */
  datatype Field = FullName | Email | Phone | ExperienceYears | DesiredPositions | Location | TechStack

  /** Position of a field in the collection order. */
  function Index(f: Field): nat {
    match f
    case FullName => 0
    case Email => 1
    case Phone => 2
    case ExperienceYears => 3
    case DesiredPositions => 4
    case Location => 5
    case TechStack => 6
  }

  /** The shape of a match of the regex `[0-9]+\.?[0-9]*`. */
  predicate IsNumeral(s: string) {
    && |s| > 0 && IsDigit(s[0])
    && (forall k :: 0 <= k < |s| ==> IsDigit(s[k]) || s[k] == '.')
    && (forall i, j :: 0 <= i < j < |s| && s[i] == '.' ==> s[j] != '.')
  }

  type Numeral = s: string | IsNumeral(s) witness "0"

  /**
    A stored answer: free text, or the numeral matched in the experience
    answer, which the source converts with `float(...)`; the model keeps the
    digits and reads them as an exact decimal.
  */
  datatype Value = Text(text: string) | Years(numeral: Numeral)

  /** The value of the digits after a decimal point: `0.d1d2...`. */
  function FracValue(f: string): (v: real)
    requires AllDigits(f)
  {
    if f == [] then 0.0 else (DigitValue(f[0]) as real + FracValue(f[1..])) / 10.0
  }

  /** The exact decimal value of a numeral, `float(numeral)` without rounding. */
  function NumeralValue(n: Numeral): real {
    var dot := Find(n, '.');
    if dot < 0 then
      DigitsValue(n) as real
    else
      NumeralParts(n, dot);
      DigitsValue(n[..dot]) as real + FracValue(n[dot + 1..])
  }

  /** Around its decimal point, a numeral is made of digits. */
  lemma NumeralParts(n: Numeral, dot: int)
    requires 0 <= dot < |n| && n[dot] == '.'
    ensures AllDigits(n[..dot]) && AllDigits(n[dot + 1..])
  {
    var b := n[dot + 1..];
    forall k | 0 <= k < |b| ensures IsDigit(b[k]) {
      assert b[k] == n[dot + 1 + k];
    }
  }

  /**
    Python's `bool(v)`: non-empty text, or a non-zero number. A numeral is
    zero exactly when all its digits are `0` (`NumeralValueSign`), which is
    the test written here.
  */
  predicate IsTruthy(v: Value) {
    match v
    case Text(t) => t != ""
    case Years(n) => !AllZeros(n)
  }

  /** `candidate.get(key)` is truthy. */
  predicate Filled(c: map<Field, Value>, f: Field) {
    f in c && IsTruthy(c[f])
  }

  /** Python's `candidate.get(key)`. */
  function Get(c: map<Field, Value>, f: Field): Option<Value> {
    if f in c then Some(c[f]) else None
  }

  predicate AllZeros(s: string) {
    forall k :: 0 <= k < |s| ==> s[k] == '0' || s[k] == '.'
  }

  lemma {:induction false} DigitsValueZero(s: string)
    requires AllDigits(s)
    ensures DigitsValue(s) == 0 <==> AllZeros(s)
  {
    if s != [] {
      DigitsValueZero(s[..|s| - 1]);
    }
  }

  lemma {:induction false} FracValueZero(f: string)
    requires AllDigits(f)
    ensures FracValue(f) >= 0.0
    ensures FracValue(f) == 0.0 <==> AllZeros(f)
  {
    if f != [] {
      FracValueZero(f[1..]);
      assert AllZeros(f) <==> f[0] == '0' && AllZeros(f[1..]);
    }
  }

  /**
    A stored experience is never negative, and it is zero (so falsy, and the
    experience question is asked again) exactly when every digit is `0`.
  */
  lemma NumeralValueSign(n: Numeral)
    ensures NumeralValue(n) >= 0.0
    ensures NumeralValue(n) == 0.0 <==> AllZeros(n)
    ensures IsTruthy(Years(n)) <==> NumeralValue(n) != 0.0
  {
    var dot := Find(n, '.');
    if dot < 0 {
      DigitsValueZero(n);
    } else {
      var a, b := n[..dot], n[dot + 1..];
      NumeralParts(n, dot);
      DigitsValueZero(a);
      FracValueZero(b);
      assert AllZeros(n) <==> AllZeros(a) && AllZeros(b) by {
        assert n == a + [n[dot]] + b;
        if AllZeros(a) && AllZeros(b) {
          forall k | 0 <= k < |n| ensures n[k] == '0' || n[k] == '.' {
            if k < dot { assert n[k] == a[k]; } else if k > dot { assert n[k] == b[k - dot - 1]; }
          }
        }
        if AllZeros(n) {
          assert forall k :: 0 <= k < |b| ==> b[k] == n[dot + 1 + k];
        }
      }
    }
  }
}
