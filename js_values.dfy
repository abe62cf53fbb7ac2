/** JavaScript values as the gateway meets them: entries of the JSON
    configuration file, pieces produced by `String.prototype.split`, and the
    text a template literal makes of them. */
module JsValues {

  datatype Option<+T> = None | Some(value: T)

  /** A property value: `undefined` (a missing key or field, or `null`), a
      string, or an integral number. */
  datatype JsValue = Absent | Str(s: string) | Num(n: int)

  /** JavaScript truthiness (`!!v`) on the values above. */
  predicate Truthy(v: JsValue)
  {
    match v
    case Absent => false
    case Str(s) => s != ""
    case Num(n) => n != 0
  }

  predicate IsDigit(c: char)
  {
    '0' <= c <= '9'
  }

  predicate AllDigits(s: string)
  {
    forall i :: 0 <= i < |s| ==> IsDigit(s[i])
  }

  function DigitChar(d: nat): (c: char)
    requires d < 10
    ensures IsDigit(c)
  {
    (48 + d) as char
  }

  function DigitValue(c: char): (d: nat)
    requires IsDigit(c)
    ensures d < 10 && DigitChar(d) == c
  {
    c as int - 48
  }

  /** The decimal digits of `n`, most significant first, without leading zeros. */
  function NatDigits(n: nat): (r: string)
    ensures |r| >= 1 && AllDigits(r)
    ensures |r| > 1 ==> r[0] != '0'
    decreases n
  {
    if n < 10 then [DigitChar(n)] else NatDigits(n / 10) + [DigitChar(n % 10)]
  }

  /** The number a string of decimal digits denotes. */
  function ParseDigits(s: string): nat
    requires AllDigits(s)
  {
    if s == [] then 0 else ParseDigits(s[..|s| - 1]) * 10 + DigitValue(s[|s| - 1])
  }

  lemma {:induction false} ParseNatDigits(n: nat)
    ensures ParseDigits(NatDigits(n)) == n
  {
    var r := NatDigits(n);
    if n >= 10 {
      assert r[..|r| - 1] == NatDigits(n / 10);
      ParseNatDigits(n / 10);
    }
  }

  /** What the template literal `${v}` makes of `v`. Numbers render as
      `Number.prototype.toString` renders integers below 10^21 in magnitude. */
  function Render(v: JsValue): string
  {
    match v
    case Absent => "undefined"
    case Str(s) => s
    case Num(n) => if n < 0 then "-" + NatDigits(-n) else NatDigits(n)
  }

  /** Reads back the text `Render` makes of a number. */
  function ParseInteger(s: string): Option<int>
  {
    if s != [] && s[0] == '-' && |s| > 1 && AllDigits(s[1..]) then
      var magnitude: int := ParseDigits(s[1..]);
      Some(-magnitude)
    else if s != [] && AllDigits(s) then Some(ParseDigits(s))
    else None
  }

  /** A number's rendering is read back as that number. */
  lemma RenderNumberRoundTrip(n: int)
    ensures ParseInteger(Render(Num(n))) == Some(n)
  {
    var r := Render(Num(n));
    if n < 0 {
      var digits := NatDigits(-n);
      assert r == "-" + digits;
      assert r[1..] == digits;
      ParseNatDigits(-n);
    } else {
      assert IsDigit(r[0]);
      ParseNatDigits(n);
    }
  }
}
