/** The two java.lang conversions the service relies on: Integer.parseInt and String.valueOf. */
module JavaLang {
  import opened Outcomes

  const INT_MIN: int := -0x8000_0000
  const INT_MAX: int := 0x7FFF_FFFF

  /** The values of Java's 32-bit `int`. */
  predicate InIntRange(n: int) {
    INT_MIN <= n <= INT_MAX
  }

  predicate IsDigit(c: char) {
    '0' <= c <= '9'
  }

  predicate AllDigits(s: string) {
    forall i :: 0 <= i < |s| ==> IsDigit(s[i])
  }

  function DigitValue(c: char): (d: nat)
    requires IsDigit(c)
    ensures d < 10
  {
    c as int - '0' as int
  }

  function DigitChar(d: nat): (c: char)
    requires d < 10
    ensures IsDigit(c) && DigitValue(c) == d
  {
    ('0' as int + d) as char
  }

  /** The number a string of decimal digits denotes, most significant digit first. */
  function DecimalValue(s: string): nat
    requires AllDigits(s)
  {
    if s == [] then 0 else 10 * DecimalValue(s[..|s| - 1]) + DigitValue(s[|s| - 1])
  }

  /** The text after an optional leading '+' or '-'. */
  function Unsigned(t: string): string {
    if |t| > 0 && (t[0] == '-' || t[0] == '+') then t[1..] else t
  }

  /** The magnitude of an integer. */
  function Abs(n: int): nat {
    if n < 0 then 0 - n else n
  }

  /**
   * Integer.parseInt(s): an optional '+' or '-', then at least one decimal digit,
   * and a value that fits in an `int`; `None` wherever Java throws
   * NumberFormatException, including for a null argument.
   */
  function ParseInt(s: Option<string>): (r: Option<int>)
    ensures r.Some? ==> s.Some? && |Unsigned(s.value)| > 0 && AllDigits(Unsigned(s.value))
    ensures r.Some? ==> Abs(r.value) == DecimalValue(Unsigned(s.value))
    ensures r.Some? ==> InIntRange(r.value)
    ensures r.Some? && s.value[0] == '-' ==> r.value <= 0
    ensures r.Some? && s.value[0] != '-' ==> r.value >= 0
    ensures s.Some? && |Unsigned(s.value)| > 0 && AllDigits(Unsigned(s.value)) &&
      (if s.value[0] == '-' then INT_MIN <= 0 - DecimalValue(Unsigned(s.value)) else DecimalValue(Unsigned(s.value)) <= INT_MAX)
      ==> r.Some?
  {
    match s
    case None => None
    case Some(t) =>
      if |t| == 0 then None
      else
        var digits := Unsigned(t);
        if |digits| == 0 || !AllDigits(digits) then None
        else
          var v: int := if t[0] == '-' then 0 - (DecimalValue(digits) as int) else DecimalValue(digits);
          if InIntRange(v) then Some(v) else None
  }

  /** The decimal digits of a natural number, without leading zeros. */
  function NatDigits(n: nat): (s: string)
    ensures |s| > 0 && AllDigits(s)
    ensures s[0] == '0' ==> n == 0 && |s| == 1
  {
    if n < 10 then [DigitChar(n)] else NatDigits(n / 10) + [DigitChar(n % 10)]
  }

  /**
   * Integer.toString(n) (and Long.toString): a '-' for negatives, then the
   * decimal digits of the magnitude, with no leading zero.
   */
  function IntToString(n: int): (s: string)
    ensures |s| > 0
    ensures s[0] == '-' <==> n < 0
    ensures s[0] != '+'
    ensures |Unsigned(s)| > 0 && AllDigits(Unsigned(s))
    ensures Unsigned(s)[0] == '0' ==> Unsigned(s) == "0"
    ensures DecimalValue(Unsigned(s)) == Abs(n)
  {
    if n < 0 then
      DecimalValueOfNatDigits(0 - n);
      assert ("-" + NatDigits(0 - n))[1..] == NatDigits(0 - n);
      "-" + NatDigits(0 - n)
    else
      DecimalValueOfNatDigits(n);
      NatDigits(n)
  }

  lemma {:induction false} DecimalValueOfNatDigits(n: nat)
    ensures DecimalValue(NatDigits(n)) == n
  {
    if n >= 10 {
      var s := NatDigits(n);
      var init := NatDigits(n / 10);
      assert s[..|s| - 1] == init;
      DecimalValueOfNatDigits(n / 10);
    }
  }

  /** parseInt reads back exactly what toString writes, and rejects it exactly when it is no `int`. */
  lemma ParseIntOfIntToString(n: int)
    ensures ParseInt(Some(IntToString(n))) == if InIntRange(n) then Some(n) else None
  {
    var s := IntToString(n);
    if n < 0 {
      assert s[1..] == NatDigits(0 - n);
      DecimalValueOfNatDigits(0 - n);
    } else {
      DecimalValueOfNatDigits(n);
    }
  }

  /** The runtime value of an entry of a decoded JSON request body (a `Map<String, Object>` value). */
  datatype InputValue =
    | Text(text: string)    // java.lang.String
    | Integer(number: int)  // java.lang.Integer / Long / BigInteger
    | Bool(flag: bool)      // java.lang.Boolean
    | Null                  // JSON null, and what Map.get returns for a missing key

  /** String.valueOf(Object): "null" for null, the object's toString otherwise. */
  function ValueOf(v: InputValue): (s: string)
    ensures v.Null? ==> s == "null"
    ensures v.Text? ==> s == v.text
    ensures v.Bool? ==> s == if v.flag then "true" else "false"
    ensures v.Integer? ==> s == IntToString(v.number)
    ensures v.Integer? ==> ParseInt(Some(s)) == if InIntRange(v.number) then Some(v.number) else None
  {
    match v
    case Text(t) => t
    case Integer(n) => ParseIntOfIntToString(n); IntToString(n)
    case Bool(b) => if b then "true" else "false"
    case Null => "null"
  }
}
