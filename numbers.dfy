/** Decimal text of integers: Go's fmt "%d" and Python's str() when writing,
    Go's strconv.Atoi and Python's int() when reading. */
module Numbers {
  import opened Wrappers
  import opened Text

  predicate IsDigit(c: char) { '0' <= c <= '9' }

  predicate AllDigits(s: string)
  {
    forall i :: 0 <= i < |s| ==> IsDigit(s[i])
  }

  function DigitChar(d: int): (c: char)
    requires 0 <= d < 10
    ensures IsDigit(c) && c as int - '0' as int == d
  {
    ('0' as int + d) as char
  }

  /** The decimal digits of a natural number, without leading zeros. */
  function DigitsOf(n: nat): (s: string)
    ensures |s| >= 1 && AllDigits(s)
    ensures |s| > 1 ==> s[0] != '0'
    decreases n
  {
    if n < 10 then [DigitChar(n)] else DigitsOf(n / 10) + [DigitChar(n % 10)]
  }

  /** Go fmt.Sprintf("%d", n) and Python str(n) / f"{n}". */
  function Decimal(n: int): (s: string)
    ensures |s| >= 1 && '/' !in s && '\n' !in s
    ensures n >= 0 ==> AllDigits(s)
    ensures n < 0 ==> s[0] == '-' && AllDigits(s[1..])
  {
    var s := if n < 0 then "-" + DigitsOf(-n) else DigitsOf(n);
    assert forall i :: 0 <= i < |s| ==> s[i] == '-' || IsDigit(s[i]);
    s
  }

  /** The number an all-digit string denotes (leading zeros allowed). */
  function DigitsValue(s: string): nat
    requires AllDigits(s)
  {
    if s == [] then 0
    else DigitsValue(s[..|s| - 1]) * 10 + (s[|s| - 1] as int - '0' as int)
  }

  lemma {:induction false} DigitsRoundTrip(n: nat)
    ensures DigitsValue(DigitsOf(n)) == n
    decreases n
  {
    if n >= 10 {
      DigitsRoundTrip(n / 10);
      var s := DigitsOf(n);
      assert s[..|s| - 1] == DigitsOf(n / 10);
    }
  }

  const Int64Min: int := -0x8000_0000_0000_0000
  const Int64Max: int := 0x7FFF_FFFF_FFFF_FFFF

  /** Splits an optional leading sign off a number's text. */
  function SignAndBody(s: string): (bool, string)
  {
    if |s| > 0 && (s[0] == '+' || s[0] == '-') then (s[0] == '-', s[1..]) else (false, s)
  }

  /** Go strconv.Atoi on a 64-bit platform: an optional sign and at least one
      ASCII digit, the value within int64; anything else is an error (None). */
  function GoAtoi(s: string): Option<int>
  {
    var (negative, body) := SignAndBody(s);
    if body == [] || !AllDigits(body) then None
    else
      var v: int := if negative then 0 - DigitsValue(body) else DigitsValue(body);
      if Int64Min <= v <= Int64Max then Some(v) else None
  }

  /** The digit part Python's int() accepts: digits, single underscores
      between digits. */
  predicate PyDigitGroup(b: string)
  {
    && |b| >= 1
    && IsDigit(b[0])
    && forall i :: 0 <= i < |b| && !IsDigit(b[i]) ==> b[i] == '_' && 0 < i < |b| - 1 && IsDigit(b[i + 1])
  }

  /** Python int(s) for a str argument with ASCII digits: surrounding
      whitespace is ignored, then an optional sign and a digit group; None
      stands for the ValueError int() raises. */
  function PyInt(s: string): Option<int>
  {
    var (negative, body) := SignAndBody(PyStrip(s));
    if !PyDigitGroup(body) then None
    else
      var digits := RemoveChar(body, '_');
      assert AllDigits(digits) by { PyDigitsClean(body); }
      var v: int := DigitsValue(digits);
      Some(if negative then -v else v)
  }

  lemma {:induction false} PyDigitsClean(b: string)
    requires forall i :: 0 <= i < |b| ==> IsDigit(b[i]) || b[i] == '_'
    ensures AllDigits(RemoveChar(b, '_'))
    decreases |b|
  {
    if b != [] {
      PyDigitsClean(b[1..]);
    }
  }

  /** Atoi reads back what %d writes, for every int64. */
  lemma GoAtoiDecimal(n: int)
    requires Int64Min <= n <= Int64Max
    ensures GoAtoi(Decimal(n)) == Some(n)
  {
    DigitsRoundTrip(if n < 0 then -n else n);
    var s := Decimal(n);
    if n < 0 {
      assert s[1..] == DigitsOf(-n);
    }
  }

  /** int() reads back what str() writes, for every integer. */
  lemma PyIntDecimal(n: int)
    ensures PyInt(Decimal(n)) == Some(n)
  {
    var s := Decimal(n);
    var d := DigitsOf(if n < 0 then -n else n);
    DigitsRoundTrip(if n < 0 then -n else n);
    assert s == if n < 0 then "-" + d else d;
    DecimalUnstripped(n);
    assert SignAndBody(s) == (n < 0, d);
    PlainDigits(d);
  }

  /** Decimal text has no surrounding whitespace for strip() to remove. */
  lemma DecimalUnstripped(n: int)
    ensures PyStrip(Decimal(n)) == Decimal(n)
  {
    var s := Decimal(n);
    forall i | 0 <= i < |s| ensures !PySpace(s[i]) {
      assert s[i] == '-' || IsDigit(s[i]);
    }
    TrimNoop(s, PyWhitespace);
  }

  /** A plain digit string is a digit group for int() and has no underscore. */
  lemma PlainDigits(d: string)
    requires |d| >= 1 && AllDigits(d)
    ensures PyDigitGroup(d) && RemoveChar(d, '_') == d
  {
    assert '_' !in d;
  }

  /** Different integers have different decimal texts. */
  lemma DecimalInjective(a: int, b: int)
    requires Decimal(a) == Decimal(b)
    ensures a == b
  {
    PyIntDecimal(a);
    PyIntDecimal(b);
  }

  /** On plain digit strings within int64 (as the worker writes resolution
      labels) Atoi and int() agree. */
  lemma AtoiAgreesWithInt(s: string)
    requires |s| >= 1 && AllDigits(s)
    requires DigitsValue(s) <= Int64Max
    ensures GoAtoi(s) == PyInt(s) == Some(DigitsValue(s))
  {
    assert forall i :: 0 <= i < |s| ==> !PySpace(s[i]);
    TrimNoop(s, PyWhitespace);
    assert SignAndBody(s) == (false, s);
    PlainDigits(s);
  }
}
