/** JSON string literals as the two servers write them into a status event:
    Go's encoding/json (Go 1.22 or later, with its default HTML escaping)
    and Python's json.dumps (ensure_ascii on). Both escape the quote, the
    backslash and every control character, so a literal never spans lines;
    they differ on which other characters they spell as \uXXXX. A decoder
    for JSON string bodies (section 7 of RFC 8259) reads either form back. */
module JsonText {
  import opened Wrappers
  import opened Dialects

  function HexDigit(v: int): (c: char)
    requires 0 <= v < 16
  {
    if v < 10 then ('0' as int + v) as char else ('a' as int + v - 10) as char
  }

  function HexValue(c: char): (r: Option<int>)
    ensures r.Some? ==> 0 <= r.value < 16
  {
    if '0' <= c <= '9' then Some(c as int - '0' as int)
    else if 'a' <= c <= 'f' then Some(c as int - 'a' as int + 10)
    else if 'A' <= c <= 'F' then Some(c as int - 'A' as int + 10)
    else None
  }

  lemma HexDigitValue(v: int)
    requires 0 <= v < 16
    ensures HexValue(HexDigit(v)) == Some(v)
  {
  }

  /** Four lower-case hex digits, most significant first. */
  function Hex4(n: int): (s: string)
    requires 0 <= n < 0x1_0000
    ensures |s| == 4
  {
    [HexDigit(n / 0x1000), HexDigit(n / 0x100 % 16), HexDigit(n / 0x10 % 16), HexDigit(n % 16)]
  }

  /** The value of four hex digits. */
  function Hex4Value(s: string): (r: Option<int>)
    requires |s| == 4
    ensures r.Some? ==> 0 <= r.value < 0x1_0000
  {
    match (HexValue(s[0]), HexValue(s[1]), HexValue(s[2]), HexValue(s[3]))
    case (Some(a), Some(b), Some(c), Some(d)) => Some(((a * 16 + b) * 16 + c) * 16 + d)
    case _ => None
  }

  lemma Hex4RoundTrip(n: int)
    requires 0 <= n < 0x1_0000
    ensures Hex4Value(Hex4(n)) == Some(n)
  {
    var q1 := n / 16;
    var q2 := q1 / 16;
    var q3 := q2 / 16;
    assert n == q1 * 16 + n % 16;
    assert q1 == q2 * 16 + q1 % 16;
    assert q2 == q3 * 16 + q2 % 16;
    assert q1 == n / 0x10 && q2 == n / 0x100 && q3 == n / 0x1000;
    HexDigitValue(q3);
    HexDigitValue(q2 % 16);
    HexDigitValue(q1 % 16);
    HexDigitValue(n % 16);
  }

  /** `\uXXXX`. */
  function UEscape(n: int): (s: string)
    requires 0 <= n < 0x1_0000
    ensures |s| == 6
  {
    "\\u" + Hex4(n)
  }

  /** The two-character escapes both encoders use: quote, backslash,
      newline, carriage return, tab, backspace, form feed. */
  function ShortEscape(c: char): Option<char>
  {
    if c == '"' then Some('"')
    else if c == '\\' then Some('\\')
    else if c == '\n' then Some('n')
    else if c == '\r' then Some('r')
    else if c == '\t' then Some('t')
    else if c == 0x08 as char then Some('b')
    else if c == 0x0C as char then Some('f')
    else None
  }

  /** How Go writes one character: short escapes, \u00XX for the other
      control characters, \u escapes for < > & and for U+2028 and U+2029,
      and every other character as itself. */
  function GoEscape(c: char): string
  {
    if ShortEscape(c).Some? then ['\\', ShortEscape(c).value]
    else if c < ' ' || c == '<' || c == '>' || c == '&' || c == 0x2028 as char || c == 0x2029 as char
    then UEscape(c as int)
    else [c]
  }

  /** How Python writes one character with ensure_ascii: short escapes,
      printable ASCII as itself, other BMP characters as \uXXXX and the
      rest as a surrogate pair. */
  function PyEscape(c: char): string
  {
    if ShortEscape(c).Some? then ['\\', ShortEscape(c).value]
    else if ' ' <= c <= '~' then [c]
    else if (c as int) < 0x1_0000 then UEscape(c as int)
    else
      var v := c as int - 0x1_0000;
      UEscape(0xD800 + v / 0x400) + UEscape(0xDC00 + v % 0x400)
  }

  function Escape(d: Dialect, c: char): string
  {
    match d
    case Go => GoEscape(c)
    case Python => PyEscape(c)
  }

  /** The body of the literal: every character escaped in turn. */
  function EscapeAll(d: Dialect, s: string): string
  {
    if s == [] then [] else Escape(d, s[0]) + EscapeAll(d, s[1..])
  }

  /** The quoted literal. */
  function Quote(d: Dialect, s: string): string
  {
    "\"" + EscapeAll(d, s) + "\""
  }

  /** The character a short escape letter stands for (`/` included, which
      JSON allows though neither encoder writes it). */
  function ShortUnescape(e: char): Option<char>
  {
    if e == '"' then Some('"')
    else if e == '\\' then Some('\\')
    else if e == '/' then Some('/')
    else if e == 'n' then Some('\n')
    else if e == 'r' then Some('\r')
    else if e == 't' then Some('\t')
    else if e == 'b' then Some(0x08 as char)
    else if e == 'f' then Some(0x0C as char)
    else None
  }

  predicate IsHigh(n: int) { 0xD800 <= n < 0xDC00 }
  predicate IsLow(n: int) { 0xDC00 <= n < 0xE000 }

  /** A JSON string body: unescaped characters other than the quote, the
      backslash and control characters, and escapes; a \u escape of a high
      surrogate must be followed by one of a low surrogate, and the pair
      stands for one character. None for anything malformed. */
  function Unescape(s: string): Option<string>
    decreases |s|
  {
    if s == [] then Some([])
    else if s[0] == '"' || s[0] < ' ' then None
    else if s[0] != '\\' then
      match Unescape(s[1..])
      case None => None
      case Some(rest) => Some([s[0]] + rest)
    else if |s| < 2 then None
    else if s[1] != 'u' then
      match ShortUnescape(s[1])
      case None => None
      case Some(c) =>
        match Unescape(s[2..])
        case None => None
        case Some(rest) => Some([c] + rest)
    else if |s| < 6 then None
    else
      match Hex4Value(s[2..6])
      case None => None
      case Some(n) =>
        if IsLow(n) then None
        else if !IsHigh(n) then
          match Unescape(s[6..])
          case None => None
          case Some(rest) => Some([n as char] + rest)
        else if |s| < 12 || s[6..8] != "\\u" then None
        else
          match Hex4Value(s[8..12])
          case None => None
          case Some(m) =>
            if !IsLow(m) then None
            else
              var cp := 0x1_0000 + (n - 0xD800) * 0x400 + (m - 0xDC00);
              match Unescape(s[12..])
              case None => None
              case Some(rest) => Some([cp as char] + rest)
  }

  /** Reads a whole literal: a quote, a body, a quote. */
  function Unquote(q: string): Option<string>
  {
    if |q| < 2 || q[0] != '"' || q[|q| - 1] != '"' then None
    else Unescape(q[1..|q| - 1])
  }

  lemma ShortRoundTrip(c: char)
    requires ShortEscape(c).Some?
    ensures ShortEscape(c).value != 'u' && ShortUnescape(ShortEscape(c).value) == Some(c)
  {
  }

  /** Reading a two-character escape consumes exactly it. */
  lemma UnescapeShort(c: char, rest: string)
    requires ShortEscape(c).Some?
    ensures Unescape(['\\', ShortEscape(c).value] + rest)
         == (match Unescape(rest) case None => None case Some(r) => Some([c] + r))
  {
    var s := ['\\', ShortEscape(c).value] + rest;
    ShortRoundTrip(c);
    assert s[2..] == rest;
  }

  /** Reading a \u escape of a non-surrogate consumes exactly it. */
  lemma UnescapeBmp(c: char, rest: string)
    requires (c as int) < 0x1_0000
    ensures Unescape(UEscape(c as int) + rest)
         == (match Unescape(rest) case None => None case Some(r) => Some([c] + r))
  {
    var s := UEscape(c as int) + rest;
    Hex4RoundTrip(c as int);
    assert s[2..6] == Hex4(c as int);
    assert s[6..] == rest;
  }

  /** Reading a surrogate pair consumes both escapes and yields the one
      character they encode. */
  lemma UnescapePair(c: char, rest: string)
    requires (c as int) >= 0x1_0000
    ensures var v := c as int - 0x1_0000;
      Unescape(UEscape(0xD800 + v / 0x400) + UEscape(0xDC00 + v % 0x400) + rest)
         == (match Unescape(rest) case None => None case Some(r) => Some([c] + r))
  {
    var v := c as int - 0x1_0000;
    var hi, lo := 0xD800 + v / 0x400, 0xDC00 + v % 0x400;
    var s := UEscape(hi) + UEscape(lo) + rest;
    Hex4RoundTrip(hi);
    Hex4RoundTrip(lo);
    assert s[2..6] == Hex4(hi);
    assert s[6..8] == "\\u";
    assert s[8..12] == Hex4(lo);
    assert s[12..] == rest;
    assert 0x1_0000 + (hi - 0xD800) * 0x400 + (lo - 0xDC00) == c as int;
  }

  /** One escaped character followed by anything reads back as that
      character followed by the reading of the rest. */
  lemma UnescapeOne(d: Dialect, c: char, rest: string)
    ensures Unescape(Escape(d, c) + rest)
         == (match Unescape(rest) case None => None case Some(r) => Some([c] + r))
  {
    if ShortEscape(c).Some? {
      UnescapeShort(c, rest);
    } else if Escape(d, c) == [c] {
      var s := [c] + rest;
      assert s[1..] == rest;
    } else if (c as int) < 0x1_0000 {
      UnescapeBmp(c, rest);
    } else {
      UnescapePair(c, rest);
    }
  }

  /** Decoding undoes escaping, for either encoder. */
  lemma {:induction false} UnescapeEscapeAll(d: Dialect, s: string)
    ensures Unescape(EscapeAll(d, s)) == Some(s)
    decreases |s|
  {
    if s != [] {
      UnescapeEscapeAll(d, s[1..]);
      UnescapeOne(d, s[0], EscapeAll(d, s[1..]));
      assert [s[0]] + s[1..] == s;
    }
  }

  /** A quoted literal reads back as the text it quotes. */
  lemma UnquoteQuote(d: Dialect, s: string)
    ensures Unquote(Quote(d, s)) == Some(s)
  {
    var q := Quote(d, s);
    assert q[1..|q| - 1] == EscapeAll(d, s);
    UnescapeEscapeAll(d, s);
  }

  /** An escape never holds a line break: short escapes are two printable
      characters and \u escapes are six. */
  lemma EscapeOneLine(d: Dialect, c: char)
    ensures '\n' !in Escape(d, c) && '\r' !in Escape(d, c)
  {
    if (c as int) >= 0x1_0000 && d == Python {
      var v := c as int - 0x1_0000;
      HexOneLine(0xD800 + v / 0x400);
      HexOneLine(0xDC00 + v % 0x400);
    } else if ShortEscape(c).None? && (c as int) < 0x1_0000 {
      HexOneLine(c as int);
    }
  }

  lemma HexOneLine(n: int)
    requires 0 <= n < 0x1_0000
    ensures '\n' !in UEscape(n) && '\r' !in UEscape(n)
  {
    var s := UEscape(n);
    assert forall i :: 2 <= i < 6 ==> s[i] == Hex4(n)[i - 2];
  }

  /** A quoted literal is a single line, whatever it quotes. */
  lemma {:induction false} EscapeAllOneLine(d: Dialect, s: string)
    ensures '\n' !in EscapeAll(d, s) && '\r' !in EscapeAll(d, s)
    decreases |s|
  {
    if s != [] {
      EscapeOneLine(d, s[0]);
      EscapeAllOneLine(d, s[1..]);
    }
  }

  lemma QuoteOneLine(d: Dialect, s: string)
    ensures '\n' !in Quote(d, s) && '\r' !in Quote(d, s)
  {
    EscapeAllOneLine(d, s);
  }

  /** Letters, digits and '_' are written as themselves by both encoders. */
  predicate Plain(c: char)
  {
    ('a' <= c <= 'z') || ('A' <= c <= 'Z') || ('0' <= c <= '9') || c == '_'
  }

  lemma {:induction false} PlainVerbatim(d: Dialect, s: string)
    requires forall i :: 0 <= i < |s| ==> Plain(s[i])
    ensures EscapeAll(d, s) == s
    decreases |s|
  {
    if s != [] {
      PlainVerbatim(d, s[1..]);
      assert Escape(d, s[0]) == [s[0]];
      assert [s[0]] + s[1..] == s;
    }
  }
}
