/** Text primitives the handlers rely on: Go's strings package (Split, Join,
    TrimSpace, TrimPrefix, Replace) and Python's str methods (split, join,
    strip, splitlines, replace), over strings of Unicode scalar values. */
module Text {

  /** Position of the first occurrence of `c` in `s`, or |s| when there is none. */
  function IndexOf(s: string, c: char): (i: nat)
    ensures i <= |s|
    ensures i < |s| ==> s[i] == c
    ensures c !in s[..i]
    ensures i == |s| <==> c !in s
  {
    if s == [] then 0
    else if s[0] == c then 0
    else
      assert s[1..][..IndexOf(s[1..], c)] == s[1..1 + IndexOf(s[1..], c)];
      1 + IndexOf(s[1..], c)
  }

  /** Go strings.Split(s, sep) / Python s.split(sep) for a one-character
      separator: the pieces between separators, always at least one. */
  function Split(s: string, sep: char): (parts: seq<string>)
    ensures |parts| >= 1
    ensures forall p :: p in parts ==> sep !in p
    decreases |s|
  {
    var i := IndexOf(s, sep);
    if i == |s| then [s] else [s[..i]] + Split(s[i + 1..], sep)
  }

  /** Every character of a piece of a split comes from the text. */
  lemma {:induction false} SplitChars(s: string, sep: char, c: char)
    requires exists p :: p in Split(s, sep) && c in p
    ensures c in s
    decreases |s|
  {
    var i := IndexOf(s, sep);
    if i < |s| {
      var p :| p in Split(s, sep) && c in p;
      if p == s[..i] {
        assert c in s;
      } else {
        assert p in Split(s[i + 1..], sep);
        SplitChars(s[i + 1..], sep, c);
        assert c in s;
      }
    }
  }

  /** Go strings.Join(parts, sep) / Python sep.join(parts). */
  function Join(parts: seq<string>, sep: string): string
  {
    if |parts| == 0 then ""
    else if |parts| == 1 then parts[0]
    else parts[0] + sep + Join(parts[1..], sep)
  }

  /** The text before the first `sep`, or the whole string when there is none:
      element 0 of Go strings.SplitN(s, sep, 2) and of Python s.split(sep, 1). */
  function FirstPiece(s: string, sep: char): (r: string)
    ensures r <= s && sep !in r
    ensures sep in s ==> |r| < |s| && s[|r|] == sep
    ensures sep !in s ==> r == s
  {
    s[..IndexOf(s, sep)]
  }

  lemma FirstPieceChars(s: string, sep: char, c: char)
    requires c in FirstPiece(s, sep)
    ensures c in s
  {
    var d := FirstPiece(s, sep);
    var j :| 0 <= j < |d| && d[j] == c;
    assert s[j] == c;
  }

  lemma FirstPieceIsSplitHead(s: string, sep: char)
    ensures Split(s, sep)[0] == FirstPiece(s, sep)
  {
  }

  lemma {:induction false} JoinSplit(s: string, sep: char)
    ensures Join(Split(s, sep), [sep]) == s
    decreases |s|
  {
    var i := IndexOf(s, sep);
    if i < |s| {
      var rest := s[i + 1..];
      var tail := Split(rest, sep);
      assert Split(s, sep) == [s[..i]] + tail;
      JoinSplit(rest, sep);
      JoinCons(s[..i], tail, [sep]);
      assert s == s[..i] + [sep] + rest;
    }
  }

  lemma JoinCons(a: string, tail: seq<string>, sep: string)
    requires |tail| >= 1
    ensures Join([a] + tail, sep) == a + sep + Join(tail, sep)
  {
    assert ([a] + tail)[1..] == tail;
  }

  lemma {:induction false} SplitJoin(parts: seq<string>, sep: char)
    requires |parts| >= 1
    requires forall p :: p in parts ==> sep !in p
    ensures Split(Join(parts, [sep]), sep) == parts
    decreases |parts|
  {
    if |parts| > 1 {
      assert parts[0] in parts;
      SplitCons(parts[0], sep, Join(parts[1..], [sep]));
      forall p | p in parts[1..] ensures sep !in p { assert p in parts; }
      SplitJoin(parts[1..], sep);
      assert parts == [parts[0]] + parts[1..];
    } else {
      assert parts[0] in parts;
    }
  }

  /** A separator-free piece followed by the separator splits off first. */
  lemma SplitCons(a: string, sep: char, rest: string)
    requires sep !in a
    ensures Split(a + [sep] + rest, sep) == [a] + Split(rest, sep)
  {
    var s := a + [sep] + rest;
    IndexOfAfterPrefix(a, sep, rest);
    assert s[..|a|] == a;
    assert s[|a| + 1..] == rest;
  }

  lemma IndexOfAfterPrefix(a: string, c: char, b: string)
    requires c !in a
    ensures IndexOf(a + [c] + b, c) == |a|
  {
    var s := a + [c] + b;
    assert s[|a|] == c;
    assert s[..|a|] == a;
  }

  /** Joining with a separator that occurs in no piece and splitting again
      gives the pieces back; the number of pieces is one more than the number
      of separators. */
  lemma {:induction false} JoinLength(parts: seq<string>, sep: string)
    requires |parts| >= 1
    ensures |Join(parts, sep)| >= |parts[|parts| - 1]|
    ensures Join(parts, sep)[|Join(parts, sep)| - |parts[|parts| - 1]|..] == parts[|parts| - 1]
    decreases |parts|
  {
    if |parts| > 1 {
      JoinLength(parts[1..], sep);
      var rest := Join(parts[1..], sep);
      var s := Join(parts, sep);
      assert s == parts[0] + sep + rest;
      var n := |parts[|parts| - 1]|;
      assert parts[1..][|parts[1..]| - 1] == parts[|parts| - 1];
      assert s[|s| - n..] == rest[|rest| - n..];
    }
  }

  /** The last character of a join: the last character of the last piece, or
      the separator's when the last piece is empty and there are several. */
  lemma JoinEndsLikeLastPiece(parts: seq<string>, sep: char)
    requires |parts| >= 1
    ensures var s := Join(parts, [sep]);
      var last := parts[|parts| - 1];
      (last != [] ==> s != [] && s[|s| - 1] == last[|last| - 1]) &&
      (last == [] && |parts| > 1 ==> s != [] && s[|s| - 1] == sep) &&
      (last == [] && |parts| == 1 ==> s == [])
  {
    JoinLength(parts, [sep]);
    var s := Join(parts, [sep]);
    var last := parts[|parts| - 1];
    if last == [] && |parts| > 1 {
      JoinLength(parts[..|parts| - 1], [sep]);
      JoinSnoc(parts[..|parts| - 1], sep, last);
      assert parts[..|parts| - 1] + [last] == parts;
    }
  }

  /** Joined pieces followed by one more separator end in exactly one
      separator when the last piece is non-empty and does not end in it. */
  lemma EndsWithSingleSep(parts: seq<string>, sep: char)
    requires |parts| >= 1
    requires var last := parts[|parts| - 1]; last != [] && last[|last| - 1] != sep
    ensures var out := Join(parts, [sep]) + [sep];
      |out| >= 2 && out[|out| - 2] != sep && out[|out| - 1] == sep
  {
    JoinEndsLikeLastPiece(parts, sep);
  }

  lemma {:induction false} JoinSnoc(parts: seq<string>, sep: char, x: string)
    requires |parts| >= 1
    ensures Join(parts + [x], [sep]) == Join(parts, [sep]) + [sep] + x
    decreases |parts|
  {
    if |parts| == 1 {
      assert (parts + [x])[1..] == [x];
    } else {
      JoinSnoc(parts[1..], sep, x);
      assert (parts + [x])[1..] == parts[1..] + [x];
    }
  }

  /** The last piece of a split is empty exactly when the text ends in '\n'. */
  lemma {:induction false} LastPieceEmpty(s: string, sep: char, parts: seq<string>)
    requires parts == Split(s, sep)
    ensures (|s| > 0 && s[|s| - 1] == sep) <==> (|parts| > 1 && parts[|parts| - 1] == [])
  {
    JoinSplit(s, sep);
    JoinEndsInSep(parts, sep);
  }

  lemma JoinEndsInSep(parts: seq<string>, sep: char)
    requires |parts| >= 1
    requires forall p :: p in parts ==> sep !in p
    ensures var s := Join(parts, [sep]);
      (|s| > 0 && s[|s| - 1] == sep) <==> (|parts| > 1 && parts[|parts| - 1] == [])
  {
    var last := parts[|parts| - 1];
    JoinEndsLikeLastPiece(parts, sep);
    if last != [] {
      assert last in parts;
      assert last[|last| - 1] != sep;
    }
  }

  lemma {:induction false} JoinChars(parts: seq<string>, sep: string, c: char)
    requires c in Join(parts, sep)
    ensures c in sep || exists p :: p in parts && c in p
    decreases |parts|
  {
    if |parts| == 1 {
      assert parts[0] in parts;
    } else if |parts| > 1 {
      var rest := Join(parts[1..], sep);
      assert Join(parts, sep) == parts[0] + sep + rest;
      if c in parts[0] {
        assert parts[0] in parts;
      } else if c !in sep {
        assert c in rest;
        JoinChars(parts[1..], sep, c);
        var p :| p in parts[1..] && c in p;
        assert p in parts;
      }
    }
  }

  /** Go strings.TrimPrefix / Python str.removeprefix. */
  function TrimPrefix(s: string, prefix: string): (r: string)
    ensures prefix <= s ==> prefix + r == s
    ensures !(prefix <= s) ==> r == s
  {
    if prefix <= s then s[|prefix|..] else s
  }

  predicate HasSuffix(s: string, suffix: string)
  {
    |suffix| <= |s| && s[|s| - |suffix|..] == suffix
  }

  /** Go strings.TrimSuffix / Python str.removesuffix. */
  function TrimSuffix(s: string, suffix: string): (r: string)
    ensures HasSuffix(s, suffix) ==> r + suffix == s
    ensures !HasSuffix(s, suffix) ==> r == s
  {
    if HasSuffix(s, suffix) then s[..|s| - |suffix|] else s
  }

  /** The character sets the trimming functions remove. */
  datatype Strip = GoSpace | PyWhitespace | Slash

  predicate Stripped(k: Strip, c: char)
  {
    match k
    case GoSpace => GoUnicodeSpace(c)
    case PyWhitespace => PySpace(c)
    case Slash => c == '/'
  }

  /** Drops leading characters of the set `k`. */
  function TrimLeft(s: string, k: Strip): (r: string)
    ensures |r| <= |s| && r == s[|s| - |r|..]
    ensures r == [] || !Stripped(k, r[0])
    ensures forall i :: 0 <= i < |s| - |r| ==> Stripped(k, s[i])
    decreases |s|
  {
    if s != [] && Stripped(k, s[0]) then TrimLeft(s[1..], k) else s
  }

  /** Drops trailing characters of the set `k`. */
  function TrimRight(s: string, k: Strip): (r: string)
    ensures r <= s
    ensures r == [] || !Stripped(k, r[|r| - 1])
    ensures forall i :: |r| <= i < |s| ==> Stripped(k, s[i])
    decreases |s|
  {
    if s != [] && Stripped(k, s[|s| - 1]) then TrimRight(s[..|s| - 1], k) else s
  }

  function Trim(s: string, k: Strip): string
  {
    TrimRight(TrimLeft(s, k), k)
  }

  /** A string with no character of the set is left as is. */
  lemma TrimNoop(s: string, k: Strip)
    requires forall i :: 0 <= i < |s| ==> !Stripped(k, s[i])
    ensures Trim(s, k) == s
  {
    var l := TrimLeft(s, k);
    assert l == s;
  }

  /** Trimming leaves an empty string only when every character is stripped. */
  lemma TrimEmpty(s: string, k: Strip)
    ensures Trim(s, k) == [] <==> forall i :: 0 <= i < |s| ==> Stripped(k, s[i])
  {
    var l := TrimLeft(s, k);
    if Trim(s, k) == [] {
      forall i | 0 <= i < |s| ensures Stripped(k, s[i]) {
        if i >= |s| - |l| {
          assert s[i] == l[i - (|s| - |l|)];
        }
      }
    } else {
      var t := Trim(s, k);
      assert !Stripped(k, t[|t| - 1]);
      assert t[|t| - 1] == s[|s| - |l| + |t| - 1];
    }
  }

  /** The first character of a non-empty trimmed string. */
  lemma TrimFirst(s: string, k: Strip)
    requires Trim(s, k) != []
    ensures var j := |s| - |TrimLeft(s, k)|;
      j < |s| && Trim(s, k)[0] == s[j] && !Stripped(k, s[j]) &&
      forall i :: 0 <= i < j ==> Stripped(k, s[i])
  {
  }

  /** Trimming only removes characters. */
  lemma TrimChars(s: string, k: Strip, c: char)
    requires c in Trim(s, k)
    ensures c in s
  {
    var l := TrimLeft(s, k);
    var j :| 0 <= j < |Trim(s, k)| && Trim(s, k)[j] == c;
    assert l[j] == c;
    assert s[|s| - |l| + j] == c;
  }

  /** Go strings.Replace(s, old, new, -1) / Python s.replace(old, new) for a
      non-empty `pattern`: every non-overlapping occurrence, left to right. */
  function ReplaceAll(s: string, pattern: string, replacement: string): string
    requires pattern != []
    decreases |s|
  {
    if |s| < |pattern| then s
    else if pattern <= s then replacement + ReplaceAll(s[|pattern|..], pattern, replacement)
    else [s[0]] + ReplaceAll(s[1..], pattern, replacement)
  }

  predicate OccursAt(pattern: string, s: string, i: int)
  {
    0 <= i && i + |pattern| <= |s| && s[i..i + |pattern|] == pattern
  }

  /** `pattern` is a substring of `s`. */
  ghost predicate Occurs(pattern: string, s: string)
  {
    exists i :: OccursAt(pattern, s, i)
  }

  /** Where the pattern does not occur, replacing changes nothing. */
  lemma {:induction false} ReplaceAllAbsent(s: string, pattern: string, replacement: string)
    requires pattern != []
    requires !Occurs(pattern, s)
    ensures ReplaceAll(s, pattern, replacement) == s
    decreases |s|
  {
    if |s| >= |pattern| {
      assert s[0..|pattern|] == s[..|pattern|];
      assert !OccursAt(pattern, s, 0);
      if Occurs(pattern, s[1..]) {
        var i :| OccursAt(pattern, s[1..], i);
        assert s[1..][i..i + |pattern|] == s[i + 1..i + 1 + |pattern|];
        assert OccursAt(pattern, s, i + 1);
      }
      ReplaceAllAbsent(s[1..], pattern, replacement);
    }
  }

  /** A leading occurrence is replaced and the rest processed on. */
  lemma ReplaceAllLeading(pattern: string, rest: string, replacement: string)
    requires pattern != []
    ensures ReplaceAll(pattern + rest, pattern, replacement)
         == replacement + ReplaceAll(rest, pattern, replacement)
  {
    assert pattern <= pattern + rest;
    assert (pattern + rest)[|pattern|..] == rest;
  }

  /** Removes every occurrence of `c` (Go strings.ReplaceAll(s, "-", "")). */
  function RemoveChar(s: string, c: char): (r: string)
    ensures c !in r
    ensures |r| <= |s|
    ensures c !in s ==> r == s
  {
    if s == [] then []
    else if s[0] == c then RemoveChar(s[1..], c)
    else [s[0]] + RemoveChar(s[1..], c)
  }

  lemma RemoveCharAppend(a: string, b: string, c: char)
    ensures RemoveChar(a + b, c) == RemoveChar(a, c) + RemoveChar(b, c)
  {
    if a != [] {
      assert (a + b)[1..] == a[1..] + b;
      RemoveCharAppend(a[1..], b, c);
    } else {
      assert a + b == b;
    }
  }

  predicate IsAsciiUpper(c: char) { 'A' <= c <= 'Z' }

  function ToLowerAsciiChar(c: char): char
  {
    if IsAsciiUpper(c) then (c as int + 32) as char else c
  }

  /** Lower-cases the letters A-Z (the ASCII part of Go strings.ToLower). */
  function ToLowerAscii(s: string): (r: string)
    ensures |r| == |s|
    ensures forall i :: 0 <= i < |s| ==> r[i] == ToLowerAsciiChar(s[i])
  {
    if s == [] then [] else [ToLowerAsciiChar(s[0])] + ToLowerAscii(s[1..])
  }

  /** Whitespace of Go's regexp (RE2 Perl class \s): tab, LF, FF, CR, space. */
  predicate GoRegexSpace(c: char)
  {
    c == '\t' || c == '\n' || c as int == 0x0C || c == '\r' || c == ' '
  }

  /** Go unicode.IsSpace, used by strings.TrimSpace. */
  predicate GoUnicodeSpace(c: char)
  {
    var n := c as int;
    (0x09 <= n <= 0x0D) || n == 0x20 || n == 0x85 || n == 0xA0 || n == 0x1680 ||
    (0x2000 <= n <= 0x200A) || n == 0x2028 || n == 0x2029 || n == 0x202F ||
    n == 0x205F || n == 0x3000
  }

  /** Python str.isspace for one character; also what `\s` matches in a str
      pattern and what str.strip() removes. */
  predicate PySpace(c: char)
  {
    var n := c as int;
    (0x09 <= n <= 0x0D) || (0x1C <= n <= 0x20) || n == 0x85 || n == 0xA0 || n == 0x1680 ||
    (0x2000 <= n <= 0x200A) || n == 0x2028 || n == 0x2029 || n == 0x202F ||
    n == 0x205F || n == 0x3000
  }

  lemma SpaceInclusions(c: char)
    ensures GoRegexSpace(c) ==> GoUnicodeSpace(c) && PySpace(c)
    ensures GoUnicodeSpace(c) ==> PySpace(c)
    ensures PySpace(c) && !GoUnicodeSpace(c) <==> 0x1C <= c as int <= 0x1F
  {
  }

  /** Go strings.TrimSpace. */
  function GoTrimSpace(s: string): string
  {
    Trim(s, GoSpace)
  }

  /** Python str.strip() without arguments. */
  function PyStrip(s: string): string
  {
    Trim(s, PyWhitespace)
  }

  /** The characters at which Python's str.splitlines() ends a line
      (CR LF counts as one boundary). */
  predicate PyLineBoundary(c: char)
  {
    var n := c as int;
    (0x0A <= n <= 0x0D) || (0x1C <= n <= 0x1E) || n == 0x85 || n == 0x2028 || n == 0x2029
  }

  /** A piece of text in which splitlines() would not break. */
  predicate NoBoundary(l: string)
  {
    forall j :: 0 <= j < |l| ==> !PyLineBoundary(l[j])
  }

  function IndexOfBoundary(s: string): (i: nat)
    ensures i <= |s|
    ensures i < |s| ==> PyLineBoundary(s[i])
    ensures forall j :: 0 <= j < i ==> !PyLineBoundary(s[j])
  {
    if s == [] then 0
    else if PyLineBoundary(s[0]) then 0
    else 1 + IndexOfBoundary(s[1..])
  }

  /** Python str.splitlines(): no empty piece after a final boundary, and
      the empty string has no lines at all. */
  function SplitLines(s: string): (lines: seq<string>)
    ensures forall l :: l in lines ==> NoBoundary(l)
    ensures s == [] <==> lines == []
    decreases |s|
  {
    if s == [] then []
    else
      var i := IndexOfBoundary(s);
      if i == |s| then [s]
      else
        var skip := if s[i] == '\r' && i + 1 < |s| && s[i + 1] == '\n' then 2 else 1;
        [s[..i]] + SplitLines(s[i + skip..])
  }

  /** Every character of a line of splitlines() comes from the text. */
  lemma {:induction false} SplitLinesChars(s: string, c: char)
    requires exists l :: l in SplitLines(s) && c in l
    ensures c in s
    decreases |s|
  {
    var l :| l in SplitLines(s) && c in l;
    var i := IndexOfBoundary(s);
    if i == |s| {
      assert l == s;
    } else {
      var skip := if s[i] == '\r' && i + 1 < |s| && s[i + 1] == '\n' then 2 else 1;
      var rest := s[i + skip..];
      assert SplitLines(s) == [s[..i]] + SplitLines(rest);
      if l == s[..i] {
        var j :| 0 <= j < |l| && l[j] == c;
        assert s[j] == c;
      } else {
        assert l in SplitLines(rest);
        SplitLinesChars(rest, c);
        var j :| 0 <= j < |rest| && rest[j] == c;
        assert s[i + skip + j] == c;
      }
    }
  }

  /** Lines free of boundaries, joined with LF, split back into the same
      lines, provided the last one is not empty. */
  lemma {:induction false} SplitLinesJoin(lines: seq<string>)
    requires |lines| >= 1 && lines[|lines| - 1] != []
    requires forall l :: l in lines ==> NoBoundary(l)
    ensures SplitLines(Join(lines, "\n")) == lines
    decreases |lines|
  {
    assert lines[0] in lines;
    if |lines| == 1 {
      BoundaryFree(lines[0]);
    } else {
      var rest := Join(lines[1..], "\n");
      var s := Join(lines, "\n");
      assert s == lines[0] + "\n" + rest;
      BoundaryAfterPrefix(lines[0], rest);
      assert s[..|lines[0]|] == lines[0];
      assert s[|lines[0]| + 1..] == rest;
      assert forall l :: l in lines[1..] ==> l in lines;
      JoinLength(lines[1..], "\n");
      SplitLinesJoin(lines[1..]);
      assert lines == [lines[0]] + lines[1..];
    }
  }

  /** A line without a line boundary has no '\n' in particular. */
  lemma NoBoundaryNoNewline(l: string)
    requires NoBoundary(l)
    ensures '\n' !in l
  {
    if '\n' in l {
      var k :| 0 <= k < |l| && l[k] == '\n';
      assert PyLineBoundary(l[k]);
    }
  }

  lemma BoundaryFree(s: string)
    requires NoBoundary(s)
    ensures IndexOfBoundary(s) == |s|
  {
  }

  lemma BoundaryAfterPrefix(a: string, b: string)
    requires NoBoundary(a)
    ensures IndexOfBoundary(a + "\n" + b) == |a|
    ensures (a + "\n" + b)[|a|] == '\n'
  {
    var s := a + "\n" + b;
    assert PyLineBoundary(s[|a|]);
    assert forall j :: 0 <= j < |a| ==> s[j] == a[j];
    BoundaryPrefixFree(s, |a|);
  }

  lemma {:induction false} BoundaryPrefixFree(s: string, k: nat)
    requires k < |s| && PyLineBoundary(s[k])
    requires forall j :: 0 <= j < k ==> !PyLineBoundary(s[j])
    ensures IndexOfBoundary(s) == k
    decreases k
  {
    if k > 0 {
      BoundaryPrefixFree(s[1..], k - 1);
    }
  }
}
