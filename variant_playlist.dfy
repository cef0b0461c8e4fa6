/** The variant-playlist rewriter: RewritePlaylist in Go and
    rewrite_playlist_blocking in Python. Both substitute every match of the
    multi-line pattern ^([^#\s].*)$, which amounts to classifying each
    '\n'-separated line by its first character: '.' stops at '\n', '^' and
    '$' sit at line starts and ends, and the class [^#\s] excludes '\n'. */
module VariantPlaylist {
  import opened Bytes
  import opened Wrappers
  import opened Text
  import Numbers
  import Base64Url
  import Signer
  import opened Dialects

  /** The two implementations differ only in what `\s` matches. */
  predicate RegexSpace(d: Dialect, c: char)
  {
    match d
    case Go => GoRegexSpace(c)
    case Python => PySpace(c)
  }

  /** A line the pattern matches: not empty, and its first character is
      neither '#' nor whitespace. */
  predicate IsSegmentLine(d: Dialect, line: string)
  {
    |line| > 0 && line[0] != '#' && !RegexSpace(d, line[0])
  }

  function PublicPath(videoID: string, resolutionPath: string, segment: string): string
  {
    "/videos/" + videoID + "/" + resolutionPath + "/" + segment
  }

  /** `{publicPath}?st={expires}&sig={signURI(publicPath, expires, secret)}`. */
  function SignedLine(md5: seq<byte> -> Signer.Digest, videoID: string, resolutionPath: string,
                      segment: string, expires: int, secret: string): string
  {
    var path := PublicPath(videoID, resolutionPath, segment);
    var sig := Signer.SignUri(md5, path, expires, secret);
    path + ['?'] + ("st=" + (Numbers.Decimal(expires) + ['&'] + ("sig=" + sig)))
  }

  function RewriteLine(d: Dialect, md5: seq<byte> -> Signer.Digest, videoID: string, resolutionPath: string,
                       expires: int, secret: string, line: string): string
  {
    if IsSegmentLine(d, line) then SignedLine(md5, videoID, resolutionPath, line, expires, secret) else line
  }

  function RewriteLines(d: Dialect, md5: seq<byte> -> Signer.Digest, videoID: string, resolutionPath: string,
                        expires: int, secret: string, lines: seq<string>): (out: seq<string>)
    ensures |out| == |lines|
    ensures forall i :: 0 <= i < |lines| ==> out[i] == RewriteLine(d, md5, videoID, resolutionPath, expires, secret, lines[i])
  {
    seq(|lines|, i requires 0 <= i < |lines| => RewriteLine(d, md5, videoID, resolutionPath, expires, secret, lines[i]))
  }

  /** The rewritten playlist. Go passes its configured secret; Python passes
      Signer.PySecretText of its environment variable. */
  function RewritePlaylist(d: Dialect, md5: seq<byte> -> Signer.Digest, content: string, videoID: string,
                           resolutionPath: string, expires: int, secret: string): string
  {
    Join(RewriteLines(d, md5, videoID, resolutionPath, expires, secret, Split(content, '\n')), "\n")
  }

  /** The text before and after the first `c`, when there is one. */
  function SplitAt(s: string, c: char): (r: Option<(string, string)>)
    ensures r.Some? ==> s == r.value.0 + [c] + r.value.1 && c !in r.value.0
    ensures r.None? <==> c !in s
  {
    var i := IndexOf(s, c);
    if i == |s| then None
    else
      assert s == s[..i] + [c] + s[i + 1..];
      Some((s[..i], s[i + 1..]))
  }

  lemma SplitAtFirst(a: string, c: char, b: string)
    requires c !in a
    ensures SplitAt(a + [c] + b, c) == Some((a, b))
  {
    IndexOfAfterPrefix(a, c, b);
    var s := a + [c] + b;
    assert s[..|a|] == a && s[|a| + 1..] == b;
  }

  /** The check a segment server makes on a signed URL: split off the query
      `st={expires}&sig={signature}`, read the expiry, and recompute the
      signature over the path. Yields the path and expiry when they match. */
  function CheckSigned(md5: seq<byte> -> Signer.Digest, url: string, secret: string): Option<(string, int)>
  {
    match SplitAt(url, '?')
    case None => None
    case Some((path, query)) =>
      if !("st=" <= query) then None
      else
        match SplitAt(query[3..], '&')
        case None => None
        case Some((st, rest)) =>
          if !("sig=" <= rest) then None
          else
            match Numbers.GoAtoi(st)
            case None => None
            case Some(e) => if rest[4..] == Signer.SignUri(md5, path, e, secret) then Some((path, e)) else None
  }

  /** A decimal number contains neither '?' nor '&' nor '\n'. */
  lemma DecimalChars(n: int)
    ensures '?' !in Numbers.Decimal(n) && '&' !in Numbers.Decimal(n) && '\n' !in Numbers.Decimal(n)
  {
    var s := Numbers.Decimal(n);
    assert forall i :: 0 <= i < |s| ==> s[i] == '-' || Numbers.IsDigit(s[i]) by {
      if n < 0 {
        forall i | 0 < i < |s| ensures Numbers.IsDigit(s[i]) { assert s[1..][i - 1] == s[i]; }
      }
    }
  }

  /** Every signed line passes the check, yielding its public path and the
      expiry it was signed with. */
  lemma SignedLineChecks(md5: seq<byte> -> Signer.Digest, videoID: string, resolutionPath: string,
                         segment: string, expires: int, secret: string)
    requires '?' !in videoID && '?' !in resolutionPath && '?' !in segment
    requires Numbers.Int64Min <= expires <= Numbers.Int64Max
    ensures CheckSigned(md5, SignedLine(md5, videoID, resolutionPath, segment, expires, secret), secret)
         == Some((PublicPath(videoID, resolutionPath, segment), expires))
  {
    var path := PublicPath(videoID, resolutionPath, segment);
    var dec := Numbers.Decimal(expires);
    var sig := Signer.SignUri(md5, path, expires, secret);
    assert '?' !in path;
    DecimalChars(expires);
    Numbers.GoAtoiDecimal(expires);
    CheckSignedParts(md5, path, dec, expires, sig, secret);
  }

  lemma CheckSignedParts(md5: seq<byte> -> Signer.Digest, path: string, dec: string, e: int, sig: string, secret: string)
    requires '?' !in path && '&' !in dec
    requires Numbers.GoAtoi(dec) == Some(e)
    requires sig == Signer.SignUri(md5, path, e, secret)
    ensures CheckSigned(md5, path + ['?'] + ("st=" + (dec + ['&'] + ("sig=" + sig))), secret) == Some((path, e))
  {
    var rest := "sig=" + sig;
    var query := "st=" + (dec + ['&'] + rest);
    assert SplitAt(path + ['?'] + query, '?') == Some((path, query)) by {
      SplitAtFirst(path, '?', query);
    }
    assert "st=" <= query && query[3..] == dec + ['&'] + rest;
    assert SplitAt(query[3..], '&') == Some((dec, rest)) by {
      SplitAtFirst(dec, '&', rest);
    }
    assert "sig=" <= rest && rest[4..] == sig;
  }

  /** Per line: a signed line never introduces a line break. */
  lemma SignedLineOneLine(md5: seq<byte> -> Signer.Digest, videoID: string, resolutionPath: string,
                          segment: string, expires: int, secret: string)
    requires '\n' !in videoID && '\n' !in resolutionPath && '\n' !in segment
    ensures '\n' !in SignedLine(md5, videoID, resolutionPath, segment, expires, secret)
  {
    var path := PublicPath(videoID, resolutionPath, segment);
    assert '\n' !in path;
    UrlSafeOneLine(Signer.SignUri(md5, path, expires, secret));
    DecimalChars(expires);
  }

  lemma UrlSafeOneLine(sig: string)
    requires forall i :: 0 <= i < |sig| ==> Base64Url.IsUrlSafe(sig[i])
    ensures '\n' !in sig
  {
    forall i | 0 <= i < |sig| ensures sig[i] != '\n' {
      assert Base64Url.IsUrlSafe(sig[i]);
    }
  }

  /** The rewrite keeps the line structure: the output has exactly as many
      lines as the input (so no '\n' is added or lost), lines the pattern
      does not match are copied verbatim, and each matching line is replaced
      by its signed URL, all with the same expiry. */
  lemma RewriteByLine(d: Dialect, md5: seq<byte> -> Signer.Digest, content: string, videoID: string,
                      resolutionPath: string, expires: int, secret: string)
    requires '\n' !in videoID && '\n' !in resolutionPath
    ensures var lines := Split(content, '\n');
      var out := Split(RewritePlaylist(d, md5, content, videoID, resolutionPath, expires, secret), '\n');
      && |out| == |lines|
      && (forall i :: 0 <= i < |lines| && !IsSegmentLine(d, lines[i]) ==> out[i] == lines[i])
      && (forall i :: 0 <= i < |lines| && IsSegmentLine(d, lines[i]) ==>
            out[i] == SignedLine(md5, videoID, resolutionPath, lines[i], expires, secret))
  {
    var lines := Split(content, '\n');
    var mapped := RewriteLines(d, md5, videoID, resolutionPath, expires, secret, lines);
    forall p | p in mapped ensures '\n' !in p {
      var i :| 0 <= i < |mapped| && mapped[i] == p;
      assert lines[i] in lines;
      if IsSegmentLine(d, lines[i]) {
        SignedLineOneLine(md5, videoID, resolutionPath, lines[i], expires, secret);
      }
    }
    SplitJoin(mapped, '\n');
  }

  /** Empty input gives empty output. */
  lemma RewriteEmpty(d: Dialect, md5: seq<byte> -> Signer.Digest, videoID: string,
                     resolutionPath: string, expires: int, secret: string)
    ensures RewritePlaylist(d, md5, "", videoID, resolutionPath, expires, secret) == ""
  {
    assert Split("", '\n') == [""];
  }

  /** The rewrite adds no final newline: the output ends in '\n' iff the
      input does. */
  lemma RewriteTrailingNewline(d: Dialect, md5: seq<byte> -> Signer.Digest, content: string, videoID: string,
                               resolutionPath: string, expires: int, secret: string)
    requires '\n' !in videoID && '\n' !in resolutionPath
    ensures var out := RewritePlaylist(d, md5, content, videoID, resolutionPath, expires, secret);
      (|out| > 0 && out[|out| - 1] == '\n') <==> (|content| > 0 && content[|content| - 1] == '\n')
  {
    var out := RewritePlaylist(d, md5, content, videoID, resolutionPath, expires, secret);
    var lines := Split(content, '\n');
    var outLines := Split(out, '\n');
    RewriteByLine(d, md5, content, videoID, resolutionPath, expires, secret);
    Text.LastPieceEmpty(content, '\n', lines);
    Text.LastPieceEmpty(out, '\n', outLines);
    var k := |lines| - 1;
    if IsSegmentLine(d, lines[k]) {
      assert outLines[k] != [];
    }
  }

  /** The two dialects rewrite the same playlist identically (given the same
      secret) unless some line starts with a character that Python's `\s`
      matches and Go's does not (vertical tab, 0x1C-0x1F, or a non-ASCII
      space). */
  lemma DialectsAgree(md5: seq<byte> -> Signer.Digest, content: string, videoID: string,
                      resolutionPath: string, expires: int, secret: string)
    requires forall l :: l in Split(content, '\n') && |l| > 0 ==> (GoRegexSpace(l[0]) <==> PySpace(l[0]))
    ensures RewritePlaylist(Go, md5, content, videoID, resolutionPath, expires, secret)
         == RewritePlaylist(Python, md5, content, videoID, resolutionPath, expires, secret)
  {
    var lines := Split(content, '\n');
    var g := RewriteLines(Go, md5, videoID, resolutionPath, expires, secret, lines);
    var p := RewriteLines(Python, md5, videoID, resolutionPath, expires, secret, lines);
    forall i | 0 <= i < |lines| ensures g[i] == p[i] {
      assert lines[i] in lines;
    }
    assert g == p;
  }

  /** The difference is real: a line starting with a vertical tab (which
      Go's `\s` does not match) is signed by Go and copied by Python. */
  lemma VerticalTabLine()
    ensures IsSegmentLine(Go, "\U{000B}seg.ts") && !IsSegmentLine(Python, "\U{000B}seg.ts")
    ensures Split("\U{000B}seg.ts", '\n') == ["\U{000B}seg.ts"]
  {
    var line := "\U{000B}seg.ts";
    assert line[0] as int == 0x0B;
    assert '\n' !in line;
    assert IndexOf(line, '\n') == |line|;
  }

  lemma DialectsDiffer(md5: seq<byte> -> Signer.Digest, videoID: string,
                       resolutionPath: string, expires: int, secret: string)
    ensures RewritePlaylist(Python, md5, "\U{000B}seg.ts", videoID, resolutionPath, expires, secret) == "\U{000B}seg.ts"
    ensures RewritePlaylist(Go, md5, "\U{000B}seg.ts", videoID, resolutionPath, expires, secret) != "\U{000B}seg.ts"
  {
    var line := "\U{000B}seg.ts";
    VerticalTabLine();
    var signed := SignedLine(md5, videoID, resolutionPath, line, expires, secret);
    var g := RewriteLines(Go, md5, videoID, resolutionPath, expires, secret, [line]);
    var p := RewriteLines(Python, md5, videoID, resolutionPath, expires, secret, [line]);
    assert g == [signed] by { assert g[0] == signed; }
    assert p == [line] by { assert p[0] == line; }
    assert signed[0] == '/' != line[0];
  }
}
