/** The master-playlist rewriter: RewriteMasterPlaylist in Go and
    make_modified_line with its join in Python. Every line that is neither
    blank nor a comment becomes `/api/playlist/{videoID}/{dir}`, where `dir`
    is the text before the line's first '/'. */
module MasterPlaylist {
  import opened Text

  const ApiPrefix: string := "/api/playlist/"

  /** One line as Go rewrites it: the test and the directory use the
      TrimSpace'd line; a kept line is kept untrimmed. */
  function GoMasterLine(videoID: string, line: string): string
  {
    var trimmed := GoTrimSpace(line);
    if trimmed == [] || trimmed[0] == '#' then line
    else ApiPrefix + videoID + "/" + FirstPiece(trimmed, '/')
  }

  function GoMasterLines(videoID: string, lines: seq<string>): (out: seq<string>)
    ensures |out| == |lines|
    ensures forall i :: 0 <= i < |lines| ==> out[i] == GoMasterLine(videoID, lines[i])
  {
    seq(|lines|, i requires 0 <= i < |lines| => GoMasterLine(videoID, lines[i]))
  }

  /** What RewriteMasterPlaylist returns: the rewritten '\n'-pieces, joined
      with '\n', plus one more '\n'. */
  function GoMaster(content: string, videoID: string): string
  {
    Join(GoMasterLines(videoID, Split(content, '\n')), "\n") + "\n"
  }

  /** RewriteMasterPlaylist, with its loop appending to rewrittenLines. The
      `len(parts) == 0` guard never fires (SplitN with n = 2 yields at least
      one piece) and has no counterpart here. */
  method RewriteMasterPlaylist(content: string, videoID: string) returns (out: string)
    ensures out == GoMaster(content, videoID)
  {
    var lines := Split(content, '\n');
    var rewrittenLines: seq<string> := [];
    var i := 0;
    while i < |lines|
      invariant 0 <= i <= |lines|
      invariant rewrittenLines == GoMasterLines(videoID, lines[..i])
    {
      var line := lines[i];
      var trimmedLine := GoTrimSpace(line);
      var rewritten: string;
      if trimmedLine == [] || trimmedLine[0] == '#' {
        rewritten := line;
      } else {
        var resolutionDir := FirstPiece(trimmedLine, '/');
        rewritten := ApiPrefix + videoID + "/" + resolutionDir;
      }
      assert rewritten == GoMasterLine(videoID, line);
      GoMasterLinesSnoc(videoID, lines, i);
      rewrittenLines := rewrittenLines + [rewritten];
      i := i + 1;
    }
    assert lines[..i] == lines;
    out := Join(rewrittenLines, "\n") + "\n";
  }

  lemma GoMasterLinesSnoc(videoID: string, lines: seq<string>, i: nat)
    requires i < |lines|
    ensures GoMasterLines(videoID, lines[..i + 1]) == GoMasterLines(videoID, lines[..i]) + [GoMasterLine(videoID, lines[i])]
  {
    var a := GoMasterLines(videoID, lines[..i + 1]);
    var b := GoMasterLines(videoID, lines[..i]) + [GoMasterLine(videoID, lines[i])];
    forall k | 0 <= k <= i ensures a[k] == b[k] {
      assert lines[..i + 1][k] == lines[k];
    }
  }

  /** One line as Python rewrites it: the blank test uses strip(), the
      comment test the untrimmed line, and the directory is the untrimmed
      text before the first '/', with lstrip('/') and rstrip('/') applied. */
  function PyMasterLine(videoID: string, line: string): string
  {
    if PyStrip(line) == [] || (|line| > 0 && line[0] == '#') then line
    else ApiPrefix + videoID + "/" + TrimRight(TrimLeft(FirstPiece(line, '/'), Slash), Slash)
  }

  function PyMasterLines(videoID: string, lines: seq<string>): (out: seq<string>)
    ensures |out| == |lines|
    ensures forall i :: 0 <= i < |lines| ==> out[i] == PyMasterLine(videoID, lines[i])
  {
    seq(|lines|, i requires 0 <= i < |lines| => PyMasterLine(videoID, lines[i]))
  }

  /** `"\n".join(make_modified_line(l) for l in content.splitlines()) + "\n"`. */
  function PyMaster(content: string, videoID: string): string
  {
    Join(PyMasterLines(videoID, SplitLines(content)), "\n") + "\n"
  }

  /** Python's slash stripping never changes anything: the piece before the
      first '/' holds no '/'. */
  lemma SlashStripNoop(line: string)
    ensures TrimRight(TrimLeft(FirstPiece(line, '/'), Slash), Slash) == FirstPiece(line, '/')
  {
    var d := FirstPiece(line, '/');
    assert forall i :: 0 <= i < |d| ==> d[i] != '/';
    assert TrimLeft(d, Slash) == d;
  }

  /** Go: the line kinds. A blank or comment line (after trimming) is kept
      untrimmed; any other line becomes the API path for a directory that is
      a '/'-free prefix of the trimmed line, ending where the trimmed line
      has its first '/'. */
  lemma GoMasterLineKinds(videoID: string, line: string)
    ensures var t := GoTrimSpace(line);
      var out := GoMasterLine(videoID, line);
      && (t == [] || t[0] == '#' ==> out == line)
      && (t != [] && t[0] != '#' ==>
            exists dir :: out == ApiPrefix + videoID + "/" + dir && dir <= t && '/' !in dir &&
              (|dir| == |t| || t[|dir|] == '/'))
  {
    var t := GoTrimSpace(line);
    if t != [] && t[0] != '#' {
      var dir := FirstPiece(t, '/');
      assert GoMasterLine(videoID, line) == ApiPrefix + videoID + "/" + dir;
    }
  }

  /** Rewritten lines carry no signature: every character of an output line
      comes from the input line, the video id or the fixed API path. So the
      master rewrite never adds a '?' (and with it no `?st=` or `sig=`). */
  lemma GoMasterLineChars(videoID: string, line: string, c: char)
    requires c in GoMasterLine(videoID, line)
    ensures c in line || c in videoID || c in ApiPrefix
  {
    var t := GoTrimSpace(line);
    if t != [] && t[0] != '#' && c in FirstPiece(t, '/') {
      assert c in t;
      TrimChars(line, GoSpace, c);
    }
  }

  lemma PyMasterLineChars(videoID: string, line: string, c: char)
    requires c in PyMasterLine(videoID, line)
    ensures c in line || c in videoID || c in ApiPrefix
  {
    if !(PyStrip(line) == [] || (|line| > 0 && line[0] == '#')) {
      var d := FirstPiece(line, '/');
      SlashStripNoop(line);
      assert PyMasterLine(videoID, line) == ApiPrefix + videoID + "/" + d;
      if c in d {
        FirstPieceChars(line, '/', c);
      }
    }
  }

  /** Neither server's master rewrite signs anything: when neither the
      stored master nor the video id holds a '?', no rewritten line and no
      rewritten master does, so no `?st=` or `sig=` query appears. */
  lemma MasterAddsNoQuery(content: string, videoID: string)
    requires '?' !in content && '?' !in videoID
    ensures forall l :: l in Split(content, '\n') ==> '?' !in GoMasterLine(videoID, l)
    ensures forall l :: l in SplitLines(content) ==> '?' !in PyMasterLine(videoID, l)
    ensures '?' !in GoMaster(content, videoID) && '?' !in PyMaster(content, videoID)
  {
    GoLinesNoQuery(content, videoID);
    PyLinesNoQuery(content, videoID);
    var go := GoMasterLines(videoID, Split(content, '\n'));
    var py := PyMasterLines(videoID, SplitLines(content));
    JoinWithout(go, "\n", '?');
    JoinWithout(py, "\n", '?');
  }

  lemma GoLinesNoQuery(content: string, videoID: string)
    requires '?' !in content && '?' !in videoID
    ensures forall l :: l in Split(content, '\n') ==> '?' !in GoMasterLine(videoID, l)
    ensures forall l :: l in GoMasterLines(videoID, Split(content, '\n')) ==> '?' !in l
  {
    var lines := Split(content, '\n');
    forall l | l in lines ensures '?' !in l {
      if '?' in l {
        SplitChars(content, '\n', '?');
      }
    }
    forall l | l in lines ensures '?' !in GoMasterLine(videoID, l) {
      GoLineNoQuery(videoID, l);
    }
  }

  lemma GoLineNoQuery(videoID: string, line: string)
    requires '?' !in line && '?' !in videoID
    ensures '?' !in GoMasterLine(videoID, line)
  {
    assert '?' !in ApiPrefix by {
      if '?' in ApiPrefix {
        ApiPrefixChars('?');
      }
    }
    if '?' in GoMasterLine(videoID, line) {
      GoMasterLineChars(videoID, line, '?');
    }
  }

  lemma PyLinesNoQuery(content: string, videoID: string)
    requires '?' !in content && '?' !in videoID
    ensures forall l :: l in SplitLines(content) ==> '?' !in PyMasterLine(videoID, l)
    ensures forall l :: l in PyMasterLines(videoID, SplitLines(content)) ==> '?' !in l
  {
    var lines := SplitLines(content);
    forall l | l in lines ensures '?' !in l {
      if '?' in l {
        SplitLinesChars(content, '?');
      }
    }
    forall l | l in lines ensures '?' !in PyMasterLine(videoID, l) {
      PyLineNoQuery(videoID, l);
    }
  }

  lemma PyLineNoQuery(videoID: string, line: string)
    requires '?' !in line && '?' !in videoID
    ensures '?' !in PyMasterLine(videoID, line)
  {
    assert '?' !in ApiPrefix by {
      if '?' in ApiPrefix {
        ApiPrefixChars('?');
      }
    }
    if '?' in PyMasterLine(videoID, line) {
      PyMasterLineChars(videoID, line, '?');
    }
  }

  /** A character in no piece and not in the separator is not in the join. */
  lemma JoinWithout(parts: seq<string>, sep: string, c: char)
    requires c !in sep && forall p :: p in parts ==> c !in p
    ensures c !in Join(parts, sep)
  {
    if c in Join(parts, sep) {
      JoinChars(parts, sep, c);
    }
  }

  /** A Go output line never holds '\n', so the output splits back into
      exactly the rewritten lines. */
  lemma GoMasterLinesOneLine(videoID: string, lines: seq<string>)
    requires '\n' !in videoID
    requires forall l :: l in lines ==> '\n' !in l
    ensures forall l :: l in GoMasterLines(videoID, lines) ==> '\n' !in l
  {
    var out := GoMasterLines(videoID, lines);
    forall i | 0 <= i < |out| ensures '\n' !in out[i] {
      assert lines[i] in lines;
      GoMasterLineOneLine(videoID, lines[i]);
    }
  }

  lemma GoMasterLineOneLine(videoID: string, line: string)
    requires '\n' !in videoID && '\n' !in line
    ensures '\n' !in GoMasterLine(videoID, line)
  {
    if '\n' in GoMasterLine(videoID, line) {
      GoMasterLineChars(videoID, line, '\n');
      ApiPrefixChars('\n');
    }
  }

  /** The fixed API path is lower-case letters and '/'. */
  lemma ApiPrefixChars(c: char)
    requires c in ApiPrefix
    ensures c == '/' || 'a' <= c <= 'z'
  {
  }

  /** Go keeps the line structure and adds one final '\n': the output minus
      its last character splits into exactly the rewritten input pieces, one
      per '\n'-separated piece of the input. */
  lemma GoMasterShape(content: string, videoID: string)
    requires '\n' !in videoID
    ensures var out := GoMaster(content, videoID);
      && |out| >= 1 && out[|out| - 1] == '\n'
      && Split(out[..|out| - 1], '\n') == GoMasterLines(videoID, Split(content, '\n'))
  {
    var lines := Split(content, '\n');
    var mapped := GoMasterLines(videoID, lines);
    GoMasterLinesOneLine(videoID, lines);
    SplitJoin(mapped, '\n');
    var out := GoMaster(content, videoID);
    assert out[..|out| - 1] == Join(mapped, "\n");
  }

  /** Go turns empty input into a single newline. */
  lemma GoMasterEmpty(videoID: string)
    ensures GoMaster("", videoID) == "\n"
  {
    assert Split("", '\n') == [""];
    assert GoMasterLine(videoID, "") == "";
    assert GoMasterLines(videoID, [""]) == [""];
  }

  /** Go keeps the empty piece after a final '\n', so input ending in '\n'
      gives output ending in two. */
  lemma GoMasterDoubleNewline(content: string, videoID: string)
    requires |content| > 0 && content[|content| - 1] == '\n'
    ensures var out := GoMaster(content, videoID);
      |out| >= 2 && out[|out| - 2] == '\n' && out[|out| - 1] == '\n'
  {
    var lines := Split(content, '\n');
    LastPieceEmpty(content, '\n', lines);
    GoMasterEndsEmpty(videoID, lines);
  }

  lemma GoMasterEndsEmpty(videoID: string, lines: seq<string>)
    requires |lines| > 1 && lines[|lines| - 1] == []
    ensures var out := Join(GoMasterLines(videoID, lines), "\n") + "\n";
      |out| >= 2 && out[|out| - 2] == '\n' && out[|out| - 1] == '\n'
  {
    var mapped := GoMasterLines(videoID, lines);
    assert mapped[|mapped| - 1] == [] by {
      assert GoMasterLine(videoID, []) == [];
    }
    JoinEndsLikeLastPiece(mapped, '\n');
  }

  /** Python turns empty input into a single newline too. */
  lemma PyMasterEmpty(videoID: string)
    ensures PyMaster("", videoID) == "\n"
  {
    assert SplitLines("") == [];
  }

  /** Python drops a final line break, so when the last line is not empty
      the output ends in exactly one '\n', whether or not the input did. */
  lemma PyMasterSingleNewline(content: string, videoID: string)
    requires '\n' !in videoID
    requires var lines := SplitLines(content); |lines| > 0 && lines[|lines| - 1] != []
    ensures var out := PyMaster(content, videoID);
      |out| >= 2 && out[|out| - 2] != '\n' && out[|out| - 1] == '\n'
  {
    var lines := SplitLines(content);
    assert NoBoundary(lines[|lines| - 1]) by {
      assert lines[|lines| - 1] in lines;
    }
    PyMasterEndsLine(videoID, lines);
  }

  lemma PyMasterEndsLine(videoID: string, lines: seq<string>)
    requires '\n' !in videoID
    requires |lines| > 0 && lines[|lines| - 1] != [] && NoBoundary(lines[|lines| - 1])
    ensures var out := Join(PyMasterLines(videoID, lines), "\n") + "\n";
      |out| >= 2 && out[|out| - 2] != '\n' && out[|out| - 1] == '\n'
  {
    var mapped := PyMasterLines(videoID, lines);
    PyMasterLineEnd(videoID, lines[|lines| - 1]);
    assert mapped[|mapped| - 1] == PyMasterLine(videoID, lines[|lines| - 1]);
    EndsWithSingleSep(mapped, '\n');
  }

  /** A non-empty line without line breaks is rewritten to a non-empty line
      that does not end in '\n'. */
  lemma PyMasterLineEnd(videoID: string, line: string)
    requires '\n' !in videoID
    requires line != [] && NoBoundary(line)
    ensures var m := PyMasterLine(videoID, line); m != [] && m[|m| - 1] != '\n'
  {
    var m := PyMasterLine(videoID, line);
    assert m != [] by {
      if m != line {
        assert |m| >= |ApiPrefix|;
      }
    }
    var c := m[|m| - 1];
    assert c in m;
    PyMasterLineChars(videoID, line, c);
    if c in ApiPrefix {
      ApiPrefixChars(c);
    } else if c in line {
      NoBoundaryNoNewline(line);
    }
  }

  /** A line with no whitespace at either end and no line break. */
  predicate Unpadded(l: string)
  {
    NoBoundary(l) && (l == [] || (!PySpace(l[0]) && !PySpace(l[|l| - 1])))
  }

  predicate AllUnpadded(lines: seq<string>)
  {
    forall l :: l in lines ==> Unpadded(l)
  }

  lemma UnpaddedTrims(l: string)
    requires Unpadded(l)
    ensures GoTrimSpace(l) == l && PyStrip(l) == l
  {
    if l != [] {
      SpaceInclusions(l[0]);
      SpaceInclusions(l[|l| - 1]);
      assert TrimLeft(l, GoSpace) == l;
      assert TrimLeft(l, PyWhitespace) == l;
    }
  }

  /** On a line without surrounding whitespace the two rewrites agree. */
  lemma MasterLinesAgree(videoID: string, line: string)
    requires Unpadded(line)
    ensures GoMasterLine(videoID, line) == PyMasterLine(videoID, line)
  {
    UnpaddedTrims(line);
    SlashStripNoop(line);
  }

  /** Text made of unpadded lines with a non-empty last line and no final
      newline (the worker writes its master playlist this way) is rewritten
      identically by Go and Python. */
  lemma MastersAgree(lines: seq<string>, videoID: string)
    requires |lines| >= 1 && lines[|lines| - 1] != []
    requires AllUnpadded(lines)
    ensures GoMaster(Join(lines, "\n"), videoID) == PyMaster(Join(lines, "\n"), videoID)
  {
    GoMasterOfJoin(lines, videoID);
    PyMasterOfJoin(lines, videoID);
    MasterLinesListAgree(videoID, lines);
  }

  /** Go splits joined '\n'-free lines back into those lines. */
  lemma GoMasterOfJoin(lines: seq<string>, videoID: string)
    requires |lines| >= 1
    requires AllUnpadded(lines)
    ensures GoMaster(Join(lines, "\n"), videoID) == Join(GoMasterLines(videoID, lines), "\n") + "\n"
  {
    forall l | l in lines ensures '\n' !in l {
      NoBoundaryNoNewline(l);
    }
    SplitJoin(lines, '\n');
  }

  /** Python splits joined boundary-free lines back into those lines when
      the last one is not empty. */
  lemma PyMasterOfJoin(lines: seq<string>, videoID: string)
    requires |lines| >= 1 && lines[|lines| - 1] != []
    requires AllUnpadded(lines)
    ensures PyMaster(Join(lines, "\n"), videoID) == Join(PyMasterLines(videoID, lines), "\n") + "\n"
  {
    SplitLinesJoin(lines);
  }

  lemma MasterLinesListAgree(videoID: string, lines: seq<string>)
    requires AllUnpadded(lines)
    ensures GoMasterLines(videoID, lines) == PyMasterLines(videoID, lines)
  {
    var g := GoMasterLines(videoID, lines);
    var p := PyMasterLines(videoID, lines);
    forall i | 0 <= i < |lines| ensures g[i] == p[i] {
      assert lines[i] in lines;
      MasterLinesAgree(videoID, lines[i]);
    }
  }

  /** ... and they disagree as soon as such text gets a final newline: Go
      then ends in two newlines and Python in one. */
  lemma MastersDisagreeOnFinalNewline(content: string, videoID: string)
    requires '\n' !in videoID
    requires |content| > 0 && content[|content| - 1] == '\n'
    requires var lines := SplitLines(content); |lines| > 0 && lines[|lines| - 1] != []
    ensures GoMaster(content, videoID) != PyMaster(content, videoID)
  {
    GoMasterDoubleNewline(content, videoID);
    PyMasterSingleNewline(content, videoID);
  }
}
