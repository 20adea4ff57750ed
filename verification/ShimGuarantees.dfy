/** What putting the PATH block in and taking it out does to a file. */
module ShimGuarantees {
  import opened Options
  import opened ShellQuoting
  import opened ShimPath

  // ---- counting a marker ----

  /** A character that is not in the pattern separates. */
  lemma {:induction false} CountAcross(a: string, x: char, b: string, pat: string)
    requires pat != "" && x !in pat
    ensures Count(a + [x] + b, pat) == Count(a, pat) + Count(b, pat)
    decreases |a|
  {
    var s := a + [x] + b;
    if a == "" {
      assert s == [x] + b;
      assert !(pat <= s) by {
        assert pat[0] in pat;
      }
      assert s[1..] == b;
    } else if pat <= s {
      if |pat| > |a| {
        LongPrefixHasSeparator(a, x, b, pat);
      }
      assert pat <= a;
      assert s[|pat|..] == a[|pat|..] + [x] + b;
      CountAcross(a[|pat|..], x, b, pat);
    } else {
      assert s[1..] == a[1..] + [x] + b;
      assert !(pat <= a);
      CountAcross(a[1..], x, b, pat);
    }
  }

  lemma LongPrefixHasSeparator(a: string, x: char, b: string, pat: string)
    requires pat <= a + [x] + b && |pat| > |a|
    ensures x in pat
  {
    assert pat[|a|] == (a + [x] + b)[|a|];
  }

  lemma {:induction false} CountWithoutHead(s: string, pat: string)
    requires pat != "" && pat[0] !in s
    ensures Count(s, pat) == 0
  {
    if s != "" {
      assert s[0] in s;
      assert forall c | c in s[1..] :: c in s;
      CountWithoutHead(s[1..], pat);
    }
  }

  lemma {:induction false} NoneIffNotContained(s: string, pat: string)
    requires pat != ""
    ensures Count(s, pat) == 0 <==> !Contains(s, pat)
  {
    if s != "" && !(pat <= s) {
      NoneIffNotContained(s[1..], pat);
    }
  }

  /** A marker holds itself once and no other marker. */
  lemma CountOfMarker(m: string, pat: string)
    requires Marker(m) && Marker(pat) && (m == pat || m[2] != pat[2])
    ensures Count(m, pat) == if m == pat then 1 else 0
  {
    assert forall c | c in m[1..] :: c != '#' by {
      assert forall c | c in m[1..] :: Plain(c);
    }
    CountWithoutHead(m[1..], pat);
    if m == pat {
      assert m[|pat|..] == "";
    } else {
      assert !(pat <= m);
    }
  }

  lemma NotInMarker(c: char, m: string)
    requires Marker(m) && c != '#' && !Plain(c)
    ensures c !in m
  {
    assert m == [m[0]] + m[1..];
  }

  // ---- counting in the block ----

  lemma {:induction false} MarkerBeginsEscaped(s: string, pat: string)
    requires forall c | c in pat :: !Special(c)
    ensures pat <= Escape(s) ==> pat <= s
  {
    if pat != "" && pat <= Escape(s) {
      assert s != "";
      assert pat[0] == Escape(s)[0] && pat[0] in pat;
      var rest := pat[1..];
      assert forall c | c in rest :: c in pat;
      assert Escape(s) == [s[0]] + Escape(s[1..]);
      assert rest <= Escape(s[1..]);
      MarkerBeginsEscaped(s[1..], rest);
      assert pat == [s[0]] + rest && s == [s[0]] + s[1..];
    }
  }

  lemma CountQuoted(c: char, rest: string, pat: string)
    requires pat != "" && Special(c) && forall x | x in pat :: !Special(x)
    ensures Count(['\\', c] + rest, pat) == Count(rest, pat)
  {
    hide Count;
    CountEmpty(pat);
    assert ['\\', c] + rest == "" + ['\\'] + ("" + [c] + rest);
    CountAcross("", '\\', "" + [c] + rest, pat);
    CountAcross("", c, rest, pat);
  }

  lemma {:induction false} EscapeAddsNoMarker(s: string, pat: string)
    requires pat != "" && Count(s, pat) == 0 && forall c | c in pat :: !Special(c)
    ensures Count(Escape(s), pat) == 0
  {
    if s != "" {
      var t := Escape(s);
      assert s == [s[0]] + s[1..];
      assert !(pat <= s);
      EscapeAddsNoMarker(s[1..], pat);
      MarkerBeginsEscaped(s, pat);
      if Special(s[0]) {
        CountQuoted(s[0], Escape(s[1..]), pat);
      } else {
        assert t[1..] == Escape(s[1..]);
      }
    }
  }

  lemma MarkerIsUnquoted(m: string)
    requires Marker(m)
    ensures forall c | c in m :: !Special(c)
  {
    assert m == [m[0]] + m[1..];
    assert forall c | c in m[1..] :: Plain(c);
  }

  function ExportLine(dir: string): string {
    "export PATH=\"" + EscapeDoubleQuoted(dir) + ":$PATH\""
  }

  /** The block is a comment, one assignment and a comment; read by a shell, the assignment
      puts the directory in front of whatever PATH was. */
  lemma BlockPrependsDirectory(dir: string)
    ensures exists quoted ::
              && FormatPathBlock(dir) == "#" + " BEGIN busytok-cli-path" + " (auto-generated, do not edit)" + "\n"
                                         + "export PATH=\"" + quoted + "\"" + "\n"
                                         + "#" + " END busytok-cli-path" + "\n"
              && forall path :: ExpandDoubleQuoted(quoted, path) == Some(dir + ":" + path)
  {
    var quoted := EscapeDoubleQuoted(dir) + ":$PATH";
    hide EscapeDoubleQuoted, Escape, ExpandDoubleQuoted;
    ChainIsOnePass(dir);
    forall path
      ensures ExpandDoubleQuoted(quoted, path) == Some(dir + ":" + path)
    {
      PathExpands(path);
      EscapeExpands(dir, ":$PATH", path);
      assert dir + (":" + path) == dir + ":" + path;
    }
    BlockText(dir, EscapeDoubleQuoted(dir));
  }

  lemma BlockText(dir: string, escaped: string)
    requires escaped == EscapeDoubleQuoted(dir)
    ensures FormatPathBlock(dir) == "#" + " BEGIN busytok-cli-path" + " (auto-generated, do not edit)" + "\n"
                                    + "export PATH=\"" + (escaped + ":$PATH") + "\"" + "\n"
                                    + "#" + " END busytok-cli-path" + "\n"
  {
    hide EscapeDoubleQuoted;
    assert ":$PATH\"" == ":$PATH" + "\"";
    InPieces("#", " BEGIN busytok-cli-path", " (auto-generated, do not edit)", "\n", "export PATH=\"", escaped,
             ":$PATH", "\"", " END busytok-cli-path");
  }

  lemma InPieces(hash: string, begin: string, note: string, nl: string, assign: string, dir: string, path: string,
                 quote: string, end: string)
    ensures hash + (begin + note) + nl + assign + dir + (path + quote) + nl + (hash + end) + nl
            == hash + begin + note + nl + assign + (dir + path) + quote + nl + hash + end + nl
  {
  }

  lemma ExportHasNoMarker(dir: string, pat: string)
    requires Marker(pat) && Count(dir, pat) == 0
    ensures Count(ExportLine(dir), pat) == 0
  {
    var e := EscapeDoubleQuoted(dir);
    MarkerIsUnquoted(pat);
    ChainIsOnePass(dir);
    EscapeAddsNoMarker(dir, pat);
    NotInMarker('"', pat);
    NotInMarker(':', pat);
    assert ExportLine(dir) == "export PATH=" + ['"'] + (e + [':'] + "$PATH\"");
    hide EscapeDoubleQuoted, Escape, Count, Marker;
    CountAcross("export PATH=", '"', e + [':'] + "$PATH\"", pat);
    CountAcross(e, ':', "$PATH\"", pat);
    HeadOf(pat);
    CountWithoutHead("export PATH=", pat);
    CountWithoutHead("$PATH\"", pat);
  }

  lemma HeadOf(pat: string)
    requires Marker(pat)
    ensures pat != "" && pat[0] == '#' && '\n' !in pat
  {
    NotInMarker('\n', pat);
  }

  // ---- lines ----

  predicate OneLine(line: string) {
    '\n' !in line
  }

  lemma {:induction false} FirstNewlineAfter(line: string, rest: string)
    requires OneLine(line)
    ensures FirstNewline(line + "\n" + rest) == |line|
    ensures FirstNewline(line) == |line|
  {
    if line == "" {
      assert (line + "\n" + rest)[0] == '\n';
    } else {
      assert (line + "\n" + rest)[1..] == line[1..] + "\n" + rest;
      assert line[0] in line && forall c | c in line[1..] :: c in line;
      FirstNewlineAfter(line[1..], rest);
    }
  }

  lemma LinesFirst(line: string, rest: string)
    requires OneLine(line)
    ensures Lines(line + "\n" + rest) == [DropCr(line)] + Lines(rest)
  {
    var s := line + "\n" + rest;
    FirstNewlineAfter(line, rest);
    assert s[..|line|] == line && s[|line| + 1..] == rest;
  }

  lemma LinesLast(line: string)
    requires OneLine(line) && line != ""
    ensures Lines(line) == [line]
  {
    FirstNewlineAfter(line, "");
  }

  /** The text in front of the last line. */
  predicate WholeLines(s: string) {
    s == "" || s[|s| - 1] == '\n'
  }

  lemma {:induction false} LinesConcat(a: string, b: string)
    requires WholeLines(a)
    ensures Lines(a + b) == Lines(a) + Lines(b)
    decreases |a|
  {
    hide DropCr, FirstNewline, Lines;
    if a == "" {
      NoLines();
      assert a + b == b;
    } else {
      var line, rest := CutFirst(a);
      assert a + b == line + "\n" + (rest + b);
      LinesFirst(line, rest);
      LinesFirst(line, rest + b);
      LinesConcat(rest, b);
    }
  }

  lemma CutFirst(a: string) returns (line: string, rest: string)
    requires a != "" && WholeLines(a)
    ensures a == line + "\n" + rest && OneLine(line) && WholeLines(rest) && |rest| < |a|
  {
    var i := FirstNewline(a);
    FirstNewlineOf(a);
    line, rest := a[..i], a[i + 1..];
    assert rest != "" ==> rest[|rest| - 1] == a[|a| - 1];
  }

  lemma {:induction false} FirstNewlineOf(a: string)
    requires '\n' in a
    ensures FirstNewline(a) < |a|
  {
    if a[0] != '\n' {
      assert a == [a[0]] + a[1..];
      FirstNewlineOf(a[1..]);
    }
  }

  /** The text cut before its last line. */
  lemma {:induction false} SplitLast(s: string) returns (front: string, line: string)
    requires s != "" && s[|s| - 1] != '\n'
    ensures s == front + line && WholeLines(front) && OneLine(line) && line != ""
  {
    if |s| == 1 {
      front, line := "", s;
    } else if s[|s| - 2] == '\n' {
      front, line := s[..|s| - 1], s[|s| - 1..];
    } else {
      var f, l := SplitLast(s[..|s| - 1]);
      front, line := f, l + [s[|s| - 1]];
    }
  }

  lemma {:induction false} CountOfLines(s: string, pat: string)
    requires Marker(pat)
    ensures Count(s, pat) == 0 ==> forall l | l in Lines(s) :: l != pat
    decreases |s|
  {
    HeadOf(pat);
    if s != "" && Count(s, pat) == 0 {
      var i := FirstNewline(s);
      if i == |s| {
        SelfCounts(pat);
      } else {
        var line, rest := s[..i], s[i + 1..];
        assert s == line + ['\n'] + rest;
        CountAcross(line, '\n', rest, pat);
        CountOfLines(rest, pat);
        CountWithCr(line, pat);
      }
    }
  }

  lemma CountWithCr(line: string, pat: string)
    requires Marker(pat)
    ensures DropCr(line) == pat ==> Count(line, pat) >= 1
  {
    SelfCounts(pat);
    if DropCr(line) != line {
      assert line == DropCr(line) + ['\r'] + "";
      NotInMarker('\r', pat);
      CountAcross(DropCr(line), '\r', "", pat);
    }
  }

  lemma SelfCounts(pat: string)
    requires pat != ""
    ensures Count(pat, pat) >= 1
  {
  }

  lemma {:induction false} NothingInside(lines: seq<string>)
    requires forall l | l in lines :: l != PathBlockBegin() && l != PathBlockEnd()
    ensures Outside(lines, false) == lines && Outside(lines, true) == []
  {
    hide PathBlockBegin, PathBlockEnd;
    if lines != [] {
      assert lines[0] in lines;
      assert forall l | l in lines[1..] :: l in lines;
      NothingInside(lines[1..]);
    }
  }

  lemma {:induction false} OutsideConcat(a: seq<string>, b: seq<string>)
    requires forall l | l in a :: l != PathBlockBegin() && l != PathBlockEnd()
    ensures Outside(a + b, false) == a + Outside(b, false) && Outside(a + b, true) == Outside(b, true)
  {
    hide PathBlockBegin, PathBlockEnd;
    if a == [] {
      assert a + b == b;
    } else {
      assert (a + b)[1..] == a[1..] + b;
      assert a[0] in a;
      assert forall l | l in a[1..] :: l in a;
      OutsideConcat(a[1..], b);
    }
  }

  // ---- trailing whitespace ----

  predicate Blank(s: string) {
    forall c | c in s :: IsWhitespace(c)
  }

  lemma {:induction false} TrimBlank(s: string, blank: string)
    requires Blank(blank)
    ensures TrimEnd(s + blank) == TrimEnd(s)
    decreases |blank|
  {
    if blank == "" {
      assert s + blank == s;
    } else {
      var n := |blank| - 1;
      assert (s + blank)[..|s + blank| - 1] == s + blank[..n];
      assert blank[n] in blank && forall c | c in blank[..n] :: c in blank;
      TrimBlank(s, blank[..n]);
    }
  }

  lemma {:induction false} JoinConcat(a: seq<string>, b: seq<string>)
    ensures Join(a + b) == Join(a) + Join(b)
  {
    if a == [] {
      assert a + b == b;
    } else {
      assert (a + b)[1..] == a[1..] + b;
      JoinConcat(a[1..], b);
    }
  }

  // ---- removing undoes adding ----

  predicate MarkerFree(s: string) {
    Count(s, PathBlockBegin()) == 0 && Count(s, PathBlockEnd()) == 0
  }

  lemma TerminatedIsMarkerFree(c: string)
    requires MarkerFree(c)
    ensures MarkerFree(Terminated(c))
  {
    hide PathBlockBegin, PathBlockEnd;
    MarkersAre();
    if Terminated(c) != c {
      assert Terminated(c) == c + ['\n'] + "";
      HeadOf(PathBlockBegin());
      HeadOf(PathBlockEnd());
      CountAcross(c, '\n', "", PathBlockBegin());
      CountAcross(c, '\n', "", PathBlockEnd());
    }
  }

  /** The text of `front`, then the block. */
  lemma CountsWithBlock(front: string, dir: string, pat: string)
    requires pat == PathBlockBegin() || pat == PathBlockEnd()
    requires WholeLines(front) && Count(front, pat) == 0 && Count(dir, pat) == 0
    ensures pat != "" && Count(front + FormatPathBlock(dir), pat) == 1
  {
    hide PathBlockBegin, PathBlockEnd, ExportLine, Count;
    MarkersAre();
    HeadOf(pat);
    var b, e, x := PathBlockBegin(), PathBlockEnd(), ExportLine(dir);
    BlockByLines(front, dir);
    CountOfMarker(b, pat);
    CountOfMarker(e, pat);
    ExportHasNoMarker(dir, pat);
    CountEmpty(pat);
    var tail := e + ['\n'] + "";
    CountAcross(e, '\n', "", pat);
    CountAcross(x, '\n', tail, pat);
    CountAcross(b, '\n', x + ['\n'] + tail, pat);
    if front == "" {
      assert front + (b + ['\n'] + (x + ['\n'] + tail)) == b + ['\n'] + (x + ['\n'] + tail);
    } else {
      var f := front[..|front| - 1];
      assert front == f + ['\n'] + "";
      CountAcross(f, '\n', "", pat);
      CountAcross(f, '\n', b + ['\n'] + (x + ['\n'] + tail), pat);
      assert front + (b + ['\n'] + (x + ['\n'] + tail)) == f + ['\n'] + (b + ['\n'] + (x + ['\n'] + tail));
    }
  }

  lemma CountEmpty(pat: string)
    requires pat != ""
    ensures Count("", pat) == 0
  {
  }

  lemma BlockByLines(front: string, dir: string)
    ensures var b, e, x := PathBlockBegin(), PathBlockEnd(), ExportLine(dir);
            front + FormatPathBlock(dir) == front + (b + ['\n'] + (x + ['\n'] + (e + ['\n'] + "")))
  {
    hide PathBlockBegin, PathBlockEnd, EscapeDoubleQuoted;
  }

  lemma NoCr(m: string)
    requires Marker(m)
    ensures DropCr(m) == m && OneLine(m)
  {
    HeadOf(m);
    assert m[|m| - 1] == m[1..][|m| - 2] && m[1..][|m| - 2] in m[1..];
  }

  /** The lines of the block, between the markers. */
  function InnerLines(dir: string): seq<string> {
    Lines(ExportLine(dir) + "\n")
  }

  lemma InnerHasNoMarker(dir: string, pat: string)
    requires Marker(pat) && Count(dir, pat) == 0
    ensures forall l | l in InnerLines(dir) :: l != pat
  {
    hide ExportLine, Lines, Marker, Count;
    HeadOf(pat);
    var x := ExportLine(dir);
    ExportHasNoMarker(dir, pat);
    assert x + "\n" == x + ['\n'] + "";
    CountAcross(x, '\n', "", pat);
    CountEmpty(pat);
    CountOfLines(x + "\n", pat);
  }

  lemma LinesOfBlock(front: string, dir: string)
    requires WholeLines(front)
    ensures Lines(front + FormatPathBlock(dir))
            == Lines(front) + ([PathBlockBegin()] + InnerLines(dir) + [PathBlockEnd()])
  {
    MarkersAre();
    hide PathBlockBegin, PathBlockEnd, ExportLine, Lines, DropCr, Marker;
    var b, e, x := PathBlockBegin(), PathBlockEnd(), ExportLine(dir);
    NoCr(b);
    NoCr(e);
    BlockByLines(front, dir);
    var tail := e + "\n" + "";
    assert front + FormatPathBlock(dir) == front + (b + "\n" + ((x + "\n") + tail));
    LinesConcat(front, b + "\n" + ((x + "\n") + tail));
    LinesFirst(b, (x + "\n") + tail);
    LinesConcat(x + "\n", tail);
    LinesFirst(e, "");
    NoLines();
    assert [b] + (InnerLines(dir) + ([e] + [])) == [b] + InnerLines(dir) + [e];
  }

  lemma NoLines()
    ensures Lines("") == []
  {
  }

  lemma OutsideBlock(inner: seq<string>)
    requires forall l | l in inner :: l != PathBlockBegin() && l != PathBlockEnd()
    ensures Outside([PathBlockBegin()] + inner + [PathBlockEnd()], false) == []
  {
    MarkersAre();
    hide PathBlockBegin, PathBlockEnd;
    var lines := [PathBlockBegin()] + inner + [PathBlockEnd()];
    assert lines[1..] == inner + [PathBlockEnd()];
    OutsideConcat(inner, [PathBlockEnd()]);
    assert [PathBlockEnd()][1..] == [];
  }

  /** What the sweep keeps of a file with the block at its end. */
  lemma KeptWithBlock(front: string, dir: string)
    requires WholeLines(front) && MarkerFree(front) && MarkerFree(dir)
    ensures Outside(Lines(front + FormatPathBlock(dir)), false) == Lines(front)
  {
    MarkersAre();
    hide PathBlockBegin, PathBlockEnd, Lines, Count, Marker, InnerLines;
    CountOfLines(front, PathBlockBegin());
    CountOfLines(front, PathBlockEnd());
    InnerHasNoMarker(dir, PathBlockBegin());
    InnerHasNoMarker(dir, PathBlockEnd());
    LinesOfBlock(front, dir);
    OutsideConcat(Lines(front), [PathBlockBegin()] + InnerLines(dir) + [PathBlockEnd()]);
    OutsideBlock(InnerLines(dir));
    assert Lines(front) + [] == Lines(front);
  }

  lemma TrimCr(text: string, line: string)
    ensures TrimEnd(text + (line + "\n")) == TrimEnd(text + (DropCr(line) + "\n"))
  {
    var head := text + DropCr(line);
    var blank := line[|DropCr(line)|..] + "\n";
    assert text + (line + "\n") == head + blank;
    assert text + (DropCr(line) + "\n") == head + "\n";
    assert Blank(blank) && Blank("\n");
    hide TrimEnd;
    TrimBlank(head, blank);
    TrimBlank(head, "\n");
  }

  /** A newline more or less at the end is trimmed away again. */
  lemma TerminatedTrims(c: string)
    ensures TrimEnd(Join(Lines(Terminated(c)))) == TrimEnd(Join(Lines(c)))
  {
    hide Lines, TrimEnd, Join, DropCr, WholeLines;
    if Terminated(c) != c {
      var front, line := SplitLast(c);
      assert c + "\n" == front + (line + "\n" + "");
      LinesConcat(front, line);
      LinesConcat(front, line + "\n" + "");
      LinesFirst(line, "");
      LinesLast(line);
      NoLines();
      assert [DropCr(line)] + [] == [DropCr(line)];
      JoinConcat(Lines(front), [line]);
      JoinConcat(Lines(front), [DropCr(line)]);
      JoinOne(line);
      JoinOne(DropCr(line));
      TrimCr(Join(Lines(front)), line);
    }
  }

  lemma JoinOne(line: string)
    ensures Join([line]) == line + "\n"
  {
    assert [line][1..] == [];
    assert line + "\n" + "" == line + "\n";
  }

  /** Removing undoes adding. For every text and every directory without markers, the text
      with the block added and taken out again is the text as the removal leaves it anyway:
      its lines, with whitespace at the end trimmed. */
  lemma RemovingUndoesAdding(contents: string, dir: string)
    requires MarkerFree(contents) && MarkerFree(dir)
    ensures var added := Terminated(contents) + FormatPathBlock(dir);
            && !Contains(contents, PathBlockBegin()) && Contains(added, PathBlockBegin())
            && RemovedText(added) == Strip(added) == Strip(contents)
            && Strip(contents) == TrimEnd(Join(Lines(contents))) + "\n"
  {
    MarkersAre();
    hide PathBlockBegin, PathBlockEnd, Lines, Join, TrimEnd, Count, FormatPathBlock, Contains;
    var front := Terminated(contents);
    HeadOf(PathBlockBegin());
    HeadOf(PathBlockEnd());
    NoneIffNotContained(contents, PathBlockBegin());
    NoneIffNotContained(front + FormatPathBlock(dir), PathBlockBegin());
    TerminatedIsMarkerFree(contents);
    CountsWithBlock(front, dir, PathBlockBegin());
    CountsWithBlock(front, dir, PathBlockEnd());
    KeptWithBlock(front, dir);
    CountOfLines(contents, PathBlockBegin());
    CountOfLines(contents, PathBlockEnd());
    NothingInside(Lines(contents));
    TerminatedTrims(contents);
  }

  // ---- when the text comes back unchanged ----

  lemma {:induction false} CrLfIn(line: string, rest: string)
    requires OneLine(line)
    ensures Contains(line + "\n" + rest, "\r\n")
            <==> (line != "" && line[|line| - 1] == '\r') || Contains(rest, "\r\n")
  {
    var s := line + "\n" + rest;
    assert "\r\n" <= s <==> |s| >= 2 && s[0] == '\r' && s[1] == '\n';
    if line == "" {
      assert s[0] == '\n' && s[1..] == rest;
    } else {
      assert s[1..] == line[1..] + "\n" + rest;
      assert line[0] in line && forall c | c in line[1..] :: c in line;
      CrLfIn(line[1..], rest);
      if |line| == 1 {
        assert s[..2] == [line[0]] + "\n";
      } else {
        assert s[1] == line[1] && line[1] in line;
      }
    }
  }

  /** Joining the lines of a text gives it back, shorter by its carriage returns. */
  lemma {:induction false} JoinLines(c: string)
    requires WholeLines(c)
    ensures |Join(Lines(c))| <= |c|
    ensures if Contains(c, "\r\n") then |Join(Lines(c))| < |c| else Join(Lines(c)) == c
    decreases |c|
  {
    if c == "" {
    } else {
      var line, rest := CutFirst(c);
      hide Contains, Lines, Join;
      CrLfIn(line, rest);
      LinesFirst(line, rest);
      JoinLines(rest);
      JoinFirst(DropCr(line), Lines(rest));
    }
  }

  lemma {:induction false} TrimEndIs(s: string)
    ensures TrimEnd(s) <= s
    ensures TrimEnd(s) != "" ==> !IsWhitespace(TrimEnd(s)[|TrimEnd(s)| - 1])
    ensures TrimEnd(TrimEnd(s)) == TrimEnd(s)
  {
    hide IsWhitespace;
    if s != "" && IsWhitespace(s[|s| - 1]) {
      TrimEndIs(s[..|s| - 1]);
    }
  }

  /** Whitespace at the end is exactly one newline, and no line ends with a carriage return. */
  predicate Normal(c: string) {
    c == TrimEnd(c) + "\n" && !Contains(c, "\r\n")
  }

  lemma NormalIffFixed(c: string)
    ensures TrimEnd(Join(Lines(c))) + "\n" == c <==> Normal(c)
  {
    hide Contains, Lines, Join;
    var j := Join(Lines(c));
    var t := TrimEnd(j);
    TrimEndIs(j);
    TrimEndIs(c);
    if t + "\n" == c {
      assert c[|c| - 1] == '\n';
      JoinLines(c);
      NewlineTrims(t);
      JoinEnds(Lines(c));
      SomeLine(c);
      assert j[|j| - 1] == '\n' && IsWhitespace('\n');
    }
    if Normal(c) {
      assert c[|c| - 1] == '\n';
      JoinLines(c);
    }
  }

  lemma SomeLine(c: string)
    requires c != ""
    ensures Lines(c) != []
  {
  }

  lemma NewlineTrims(t: string)
    ensures TrimEnd(t + "\n") == TrimEnd(t)
  {
    assert Blank("\n");
    TrimBlank(t, "\n");
  }

  lemma {:induction false} JoinEnds(lines: seq<string>)
    ensures lines != [] ==> Join(lines) != "" && Join(lines)[|Join(lines)| - 1] == '\n'
    ensures lines == [] ==> Join(lines) == ""
  {
    if lines != [] {
      JoinEnds(lines[1..]);
    }
  }

  /** An install followed by an uninstall restores a marker-free file exactly if the file
      ends with one newline, has no other whitespace before that, and no line of it ends
      with a carriage return. */
  lemma RoundTripIff(contents: string, dir: string)
    requires MarkerFree(contents) && MarkerFree(dir)
    ensures RemovedText(Terminated(contents) + FormatPathBlock(dir)) == contents <==> Normal(contents)
  {
    hide PathBlockBegin, PathBlockEnd, Strip, TrimEnd, Lines, Join, Normal, MarkerFree, Contains;
    RemovingUndoesAdding(contents, dir);
    NormalIffFixed(contents);
  }

  // ---- texts with blocks of whole lines ----

  /** Lines, then a block. */
  datatype Section = Section(before: seq<string>, inside: seq<string>)

  function LinesOf(sections: seq<Section>, tail: seq<string>): seq<string> {
    if sections == [] then tail
    else
      sections[0].before + ([PathBlockBegin()] + sections[0].inside + [PathBlockEnd()]) + LinesOf(sections[1..], tail)
  }

  function KeptOf(sections: seq<Section>, tail: seq<string>): seq<string> {
    if sections == [] then tail else sections[0].before + KeptOf(sections[1..], tail)
  }

  predicate CleanLine(l: string) {
    OneLine(l) && DropCr(l) == l && MarkerFree(l)
  }

  predicate Clean(lines: seq<string>) {
    forall l | l in lines :: CleanLine(l)
  }

  predicate CleanSections(sections: seq<Section>, tail: seq<string>) {
    Clean(tail) && forall s | s in sections :: Clean(s.before) && Clean(s.inside)
  }

  lemma {:induction false} LinesOfJoin(lines: seq<string>)
    requires forall l | l in lines :: OneLine(l) && DropCr(l) == l
    ensures Lines(Join(lines)) == lines
  {
    hide DropCr, Lines, FirstNewline;
    if lines == [] {
      NoLines();
    } else {
      assert lines[0] in lines && forall l | l in lines[1..] :: l in lines;
      LinesOfJoin(lines[1..]);
      LinesFirst(lines[0], Join(lines[1..]));
    }
  }

  lemma {:induction false} CountJoin(a: seq<string>, rest: string, pat: string)
    requires Marker(pat)
    ensures pat != "" && Count(Join(a) + rest, pat) == Count(Join(a), pat) + Count(rest, pat)
  {
    HeadOf(pat);
    hide Marker, Count;
    CountEmpty(pat);
    if a == [] {
      assert Join(a) + rest == rest;
    } else {
      var t := Join(a[1..]);
      CountJoin(a[1..], rest, pat);
      assert Join(a) + rest == a[0] + ['\n'] + (t + rest) && Join(a) == a[0] + ['\n'] + t;
      CountAcross(a[0], '\n', t + rest, pat);
      CountAcross(a[0], '\n', t, pat);
    }
  }

  lemma {:induction false} CountClean(lines: seq<string>, pat: string)
    requires Clean(lines) && (pat == PathBlockBegin() || pat == PathBlockEnd())
    ensures pat != "" && Count(Join(lines), pat) == 0
  {
    MarkersAre();
    hide PathBlockBegin, PathBlockEnd, Marker, Count;
    HeadOf(pat);
    CountEmpty(pat);
    if lines != [] {
      assert lines[0] in lines && forall l | l in lines[1..] :: l in lines;
      CountClean(lines[1..], pat);
      assert Join(lines) == lines[0] + ['\n'] + Join(lines[1..]);
      CountAcross(lines[0], '\n', Join(lines[1..]), pat);
    }
  }

  lemma CountOneMarker(m: string, pat: string)
    requires (m == PathBlockBegin() || m == PathBlockEnd()) && (pat == PathBlockBegin() || pat == PathBlockEnd())
    ensures pat != "" && Count(Join([m]), pat) == if m == pat then 1 else 0
  {
    MarkersAre();
    hide PathBlockBegin, PathBlockEnd, Marker, Count;
    HeadOf(pat);
    CountEmpty(pat);
    CountOfMarker(m, pat);
    JoinOne(m);
    assert m + "\n" == m + ['\n'] + "";
    CountAcross(m, '\n', "", pat);
  }

  /** As many of each marker as there are blocks. */
  lemma {:induction false} CountSections(sections: seq<Section>, tail: seq<string>, pat: string)
    requires CleanSections(sections, tail) && (pat == PathBlockBegin() || pat == PathBlockEnd())
    ensures pat != "" && Count(Join(LinesOf(sections, tail)), pat) == |sections|
  {
    MarkersAre();
    hide PathBlockBegin, PathBlockEnd, Marker, Count, Clean, Join;
    if sections == [] {
      CountClean(tail, pat);
    } else {
      var s, rest := sections[0], LinesOf(sections[1..], tail);
      assert s in sections && forall t | t in sections[1..] :: t in sections;
      CountSections(sections[1..], tail, pat);
      var b, e := [PathBlockBegin()], [PathBlockEnd()];
      assert LinesOf(sections, tail) == s.before + (b + (s.inside + (e + rest)));
      JoinConcat(s.before, b + (s.inside + (e + rest)));
      JoinConcat(b, s.inside + (e + rest));
      JoinConcat(s.inside, e + rest);
      JoinConcat(e, rest);
      CountJoin(s.before, Join(b + (s.inside + (e + rest))), pat);
      CountJoin(b, Join(s.inside + (e + rest)), pat);
      CountJoin(s.inside, Join(e + rest), pat);
      CountJoin(e, Join(rest), pat);
      CountClean(s.before, pat);
      CountClean(s.inside, pat);
      CountOneMarker(PathBlockBegin(), pat);
      CountOneMarker(PathBlockEnd(), pat);
      OneOfEach();
    }
  }

  lemma OneOfEach()
    ensures PathBlockBegin() != PathBlockEnd()
  {
    MarkersAre();
    hide PathBlockBegin, PathBlockEnd;
  }

  lemma CleanIsNoMarker(lines: seq<string>)
    requires Clean(lines)
    ensures forall l | l in lines :: l != PathBlockBegin() && l != PathBlockEnd()
  {
    MarkersAre();
    hide PathBlockBegin, PathBlockEnd;
    forall l | l in lines
      ensures l != PathBlockBegin() && l != PathBlockEnd()
    {
      assert CleanLine(l);
      SelfCounts(PathBlockBegin());
      SelfCounts(PathBlockEnd());
    }
  }

  lemma {:induction false} OutsideSections(sections: seq<Section>, tail: seq<string>)
    requires CleanSections(sections, tail)
    ensures Outside(LinesOf(sections, tail), false) == KeptOf(sections, tail)
  {
    OneOfEach();
    hide PathBlockBegin, PathBlockEnd, Clean;
    if sections == [] {
      CleanIsNoMarker(tail);
      NothingInside(tail);
    } else {
      var s, rest := sections[0], LinesOf(sections[1..], tail);
      assert s in sections && forall t | t in sections[1..] :: t in sections;
      OutsideSections(sections[1..], tail);
      CleanIsNoMarker(s.before);
      CleanIsNoMarker(s.inside);
      var b, e := PathBlockBegin(), PathBlockEnd();
      assert LinesOf(sections, tail) == s.before + ([b] + (s.inside + ([e] + rest)));
      OutsideConcat(s.before, [b] + (s.inside + ([e] + rest)));
      assert ([b] + (s.inside + ([e] + rest)))[1..] == s.inside + ([e] + rest);
      OutsideConcat(s.inside, [e] + rest);
      assert ([e] + rest)[1..] == rest;
    }
  }

  lemma {:induction false} SectionLines(sections: seq<Section>, tail: seq<string>)
    requires CleanSections(sections, tail)
    ensures forall l | l in LinesOf(sections, tail) :: OneLine(l) && DropCr(l) == l
    ensures Clean(KeptOf(sections, tail))
  {
    MarkersAre();
    NoCr(PathBlockBegin());
    NoCr(PathBlockEnd());
    hide PathBlockBegin, PathBlockEnd, DropCr, MarkerFree, OneLine;
    if sections != [] {
      assert sections[0] in sections && forall t | t in sections[1..] :: t in sections;
      SectionLines(sections[1..], tail);
    }
  }

  /** In a text whose markers are whole lines, BEGIN and END in turn, removal keeps exactly
      the lines outside the blocks, up to whitespace at the end. */
  lemma StripKeepsOutside(sections: seq<Section>, tail: seq<string>)
    requires CleanSections(sections, tail)
    ensures Strip(Join(LinesOf(sections, tail))) == TrimEnd(Join(KeptOf(sections, tail))) + "\n"
  {
    hide PathBlockBegin, PathBlockEnd, Join, TrimEnd, LinesOf, KeptOf, Lines, Outside, Count, CleanSections;
    CountSections(sections, tail, PathBlockBegin());
    CountSections(sections, tail, PathBlockEnd());
    SectionLines(sections, tail);
    LinesOfJoin(LinesOf(sections, tail));
    OutsideSections(sections, tail);
  }

  lemma {:induction false} PrefixContains(p: string, x: string, pat: string)
    requires p <= x && Contains(p, pat)
    ensures Contains(x, pat)
  {
    if !(pat <= p) {
      PrefixContains(p[1..], x[1..], pat);
    }
  }

  lemma {:induction false} NoCrLfAtEnd(p: string)
    requires !Contains(p, "\r\n") && (p != "" ==> p[|p| - 1] != '\r')
    ensures !Contains(p + "\n", "\r\n")
  {
    if p == "" {
      assert (p + "\n")[1..] == "";
    } else {
      assert (p + "\n")[1..] == p[1..] + "\n";
      assert !("\r\n" <= p);
      var q := p + "\n";
      assert "\r\n" <= q <==> q[0] == '\r' && q[1] == '\n';
      NoCrLfAtEnd(p[1..]);
    }
  }

  lemma {:induction false} CleanJoinHasNoCrLf(lines: seq<string>)
    requires Clean(lines)
    ensures !Contains(Join(lines), "\r\n")
  {
    hide MarkerFree;
    if lines != [] {
      assert lines[0] in lines && forall l | l in lines[1..] :: l in lines;
      CleanJoinHasNoCrLf(lines[1..]);
      hide Contains;
      assert CleanLine(lines[0]);
      CrLfIn(lines[0], Join(lines[1..]));
    }
  }

  lemma TrimmedHasNoMarker(lines: seq<string>, pat: string)
    requires Clean(lines) && (pat == PathBlockBegin() || pat == PathBlockEnd())
    ensures pat != "" && Count(TrimEnd(Join(lines)) + "\n", pat) == 0
  {
    MarkersAre();
    hide PathBlockBegin, PathBlockEnd, Count, Contains, TrimEnd, Join, Clean, Marker;
    HeadOf(pat);
    var x := Join(lines);
    var t := TrimEnd(x);
    CountClean(lines, pat);
    TrimEndIs(x);
    NoneIffNotContained(x, pat);
    NoneIffNotContained(t, pat);
    if Contains(t, pat) {
      PrefixContains(t, x, pat);
    }
    assert t + "\n" == t + ['\n'] + "";
    CountAcross(t, '\n', "", pat);
    CountEmpty(pat);
  }

  lemma TrimmedIsNormal(lines: seq<string>)
    requires Clean(lines)
    ensures Normal(TrimEnd(Join(lines)) + "\n")
  {
    hide Contains, TrimEnd, Join, Clean;
    var x := Join(lines);
    var t := TrimEnd(x);
    TrimEndIs(x);
    NewlineTrims(t);
    CleanJoinHasNoCrLf(lines);
    if Contains(t, "\r\n") {
      PrefixContains(t, x, "\r\n");
    }
    assert IsWhitespace('\r');
    NoCrLfAtEnd(t);
  }

  lemma StripOfMarkerFree(c: string)
    requires MarkerFree(c)
    ensures Strip(c) == TrimEnd(Join(Lines(c))) + "\n"
  {
    MarkersAre();
    hide PathBlockBegin, PathBlockEnd, Lines, Join, TrimEnd, Count;
    CountOfLines(c, PathBlockBegin());
    CountOfLines(c, PathBlockEnd());
    NothingInside(Lines(c));
  }

  /** Removing again changes nothing more. */
  lemma StripIsIdempotent(sections: seq<Section>, tail: seq<string>)
    requires CleanSections(sections, tail)
    ensures Strip(Strip(Join(LinesOf(sections, tail)))) == Strip(Join(LinesOf(sections, tail)))
  {
    hide PathBlockBegin, PathBlockEnd, Join, TrimEnd, LinesOf, KeptOf, Lines, Strip, Normal, Clean, CleanSections;
    var kept := KeptOf(sections, tail);
    var r := TrimEnd(Join(kept)) + "\n";
    StripKeepsOutside(sections, tail);
    SectionLines(sections, tail);
    TrimmedHasNoMarker(kept, PathBlockBegin());
    TrimmedHasNoMarker(kept, PathBlockEnd());
    StripOfMarkerFree(r);
    TrimmedIsNormal(kept);
    NormalIffFixed(r);
  }

  // ---- which lines the sweep drops, and when that loses text ----

  predicate IsMarkerLine(l: string) {
    l == PathBlockBegin() || l == PathBlockEnd()
  }

  /** Line `j` is a BEGIN, with no END between it and line `i`. */
  ghost predicate Opens(lines: seq<string>, j: int, i: int) {
    && 0 <= j < i <= |lines| && lines[j] == PathBlockBegin()
    && forall k | j < k < i :: lines[k] != PathBlockEnd()
  }

  ghost predicate Open(lines: seq<string>, i: int) {
    exists j :: Opens(lines, j, i)
  }

  /** The lines before `n` that are no markers and not in an open block. */
  ghost function Unopened(lines: seq<string>, n: nat): seq<string>
    requires n <= |lines|
  {
    if n == 0 then []
    else Unopened(lines, n - 1) + if IsMarkerLine(lines[n - 1]) || Open(lines, n - 1) then [] else [lines[n - 1]]
  }

  lemma OpenStep(lines: seq<string>, n: nat)
    requires n < |lines|
    ensures Open(lines, n + 1)
            <==> lines[n] == PathBlockBegin() || (lines[n] != PathBlockEnd() && Open(lines, n))
  {
    OneOfEach();
    hide PathBlockBegin, PathBlockEnd;
    if lines[n] == PathBlockBegin() {
      assert Opens(lines, n, n + 1);
    }
    if lines[n] != PathBlockEnd() && Open(lines, n) {
      var j :| Opens(lines, j, n);
      assert Opens(lines, j, n + 1);
    }
    if Open(lines, n + 1) && lines[n] != PathBlockBegin() {
      var j :| Opens(lines, j, n + 1);
      assert Opens(lines, j, n);
    }
  }

  lemma {:induction false} SweepFrom(lines: seq<string>, n: nat)
    requires n <= |lines|
    ensures Unopened(lines, n) + Outside(lines[n..], Open(lines, n)) == Outside(lines, false)
    decreases n
  {
    OneOfEach();
    hide PathBlockBegin, PathBlockEnd, Open;
    if n == 0 {
      NotOpenAtStart(lines);
      assert lines[0..] == lines;
    } else {
      SweepFrom(lines, n - 1);
      OpenStep(lines, n - 1);
      assert lines[n - 1..][1..] == lines[n..];
    }
  }

  lemma NotOpenAtStart(lines: seq<string>)
    ensures !Open(lines, 0)
  {
  }

  /** For every text with as many of one marker as of the other, the lines kept are exactly
      those that are no marker lines and have no BEGIN line before them without an END line
      in between. */
  lemma StripKeepsUnopened(contents: string)
    requires Count(contents, PathBlockBegin()) == Count(contents, PathBlockEnd())
    ensures var lines := Lines(contents); Strip(contents) == TrimEnd(Join(Unopened(lines, |lines|))) + "\n"
  {
    hide PathBlockBegin, PathBlockEnd, Join, TrimEnd, Lines, Open, Unopened, Outside, Count;
    var lines := Lines(contents);
    SweepFrom(lines, |lines|);
    assert lines[|lines|..] == [];
    NothingLeft(Open(lines, |lines|));
    assert Unopened(lines, |lines|) + [] == Unopened(lines, |lines|);
  }

  lemma NothingLeft(inBlock: bool)
    ensures Outside([], inBlock) == []
  {
  }

  lemma {:induction false} JoinedLinesLength(c: string)
    ensures |Join(Lines(c))| <= |c| + 1
    decreases |c|
  {
    if c != "" {
      var i := FirstNewline(c);
      if i == |c| {
        JoinOne(c);
      } else {
        JoinedLinesLength(c[i + 1..]);
        JoinFirst(DropCr(c[..i]), Lines(c[i + 1..]));
      }
    }
  }

  lemma {:induction false} OutsideLength(lines: seq<string>, inBlock: bool)
    ensures |Join(Outside(lines, inBlock))| <= |Join(lines)|
    ensures PathBlockBegin() in lines ==>
              |Join(Outside(lines, inBlock))| + |PathBlockBegin()| + 1 <= |Join(lines)|
  {
    hide PathBlockBegin, PathBlockEnd;
    if lines != [] {
      var rest := lines[1..];
      assert lines == [lines[0]] + rest;
      OutsideLength(rest, true);
      OutsideLength(rest, false);
      JoinFirst(lines[0], Outside(rest, inBlock));
      assert PathBlockBegin() in lines ==> lines[0] == PathBlockBegin() || PathBlockBegin() in rest;
    }
  }

  /** What the removal promises for an unterminated block, a BEGIN line with no END line after
      it: the file is left alone if and only if the counts of the two markers differ. */
  lemma UnterminatedLeftAloneIff(c: string)
    requires Open(Lines(c), |Lines(c)|)
    ensures Strip(c) == c <==> Count(c, PathBlockBegin()) != Count(c, PathBlockEnd())
  {
    MarkersAre();
    var lines := Lines(c);
    hide PathBlockBegin, PathBlockEnd, Join, TrimEnd, Lines, Outside, Count;
    var j :| Opens(lines, j, |lines|);
    assert PathBlockBegin() == lines[j] && PathBlockBegin() in lines;
    JoinedLinesLength(c);
    OutsideLength(lines, false);
    TrimEndIs(Join(Outside(lines, false)));
  }

  predicate Indent(indent: string) {
    indent != "" && '#' !in indent && '\n' !in indent
  }

  /** Counting is by substring and matching by line, so an END with anything before it on
      its line balances the count and closes nothing: everything after the BEGIN is lost. */
  lemma IndentedEndLosesTail(a: seq<string>, b: seq<string>, indent: string, c: seq<string>)
    requires Clean(a) && Clean(b) && Clean(c) && Indent(indent)
    ensures Strip(Join(a + ([PathBlockBegin()] + b + [indent + PathBlockEnd()] + c))) == TrimEnd(Join(a)) + "\n"
  {
    hide PathBlockBegin, PathBlockEnd, Join, TrimEnd, Lines, Count, Outside, Clean, Indent;
    var lines := a + ([PathBlockBegin()] + b + [indent + PathBlockEnd()] + c);
    CountIndented(a, b, indent, c, PathBlockBegin());
    CountIndented(a, b, indent, c, PathBlockEnd());
    IndentedLines(a, b, indent, c);
    IndentedOutside(a, b, indent, c);
  }

  lemma IndentedLines(a: seq<string>, b: seq<string>, indent: string, c: seq<string>)
    requires Clean(a) && Clean(b) && Clean(c) && Indent(indent)
    ensures var lines := a + ([PathBlockBegin()] + b + [indent + PathBlockEnd()] + c); Lines(Join(lines)) == lines
  {
    MarkersAre();
    hide PathBlockBegin, PathBlockEnd, Marker, Join, Lines, Clean, Indent, OneLine, DropCr;
    NoCr(PathBlockBegin());
    NoCr(PathBlockEnd());
    CleanLinesPlain(a);
    CleanLinesPlain(b);
    CleanLinesPlain(c);
    IndentedIsPlain(indent, PathBlockEnd());
    LinesOfJoin(a + ([PathBlockBegin()] + b + [indent + PathBlockEnd()] + c));
  }

  lemma IndentedOutside(a: seq<string>, b: seq<string>, indent: string, c: seq<string>)
    requires Clean(a) && Clean(b) && Clean(c) && Indent(indent)
    ensures Outside(a + ([PathBlockBegin()] + b + [indent + PathBlockEnd()] + c), false) == a
  {
    hide PathBlockBegin, PathBlockEnd, Clean, Indent;
    CleanIsNoMarker(a);
    CleanIsNoMarker(b);
    CleanIsNoMarker(c);
    IndentedIsNoMarker(indent, PathBlockEnd());
    var inner := b + [indent + PathBlockEnd()] + c;
    assert [PathBlockBegin()] + b + [indent + PathBlockEnd()] + c == [PathBlockBegin()] + inner;
    OutsideConcat(a, [PathBlockBegin()] + inner);
    NothingInside(inner);
    assert ([PathBlockBegin()] + inner)[1..] == inner;
    assert a + [] == a;
  }

  lemma CleanLinesPlain(lines: seq<string>)
    requires Clean(lines)
    ensures forall l | l in lines :: OneLine(l) && DropCr(l) == l
  {
    hide MarkerFree;
    assert forall l | l in lines :: CleanLine(l);
  }

  lemma IndentedIsPlain(indent: string, m: string)
    requires Marker(m) && Indent(indent)
    ensures OneLine(indent + m) && DropCr(indent + m) == indent + m
  {
    NoCr(m);
  }

  lemma IndentedIsNoMarker(indent: string, m: string)
    requires Indent(indent)
    ensures indent + m != PathBlockBegin() && indent + m != PathBlockEnd()
  {
    MarkersAre();
    hide PathBlockBegin, PathBlockEnd;
    assert (indent + m)[0] == indent[0] && indent[0] in indent;
  }

  lemma {:induction false} CountSkips(prefix: string, s: string, pat: string)
    requires pat != "" && pat[0] !in prefix
    ensures Count(prefix + s, pat) == Count(s, pat)
  {
    if prefix == "" {
      assert prefix + s == s;
    } else {
      assert prefix[0] in prefix && forall c | c in prefix[1..] :: c in prefix;
      assert (prefix + s)[0] == prefix[0] && (prefix + s)[1..] == prefix[1..] + s;
      CountSkips(prefix[1..], s, pat);
    }
  }

  lemma CountIndented(a: seq<string>, b: seq<string>, indent: string, c: seq<string>, pat: string)
    requires pat == PathBlockBegin() || pat == PathBlockEnd()
    requires Clean(a) && Clean(b) && Clean(c) && Indent(indent)
    ensures pat != "" && Count(Join(a + ([PathBlockBegin()] + b + [indent + PathBlockEnd()] + c)), pat) == 1
  {
    MarkersAre();
    OneOfEach();
    var begin, end := [PathBlockBegin()], [indent + PathBlockEnd()];
    hide PathBlockBegin, PathBlockEnd, Marker, Join, Count, Clean;
    HeadOf(pat);
    assert begin + b + end + c == begin + (b + (end + c));
    JoinConcat(a, begin + (b + (end + c)));
    JoinConcat(begin, b + (end + c));
    JoinConcat(b, end + c);
    JoinConcat(end, c);
    CountJoin(a, Join(begin + (b + (end + c))), pat);
    CountJoin(begin, Join(b + (end + c)), pat);
    CountJoin(b, Join(end + c), pat);
    CountJoin(end, Join(c), pat);
    CountClean(a, pat);
    CountClean(b, pat);
    CountClean(c, pat);
    CountOneMarker(PathBlockBegin(), pat);
    CountOneMarker(PathBlockEnd(), pat);
    JoinOne(PathBlockEnd());
    JoinOne(indent + PathBlockEnd());
    CountEmpty(pat);
    assert Join(end) == indent + Join([PathBlockEnd()]);
    CountSkips(indent, Join([PathBlockEnd()]), pat);
  }

  /** With the markers the wrong way round the counts agree too, and everything after the
      BEGIN is lost. */
  lemma ReversedMarkersLoseTail(a: seq<string>, b: seq<string>, c: seq<string>)
    requires Clean(a) && Clean(b) && Clean(c)
    ensures Strip(Join(a + ([PathBlockEnd()] + b + [PathBlockBegin()] + c))) == TrimEnd(Join(a + b)) + "\n"
  {
    MarkersAre();
    OneOfEach();
    var begin, end := PathBlockBegin(), PathBlockEnd();
    hide PathBlockBegin, PathBlockEnd, Marker, Join, TrimEnd, Lines, Count, Clean;
    var lines := a + ([end] + b + [begin] + c);
    CountReversed(a, b, c, begin);
    CountReversed(a, b, c, end);
    NoCr(begin);
    NoCr(end);
    CleanLinesPlain(a);
    CleanLinesPlain(b);
    CleanLinesPlain(c);
    LinesOfJoin(lines);
    CleanIsNoMarker(a);
    CleanIsNoMarker(b);
    CleanIsNoMarker(c);
    assert lines == a + ([end] + (b + ([begin] + c)));
    OutsideConcat(a, [end] + (b + ([begin] + c)));
    assert ([end] + (b + ([begin] + c)))[1..] == b + ([begin] + c);
    OutsideConcat(b, [begin] + c);
    assert ([begin] + c)[1..] == c;
    NothingInside(c);
    assert a + (b + []) == a + b;
  }

  lemma CountReversed(a: seq<string>, b: seq<string>, c: seq<string>, pat: string)
    requires pat == PathBlockBegin() || pat == PathBlockEnd()
    requires Clean(a) && Clean(b) && Clean(c)
    ensures pat != "" && Count(Join(a + ([PathBlockEnd()] + b + [PathBlockBegin()] + c)), pat) == 1
  {
    MarkersAre();
    OneOfEach();
    var begin, end := [PathBlockBegin()], [PathBlockEnd()];
    hide PathBlockBegin, PathBlockEnd, Marker, Join, Count, Clean;
    HeadOf(pat);
    assert end + b + begin + c == end + (b + (begin + c));
    JoinConcat(a, end + (b + (begin + c)));
    JoinConcat(end, b + (begin + c));
    JoinConcat(b, begin + c);
    JoinConcat(begin, c);
    CountJoin(a, Join(end + (b + (begin + c))), pat);
    CountJoin(end, Join(b + (begin + c)), pat);
    CountJoin(b, Join(begin + c), pat);
    CountJoin(begin, Join(c), pat);
    CountClean(a, pat);
    CountClean(b, pat);
    CountClean(c, pat);
    CountOneMarker(PathBlockBegin(), pat);
    CountOneMarker(PathBlockEnd(), pat);
  }
}
