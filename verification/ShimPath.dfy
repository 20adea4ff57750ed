/** The PATH block in shell rc files: how it is put in and how it is taken out. */
module ShimPath {
  import opened ShellQuoting

  /** A character other than `#`, a line ending and those that quoting or the block add. */
  predicate Plain(c: char) {
    c != '#' && c != '\n' && c != '\r' && c != ':' && !Special(c)
  }

  // The two markers; functions, so that proofs need not spell them out, and in pieces, so
  // that what they are made of is cheap to check.

  function PathBlockBegin(): string {
    "#" + (" BEGIN busytok-cli-path" + " (auto-generated, do not edit)")
  }

  function PathBlockEnd(): string {
    "#" + " END busytok-cli-path"
  }

  predicate AllPlain(s: string) {
    forall c | c in s :: Plain(c)
  }

  lemma BeginIsPlain()
    ensures AllPlain(" BEGIN busytok-cli-path")
  {
  }

  lemma EndIsPlain()
    ensures AllPlain(" END busytok-cli-path")
  {
  }

  lemma CommentIsPlain()
    ensures AllPlain(" (auto-generated, do not edit)")
  {
  }

  /** All that the proofs use of the markers: they start with `#`, have no other, nor any
      character that quoting or the block add, and differ in their third character. */
  predicate Marker(m: string) {
    |m| > 3 && m[0] == '#' && AllPlain(m[1..])
  }

  lemma MarkersAre()
    ensures Marker(PathBlockBegin()) && Marker(PathBlockEnd()) && PathBlockBegin()[2] != PathBlockEnd()[2]
  {
    BeginIsPlain();
    EndIsPlain();
    CommentIsPlain();
    var a, b, c := " BEGIN busytok-cli-path", " (auto-generated, do not edit)", " END busytok-cli-path";
    assert a[1] == 'B' && c[1] == 'E';
    hide Plain;
    assert PathBlockBegin()[1..] == a + b && PathBlockEnd()[1..] == c;
  }

  // ---- the string operations the code uses ----

  /** `s.contains(pat)` */
  predicate Contains(s: string, pat: string) {
    pat <= s || (s != "" && Contains(s[1..], pat))
  }

  /** `s.matches(pat).count()`: occurrences that do not overlap, from the left. */
  function Count(s: string, pat: string): nat
    requires pat != ""
  {
    if s == "" then 0
    else if pat <= s then 1 + Count(s[|pat|..], pat)
    else Count(s[1..], pat)
  }

  function FirstNewline(s: string): (i: nat)
    ensures i <= |s| && '\n' !in s[..i]
    ensures i < |s| ==> s[i] == '\n'
  {
    if s == "" || s[0] == '\n' then 0 else 1 + FirstNewline(s[1..])
  }

  /** A carriage return is part of the line ending only before a newline. */
  function DropCr(line: string): string {
    if line != "" && line[|line| - 1] == '\r' then line[..|line| - 1] else line
  }

  /** `s.lines()` */
  function Lines(s: string): seq<string> {
    if s == "" then []
    else
      var i := FirstNewline(s);
      if i == |s| then [s] else [DropCr(s[..i])] + Lines(s[i + 1..])
  }

  function Join(lines: seq<string>): string {
    if lines == [] then "" else lines[0] + "\n" + Join(lines[1..])
  }

  predicate IsWhitespace(c: char) {
    || '\t' <= c <= '\r' || c == ' '
    || c == '\U{85}' || c == '\U{A0}' || c == '\U{1680}' || '\U{2000}' <= c <= '\U{200A}'
    || c == '\U{2028}' || c == '\U{2029}' || c == '\U{202F}' || c == '\U{205F}' || c == '\U{3000}'
  }

  function TrimEnd(s: string): string {
    if s != "" && IsWhitespace(s[|s| - 1]) then TrimEnd(s[..|s| - 1]) else s
  }

  // ---- the code ----

  function FormatPathBlock(dir: string): string {
    PathBlockBegin() + "\n" + "export PATH=\"" + EscapeDoubleQuoted(dir) + ":$PATH\"" + "\n" + PathBlockEnd() + "\n"
  }

  function Terminated(contents: string): string {
    if contents != "" && contents[|contents| - 1] != '\n' then contents + "\n" else contents
  }

  /** What `ensure_path_setup` leaves in a file. */
  method SetupText(contents: string, dir: string) returns (r: string)
    ensures r == if Contains(contents, PathBlockBegin()) then contents else Terminated(contents) + FormatPathBlock(dir)
    ensures !Contains(contents, PathBlockBegin()) ==>
              r == contents + (if contents == "" || contents[|contents| - 1] == '\n' then "" else "\n")
                   + FormatPathBlock(dir)
  {
    if Contains(contents, PathBlockBegin()) {
      return contents;
    }
    r := contents;
    if r != "" && r[|r| - 1] != '\n' {
      r := r + "\n";
    }
    r := r + FormatPathBlock(dir);
  }

  /** The lines that are outside the blocks, for a sweep that starts inside one or not. */
  function Outside(lines: seq<string>, inBlock: bool): seq<string> {
    if lines == [] then []
    else if lines[0] == PathBlockBegin() then Outside(lines[1..], true)
    else if lines[0] == PathBlockEnd() then Outside(lines[1..], false)
    else if inBlock then Outside(lines[1..], inBlock)
    else [lines[0]] + Outside(lines[1..], inBlock)
  }

  function Strip(contents: string): string {
    if Count(contents, PathBlockBegin()) != Count(contents, PathBlockEnd()) then contents
    else TrimEnd(Join(Outside(Lines(contents), false))) + "\n"
  }

  method StripPathBlock(contents: string) returns (r: string)
    ensures r == Strip(contents)
    ensures Count(contents, PathBlockBegin()) != Count(contents, PathBlockEnd()) ==> r == contents
  {
    var beginCount := Count(contents, PathBlockBegin());
    var endCount := Count(contents, PathBlockEnd());
    if beginCount != endCount {
      return contents;
    }
    var lines := Lines(contents);
    hide Lines, Count, TrimEnd, PathBlockBegin, PathBlockEnd, Join;
    var result := "";
    var inBlock := false;
    for i := 0 to |lines|
      invariant result + Join(Outside(lines[i..], inBlock)) == Join(Outside(lines, false))
    {
      var line := lines[i];
      assert lines[i..][1..] == lines[i + 1..];
      if line == PathBlockBegin() {
        inBlock := true;
        continue;
      }
      if line == PathBlockEnd() {
        inBlock := false;
        continue;
      }
      if !inBlock {
        JoinFirst(line, Outside(lines[i + 1..], inBlock));
        assert result + (line + "\n" + Join(Outside(lines[i + 1..], inBlock)))
               == result + line + "\n" + Join(Outside(lines[i + 1..], inBlock));
        result := result + line;
        result := result + "\n";
      }
    }
    assert lines[|lines|..] == [];
    OutsideNone(inBlock);
    assert result + "" == result;
    return TrimEnd(result) + "\n";
  }

  lemma JoinFirst(line: string, rest: seq<string>)
    ensures Join([line] + rest) == line + "\n" + Join(rest)
  {
    assert ([line] + rest)[1..] == rest;
  }

  lemma OutsideNone(inBlock: bool)
    ensures Join(Outside([], inBlock)) == ""
  {
  }

  /** What `remove_path_setup` leaves in a file. */
  function RemovedText(contents: string): string {
    if Contains(contents, PathBlockBegin()) then Strip(contents) else contents
  }
}
