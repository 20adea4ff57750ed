/** Quoting of a path for a double-quoted shell string. */
module ShellQuoting {
  import opened Options

  /** `s.replace(c, "\\c")` */
  function Replace(s: string, c: char): string {
    if s == "" then "" else (if s[0] == c then ['\\', c] else [s[0]]) + Replace(s[1..], c)
  }

  /** The four replacements, one after the other, the backslash first. */
  function EscapeDoubleQuoted(s: string): string {
    Replace(Replace(Replace(Replace(s, '\\'), '"'), '$'), '`')
  }

  predicate Special(c: char) {
    c == '\\' || c == '"' || c == '$' || c == '`'
  }

  /** The same in one pass. */
  function Escape(s: string): string {
    if s == "" then "" else (if Special(s[0]) then ['\\', s[0]] else [s[0]]) + Escape(s[1..])
  }

  lemma {:induction false} ReplaceConcat(a: string, b: string, c: char)
    ensures Replace(a + b, c) == Replace(a, c) + Replace(b, c)
  {
    if a == "" {
      assert a + b == b;
    } else {
      assert (a + b)[1..] == a[1..] + b;
      ReplaceConcat(a[1..], b, c);
    }
  }

  lemma ReplaceChar(x: char, c: char)
    ensures Replace([x], c) == if x == c then ['\\', c] else [x]
    ensures c != '\\' && x != c ==> Replace(['\\', x], c) == ['\\', x]
  {
    assert [x][1..] == "" && ['\\', x][1..] == [x];
  }

  /** All four on the text of one character. */
  lemma EscapeChar(x: char)
    ensures EscapeDoubleQuoted([x]) == if Special(x) then ['\\', x] else [x]
  {
    hide Replace;
    ReplaceChar(x, '\\');
    ReplaceChar(x, '"');
    ReplaceChar(x, '$');
    ReplaceChar(x, '`');
  }

  lemma EscapeConcat(a: string, b: string)
    ensures EscapeDoubleQuoted(a + b) == EscapeDoubleQuoted(a) + EscapeDoubleQuoted(b)
  {
    hide Replace;
    ReplaceConcat(a, b, '\\');
    var a1, b1 := Replace(a, '\\'), Replace(b, '\\');
    ReplaceConcat(a1, b1, '"');
    var a2, b2 := Replace(a1, '"'), Replace(b1, '"');
    ReplaceConcat(a2, b2, '$');
    ReplaceConcat(Replace(a2, '$'), Replace(b2, '$'), '`');
  }

  /** The chained replacements are one left-to-right pass: no replacement touches what an
      earlier one has inserted. */
  lemma {:induction false} ChainIsOnePass(s: string)
    ensures EscapeDoubleQuoted(s) == Escape(s)
  {
    if s != "" {
      assert s == [s[0]] + s[1..];
      EscapeConcat([s[0]], s[1..]);
      EscapeChar(s[0]);
      ChainIsOnePass(s[1..]);
    }
  }

  /** The characters a backslash quotes between double quotes, apart from a newline; each is
      active there without one. */
  predicate ShellSpecial(c: char) {
    c in "$`\"\\"
  }

  /** What a shell reads between double quotes (section 2.2.3 of the POSIX Shell Command
      Language): a backslash quotes a following special character, removes itself with a
      following newline, and stands for itself otherwise. `None` if the text has an active
      `$` or backquote, or ends the string early, or ends in the middle of an escape. */
  function ReadDoubleQuoted(s: string): Option<string> {
    if s == "" then Some("")
    else if s[0] == '\\' then
      if |s| == 1 then None
      else
        var rest := ReadDoubleQuoted(s[2..]);
        if rest.None? then None
        else if ShellSpecial(s[1]) then Some([s[1]] + rest.value)
        else if s[1] == '\n' then rest
        else
          var unread := ReadDoubleQuoted(s[1..]);
          if unread.None? then None else Some(['\\'] + unread.value)
    else if ShellSpecial(s[0]) then None
    else
      var rest := ReadDoubleQuoted(s[1..]);
      if rest.None? then None else Some([s[0]] + rest.value)
  }

  /** Reading the quoted text gives back the original, with nothing in it active. */
  lemma QuotedReadsBack(s: string)
    ensures ReadDoubleQuoted(EscapeDoubleQuoted(s)) == Some(s)
  {
    ChainIsOnePass(s);
    EscapeReadsBack(s);
  }

  lemma {:induction false} EscapeReadsBack(s: string)
    ensures ReadDoubleQuoted(Escape(s)) == Some(s)
  {
    if s != "" {
      var t := Escape(s);
      EscapeReadsBack(s[1..]);
      if Special(s[0]) {
        assert t[0] == '\\' && t[1] == s[0] && t[2..] == Escape(s[1..]);
      } else {
        assert t[0] == s[0] && t[1..] == Escape(s[1..]);
      }
      assert s == [s[0]] + s[1..];
    }
  }

  predicate NameChar(c: char) {
    'a' <= c <= 'z' || 'A' <= c <= 'Z' || '0' <= c <= '9' || c == '_'
  }

  /** The same with one parameter set: what the text expands to when PATH is `path`. An active
      `$` must begin the whole name. */
  function ExpandDoubleQuoted(s: string, path: string): Option<string> {
    if s == "" then Some("")
    else if "$PATH" <= s && (|s| == 5 || !NameChar(s[5])) then
      var rest := ExpandDoubleQuoted(s[5..], path);
      if rest.None? then None else Some(path + rest.value)
    else if s[0] == '\\' then
      if |s| == 1 then None
      else
        var rest := ExpandDoubleQuoted(s[2..], path);
        if rest.None? then None
        else if ShellSpecial(s[1]) then Some([s[1]] + rest.value)
        else if s[1] == '\n' then rest
        else
          var unread := ExpandDoubleQuoted(s[1..], path);
          if unread.None? then None else Some(['\\'] + unread.value)
    else if ShellSpecial(s[0]) then None
    else
      var rest := ExpandDoubleQuoted(s[1..], path);
      if rest.None? then None else Some([s[0]] + rest.value)
  }

  lemma ExpandPlain(c: char, rest: string, path: string)
    requires !Special(c) && ExpandDoubleQuoted(rest, path).Some?
    ensures ExpandDoubleQuoted([c] + rest, path) == Some([c] + ExpandDoubleQuoted(rest, path).value)
  {
    var s := [c] + rest;
    assert s[0] == c && s[1..] == rest && "$PATH"[0] == '$';
  }

  lemma ExpandEscaped(c: char, rest: string, path: string)
    requires Special(c) && ExpandDoubleQuoted(rest, path).Some?
    ensures ExpandDoubleQuoted(['\\', c] + rest, path) == Some([c] + ExpandDoubleQuoted(rest, path).value)
  {
    var s := ['\\', c] + rest;
    assert s[0] == '\\' && s[1] == c && s[2..] == rest && "$PATH"[0] == '$';
  }

  /** Quoted text in front of other text expands to the original in front of what that
      expands to. */
  lemma {:induction false} EscapeExpands(s: string, t: string, path: string)
    requires ExpandDoubleQuoted(t, path).Some?
    ensures ExpandDoubleQuoted(Escape(s) + t, path) == Some(s + ExpandDoubleQuoted(t, path).value)
  {
    hide ExpandDoubleQuoted, Special;
    var tail := ExpandDoubleQuoted(t, path).value;
    if s == "" {
      assert Escape(s) + t == t && s + tail == tail;
    } else {
      var rest := Escape(s[1..]) + t;
      EscapeExpands(s[1..], t, path);
      if Special(s[0]) {
        ExpandEscaped(s[0], rest, path);
        assert Escape(s) + t == ['\\', s[0]] + rest;
      } else {
        ExpandPlain(s[0], rest, path);
        assert Escape(s) + t == [s[0]] + rest;
      }
      assert s == [s[0]] + s[1..];
      assert s + tail == [s[0]] + (s[1..] + tail);
    }
  }

  lemma PathExpands(path: string)
    ensures ExpandDoubleQuoted("$PATH", path) == Some(path)
    ensures ExpandDoubleQuoted(":$PATH", path) == Some(":" + path)
  {
    var p := "$PATH";
    assert |p| == 5 && p <= p && p[5..] == "";
    assert ExpandDoubleQuoted("", path) == Some("") && path + "" == path;
    assert ":$PATH" == [':'] + p && ":" + path == [':'] + path;
    ExpandPlain(':', p, path);
  }
}
