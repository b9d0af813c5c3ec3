/** The shell rc block of `internal/install/shell_hook.go`: appended as text, removed line by line. */
module ShellHook {
  import opened Text

  const BEGIN_TOKEN: string := "WAGGLE-SHELL-HOOK-BEGIN"
  const END_TOKEN: string := "WAGGLE-SHELL-HOOK-END"
  const HOOK_BEGIN: string := "# <!-- " + BEGIN_TOKEN + " -->"
  const HOOK_END: string := "# <!-- " + END_TOKEN + " -->"
  const HOOK_PATH: string := "$HOME/.waggle/shell-hook.sh"
  const SOURCE_LINE: string := "[ -f \"" + HOOK_PATH + "\" ] && source \"" + HOOK_PATH + "\""
  const EXPORT_LINE: string := "export BASH_ENV=\"" + HOOK_PATH + "\""
  const BLOCK_LINES: seq<string> := [HOOK_BEGIN, SOURCE_LINE, EXPORT_LINE, HOOK_END]
  const HOOK_BLOCK: string := Join(BLOCK_LINES, "\n")

  /** strings.Split(s, "\n") */
  function SplitLines(s: string): (lines: seq<string>)
    ensures |lines| > 0
  {
    if s == "" then [""]
    else
      var rest := SplitLines(s[1..]);
      if s[0] == '\n' then [""] + rest else [[s[0]] + rest[0]] + rest[1..]
  }

  /** The lines kept by the remove loop, started inside or outside a block. */
  function Filter(lines: seq<string>, inBlock: bool): seq<string>
  {
    if lines == [] then []
    else if Contains(lines[0], BEGIN_TOKEN) then Filter(lines[1..], true)
    else if Contains(lines[0], END_TOKEN) then Filter(lines[1..], false)
    else if inBlock then Filter(lines[1..], true)
    else [lines[0]] + Filter(lines[1..], false)
  }

  function RemoveHook(data: string): string
  {
    Join(Filter(SplitLines(data), false), "\n")
  }

  function UpsertHook(content: string): string
  {
    if Contains(content, HOOK_BEGIN) then content
    else Terminated(content) + HOOK_BLOCK + "\n"
  }

  predicate Mentions(line: string) { Contains(line, BEGIN_TOKEN) || Contains(line, END_TOKEN) }

  /** No line of the text mentions a hook marker. */
  predicate Unmarked(lines: seq<string>) { forall l :: l in lines ==> !Mentions(l) }

  // ---------------------------------------------------------------- splitting and joining

  lemma {:induction false} JoinSplit(s: string)
    ensures Join(SplitLines(s), "\n") == s
  {
    if s != "" {
      JoinSplit(s[1..]);
      var rest := SplitLines(s[1..]);
      if s[0] == '\n' {
        assert ([""] + rest)[1..] == rest;
      } else {
        var lines := [[s[0]] + rest[0]] + rest[1..];
        assert lines[1..] == rest[1..];
        assert Join(lines, "\n") == [s[0]] + Join(rest, "\n");
      }
    }
  }

  predicate OneLine(l: string) { '\n' !in l }

  lemma {:induction false} SplitOneLine(l: string)
    requires OneLine(l)
    ensures SplitLines(l) == [l]
  {
    if l != "" {
      assert l[0] in l;
      SplitOneLine(l[1..]);
      assert [l[0]] + l[1..] == l;
    }
  }

  lemma AddToFirst(c: char, ra: seq<string>, rb: seq<string>)
    requires ra != []
    ensures (ra + rb)[0] == ra[0]
    ensures [[c] + ra[0]] + (ra + rb)[1..] == [[c] + ra[0]] + ra[1..] + rb
    ensures [""] + (ra + rb) == [""] + ra + rb
  {
  }

  lemma {:induction false} SplitAppend(a: string, b: string)
    ensures SplitLines(a + "\n" + b) == SplitLines(a) + SplitLines(b)
  {
    var s := a + "\n" + b;
    if a == "" {
      assert s[0] == '\n' && s[1..] == b;
    } else {
      assert s[0] == a[0] && s[1..] == a[1..] + "\n" + b;
      SplitAppend(a[1..], b);
      AddToFirst(a[0], SplitLines(a[1..]), SplitLines(b));
    }
  }

  lemma {:induction false} SplitJoin(lines: seq<string>)
    requires lines != [] && forall l :: l in lines ==> OneLine(l)
    ensures SplitLines(Join(lines, "\n")) == lines
  {
    assert OneLine(lines[0]);
    SplitOneLine(lines[0]);
    if |lines| > 1 {
      SplitJoin(lines[1..]);
      SplitAppend(lines[0], Join(lines[1..], "\n"));
    }
  }

  lemma {:induction false} LinesAreLines(s: string)
    ensures forall l :: l in SplitLines(s) ==> OneLine(l)
  {
    if s != "" {
      LinesAreLines(s[1..]);
      var rest := SplitLines(s[1..]);
      assert OneLine(rest[0]);
      forall l | l in SplitLines(s)
        ensures OneLine(l)
      {
        if s[0] == '\n' {
          assert l == "" || l in rest;
        } else {
          assert l == [s[0]] + rest[0] || l in rest[1..];
        }
      }
    }
  }

  // ---------------------------------------------------------------- the filter

  lemma {:induction false} FilterKeeps(lines: seq<string>, inBlock: bool)
    ensures forall l :: l in Filter(lines, inBlock) ==> l in lines && !Mentions(l)
  {
    if lines != [] {
      FilterKeeps(lines[1..], true);
      FilterKeeps(lines[1..], false);
    }
  }

  lemma {:induction false} FilterUnmarked(lines: seq<string>, more: seq<string>)
    requires Unmarked(lines)
    ensures Filter(lines + more, false) == lines + Filter(more, false)
  {
    if lines == [] {
      assert lines + more == more;
    } else {
      assert lines[0] in lines && !Mentions(lines[0]);
      assert (lines + more)[1..] == lines[1..] + more;
      FilterUnmarked(lines[1..], more);
    }
  }

  lemma {:induction false} FilterIdempotent(lines: seq<string>, inBlock: bool)
    ensures Filter(Filter(lines, inBlock), false) == Filter(lines, inBlock)
  {
    FilterKeeps(lines, inBlock);
    var kept := Filter(lines, inBlock);
    FilterUnmarked(kept, []);
    assert kept + [] == kept;
  }

  /** The lines of a file that remove has rewritten. */
  lemma LinesAfterRemove(data: string)
    ensures var kept := Filter(SplitLines(data), false);
            SplitLines(RemoveHook(data)) == if kept == [] then [""] else kept
  {
    var kept := Filter(SplitLines(data), false);
    LinesAreLines(data);
    FilterKeeps(SplitLines(data), false);
    if kept != [] {
      SplitJoin(kept);
    }
  }

  lemma EmptyMentionsNothing()
    ensures !Mentions("") && Filter([""], false) == [""] && Join([""], "\n") == ""
  {
  }

  /** Remove leaves no line that mentions a marker. */
  lemma RemoveUnmarks(data: string)
    ensures Unmarked(SplitLines(RemoveHook(data)))
  {
    LinesAfterRemove(data);
    FilterKeeps(SplitLines(data), false);
    EmptyMentionsNothing();
  }

  /** Remove is idempotent on every file, whatever blocks are unclosed or repeated in it. */
  lemma RemoveIdempotent(data: string)
    ensures RemoveHook(RemoveHook(data)) == RemoveHook(data)
  {
    LinesAfterRemove(data);
    FilterIdempotent(SplitLines(data), false);
    EmptyMentionsNothing();
  }

  /** The loop of removeShellHookBlock over the lines of the file. */
  method RemoveShellHookBlock(data: string) returns (rewritten: string)
    ensures rewritten == RemoveHook(data)
  {
    var lines := SplitLines(data);
    var filtered: seq<string> := [];
    var inBlock := false;
    for i := 0 to |lines|
      invariant Filter(lines, false) == filtered + Filter(lines[i..], inBlock)
    {
      var line := lines[i];
      assert lines[i..][0] == line && lines[i..][1..] == lines[i + 1..];
      if Contains(line, BEGIN_TOKEN) {
        inBlock := true;
        continue;
      }
      if Contains(line, END_TOKEN) {
        inBlock := false;
        continue;
      }
      if !inBlock {
        filtered := filtered + [line];
      }
    }
    assert Filter(lines, false) == filtered;
    return Join(filtered, "\n");
  }

  // ---------------------------------------------------------------- the block

  lemma TokenIn(line: string, i: nat, token: string)
    requires At(line, i, token)
    ensures Contains(line, token)
  {
    IndexIsFirst(line, token);
  }

  lemma TokenNotIn(line: string, token: string)
    requires forall i :: !At(line, i, token)
    ensures !Contains(line, token)
  {
    IndexIsFirst(line, token);
  }

  predicate HasNoW(s: string) { forall i :: 0 <= i < |s| ==> s[i] != 'W' }

  /** Both tokens start with a 'W', so a line without one mentions neither. */
  lemma NoWNoMention(line: string)
    requires HasNoW(line)
    ensures !Mentions(line)
  {
    assert BEGIN_TOKEN[0] == 'W' && END_TOKEN[0] == 'W';
    forall i
      ensures !At(line, i, BEGIN_TOKEN) && !At(line, i, END_TOKEN)
    {
      assert 0 <= i < |line| ==> line[i + 0] != 'W';
    }
    TokenNotIn(line, BEGIN_TOKEN);
    TokenNotIn(line, END_TOKEN);
  }

  lemma InMiddle(a: string, m: string, b: string)
    ensures Contains(a + m + b, m)
  {
    AtInside(a, m, b, 0, m);
    TokenIn(a + m + b, |a|, m);
  }

  lemma BeginLine()
    ensures Contains(HOOK_BEGIN, BEGIN_TOKEN)
  {
    InMiddle("# <!-- ", BEGIN_TOKEN, " -->");
  }

  lemma AtChar(s: string, i: int, u: string, k: nat)
    ensures At(s, i, u) && k < |u| ==> i + k < |s| && s[i + k] == u[k]
  {
  }

  /** A token whose one 'W' is its first character hides no other token that starts with a 'W'. */
  lemma OtherTokenNotIn(p: string, t: string, q: string, u: string, k: nat)
    requires HasNoW(p) && HasNoW(q) && t != "" && HasNoW(t[1..])
    requires u != "" && u[0] == 'W' && k < |t| && k < |u| && t[k] != u[k]
    ensures !Contains(p + t + q, u)
  {
    var s := p + t + q;
    assert forall i :: 0 <= i < |s| && i != |p| ==> s[i] != 'W' by {
      assert forall j :: 0 < j < |t| ==> t[j] == t[1..][j - 1];
    }
    assert s[|p| + k] == t[k];
    forall i
      ensures !At(s, i, u)
    {
      AtChar(s, i, u, 0);
      AtChar(s, i, u, k);
    }
    TokenNotIn(s, u);
  }

  lemma EndTokenOnly()
    ensures HasNoW(END_TOKEN[1..]) && END_TOKEN[18] != BEGIN_TOKEN[18]
  {
  }

  lemma EndLine()
    ensures Contains(HOOK_END, END_TOKEN) && !Contains(HOOK_END, BEGIN_TOKEN)
  {
    InMiddle("# <!-- ", END_TOKEN, " -->");
    EndTokenOnly();
    OtherTokenNotIn("# <!-- ", END_TOKEN, " -->", BEGIN_TOKEN, 18);
  }

  /** Neither the first letter of a token nor a line break. */
  predicate Inert(s: string) { HasNoW(s) && NoNewline(s) }

  predicate NoNewline(s: string) { forall i :: 0 <= i < |s| ==> s[i] != '\n' }

  lemma InertConcat(a: string, b: string)
    requires Inert(a) && Inert(b)
    ensures Inert(a + b)
  {
  }

  lemma InertLines()
    ensures Inert(SOURCE_LINE) && Inert(EXPORT_LINE)
  {
    assert Inert("[ -f \"") && Inert(HOOK_PATH) && Inert("\" ] && source \"") && Inert("\"") && Inert("export BASH_ENV=\"");
    InertConcat("[ -f \"", HOOK_PATH);
    InertConcat("[ -f \"" + HOOK_PATH, "\" ] && source \"");
    InertConcat("[ -f \"" + HOOK_PATH + "\" ] && source \"", HOOK_PATH);
    InertConcat("[ -f \"" + HOOK_PATH + "\" ] && source \"" + HOOK_PATH, "\"");
    InertConcat("export BASH_ENV=\"", HOOK_PATH);
    InertConcat("export BASH_ENV=\"" + HOOK_PATH, "\"");
  }

  lemma BlockOfFour(a: string, b: string, c: string, d: string, more: seq<string>)
    requires Contains(a, BEGIN_TOKEN) && !Mentions(b) && !Mentions(c)
    requires Contains(d, END_TOKEN) && !Contains(d, BEGIN_TOKEN)
    ensures Filter([a, b, c, d] + more, false) == Filter(more, false)
  {
    assert ([a, b, c, d] + more)[1..] == [b, c, d] + more;
    assert ([b, c, d] + more)[1..] == [c, d] + more;
    assert ([c, d] + more)[1..] == [d] + more;
    assert ([d] + more)[1..] == more;
    assert Filter([a, b, c, d] + more, false) == Filter([b, c, d] + more, true);
    assert Filter([b, c, d] + more, true) == Filter([c, d] + more, true);
    assert Filter([c, d] + more, true) == Filter([d] + more, true);
  }

  /** The block disappears entirely, whatever follows. */
  lemma BlockFiltersAway(more: seq<string>)
    ensures Filter(BLOCK_LINES + more, false) == Filter(more, false)
  {
    BeginLine();
    EndLine();
    InertLines();
    NoWNoMention(SOURCE_LINE);
    NoWNoMention(EXPORT_LINE);
    BlockOfFour(HOOK_BEGIN, SOURCE_LINE, EXPORT_LINE, HOOK_END, more);
  }

  lemma BlockSplits()
    ensures SplitLines(HOOK_BLOCK + "\n") == BLOCK_LINES + [""]
  {
    assert NoNewline(BEGIN_TOKEN) && NoNewline(END_TOKEN) && NoNewline("# <!-- ") && NoNewline(" -->");
    InertLines();
    assert OneLine(HOOK_BEGIN) && OneLine(HOOK_END) && OneLine(SOURCE_LINE) && OneLine(EXPORT_LINE);
    SplitJoin(BLOCK_LINES);
    SplitAppend(HOOK_BLOCK, "");
    assert HOOK_BLOCK + "\n" + "" == HOOK_BLOCK + "\n";
  }

  // ---------------------------------------------------------------- install and uninstall

  lemma AtTail(s: string, t: string)
    requires At(s, 0, t) && t != ""
    ensures s != "" && At(s[1..], 0, t[1..])
  {
  }

  /** What a token at the start of a text says about its first line. */
  lemma {:induction false} TokenInFirstLine(s: string, t: string)
    requires At(s, 0, t) && OneLine(t)
    ensures At(SplitLines(s)[0], 0, t)
  {
    if t != "" {
      assert s[0 + 0] == t[0] && t[0] in t;
      AtTail(s, t);
      TokenInFirstLine(s[1..], t[1..]);
      var first := SplitLines(s[1..])[0];
      assert SplitLines(s)[0] == [s[0]] + first;
      assert forall k :: 0 < k < |t| ==> t[k] == t[1..][k - 1] == first[0 + (k - 1)];
    }
  }

  /** A token without a newline that occurs in a text occurs in one of its lines. */
  lemma TokenInLonger(c: char, l: string, t: string)
    requires Contains(l, t) && t != ""
    ensures Contains([c] + l, t)
  {
    IndexIsFirst(l, t);
    AtInside([c], l, "", Index(l, t), t);
    assert [c] + l + "" == [c] + l;
    TokenIn([c] + l, 1 + Index(l, t), t);
  }

  lemma {:induction false} TokenInSomeLine(s: string, i: nat, t: string) returns (l: string)
    requires At(s, i, t) && OneLine(t) && t != ""
    ensures l in SplitLines(s) && Contains(l, t)
  {
    if i == 0 {
      TokenInFirstLine(s, t);
      l := SplitLines(s)[0];
      TokenIn(l, 0, t);
    } else {
      assert s == [s[0]] + s[1..] + "";
      AtInside([s[0]], s[1..], "", i - 1, t);
      l := TokenInSomeLine(s[1..], i - 1, t);
      var rest := SplitLines(s[1..]);
      if s[0] != '\n' && l == rest[0] {
        TokenInLonger(s[0], l, t);
        l := [s[0]] + l;
      }
    }
  }

  /** A text none of whose lines mentions a marker is not taken for one with the block. */
  lemma UnmarkedHasNoBlock(c: string)
    requires Unmarked(SplitLines(c))
    ensures !Contains(c, HOOK_BEGIN)
  {
    IndexIsFirst(c, HOOK_BEGIN);
    if Contains(c, HOOK_BEGIN) {
      var i := Index(c, HOOK_BEGIN);
      AtChain(c, i, "# <!-- ", BEGIN_TOKEN, " -->");
      assert NoNewline(BEGIN_TOKEN);
      var l := TokenInSomeLine(c, i + 7, BEGIN_TOKEN);
    }
  }

  lemma AtChain(s: string, i: int, p: string, t: string, q: string)
    requires At(s, i, p + t + q)
    ensures At(s, i + |p|, t)
  {
    forall k | 0 <= k < |t|
      ensures s[i + |p| + k] == t[k]
    {
      assert (p + t + q)[|p| + k] == t[k];
    }
  }

  lemma {:induction false} JoinAppendsNewline(lines: seq<string>)
    requires lines != []
    ensures Join(lines + [""], "\n") == Join(lines, "\n") + "\n"
  {
    if |lines| == 1 {
      assert (lines + [""])[1..] == [""];
    } else {
      assert (lines + [""])[1..] == lines[1..] + [""];
      JoinAppendsNewline(lines[1..]);
    }
  }

  /** A finished text followed by lines that filter away to nothing but the final empty one. */
  lemma TailFiltersAway(x: string, tail: string, block: seq<string>)
    requires Unmarked(SplitLines(x))
    requires SplitLines(tail) == block + [""] && Filter(block + [""], false) == [""]
    ensures RemoveHook(x + "\n" + tail) == x + "\n"
  {
    SplitAppend(x, tail);
    FilterUnmarked(SplitLines(x), block + [""]);
    JoinAppendsNewline(SplitLines(x));
    JoinSplit(x);
  }

  /** A text without its final newline. */
  function Unterminated(c: string): string
  {
    if c != "" && c[|c| - 1] == '\n' then c[..|c| - 1] else c
  }

  lemma UnterminatedLines(c: string)
    requires c != "" && Unmarked(SplitLines(c))
    ensures Unmarked(SplitLines(Unterminated(c))) && Terminated(c) == Unterminated(c) + "\n"
  {
    var x := Unterminated(c);
    if x != c {
      assert x + "\n" + "" == c;
      SplitAppend(x, "");
      assert forall l :: l in SplitLines(x) ==> l in SplitLines(c);
    }
  }

  lemma HookTail()
    ensures SplitLines(HOOK_BLOCK + "\n") == BLOCK_LINES + [""] && Filter(BLOCK_LINES + [""], false) == [""]
    ensures RemoveHook(HOOK_BLOCK + "\n") == ""
  {
    BlockSplits();
    BlockFiltersAway([""]);
    EmptyMentionsNothing();
  }

  lemma UnmarkedRoundTrip(c: string)
    requires Unmarked(SplitLines(c))
    ensures RemoveHook(UpsertHook(c)) == Terminated(c)
  {
    UnmarkedHasNoBlock(c);
    HookTail();
    if c == "" {
      assert Terminated(c) + HOOK_BLOCK + "\n" == HOOK_BLOCK + "\n";
    } else {
      UnterminatedLines(c);
      PutAfter(Unterminated(c), HOOK_BLOCK);
      TailFiltersAway(Unterminated(c), HOOK_BLOCK + "\n", BLOCK_LINES);
    }
  }

  lemma PutAfter(x: string, block: string)
    ensures x + "\n" + block + "\n" == x + "\n" + (block + "\n")
  {
  }

  lemma BreakAtEnd(x: string)
    ensures SplitLines(x + "\n") == SplitLines(x) + [""]
  {
    SplitAppend(x, "");
    assert x + "\n" + "" == x + "\n";
  }

  lemma LinesOfBoth(x: string)
    ensures SplitLines(x + "\n" + HOOK_BLOCK + "\n") == SplitLines(x) + (BLOCK_LINES + [""])
  {
    PutAfter(x, HOOK_BLOCK);
    SplitAppend(x, HOOK_BLOCK + "\n");
    HookTail();
  }

  /** The lines of a text ended by a newline, followed by those of the block. */
  lemma WrittenLines(c: string)
    ensures SplitLines(Terminated(c) + HOOK_BLOCK + "\n") ==
            (if c == "" || c[|c| - 1] == '\n' then SplitLines(c)[..|SplitLines(c)| - 1] else SplitLines(c))
            + (BLOCK_LINES + [""])
  {
    if c == "" {
      HookTail();
      assert Terminated(c) + HOOK_BLOCK + "\n" == HOOK_BLOCK + "\n";
    } else if c[|c| - 1] == '\n' {
      var x := c[..|c| - 1];
      assert c == x + "\n";
      BreakAtEnd(x);
      LinesOfBoth(x);
      assert (SplitLines(x) + [""])[..|SplitLines(x)|] == SplitLines(x);
    } else {
      LinesOfBoth(c);
    }
  }

  /** What install leaves: a text that has the begin marker as it is; otherwise the text, ended by a newline,
    * and after its lines the four lines of the block and a final newline. */
  lemma InstallWrites(c: string)
    ensures Contains(c, "# <!-- " + "WAGGLE-SHELL-HOOK-BEGIN" + " -->") ==> UpsertHook(c) == c
    ensures !Contains(c, "# <!-- " + "WAGGLE-SHELL-HOOK-BEGIN" + " -->") ==>
              && c <= UpsertHook(c)
              && SplitLines(UpsertHook(c)) ==
                 (if c == "" || c[|c| - 1] == '\n' then SplitLines(c)[..|SplitLines(c)| - 1] else SplitLines(c))
                 + ["# <!-- " + "WAGGLE-SHELL-HOOK-BEGIN" + " -->",
                    "[ -f \"" + "$HOME/.waggle/shell-hook.sh" + "\" ] && source \"" + "$HOME/.waggle/shell-hook.sh" + "\"",
                    "export BASH_ENV=\"" + "$HOME/.waggle/shell-hook.sh" + "\"",
                    "# <!-- " + "WAGGLE-SHELL-HOOK-END" + " -->",
                    ""]
  {
    WrittenLines(c);
    assert BLOCK_LINES + [""] == [HOOK_BEGIN, SOURCE_LINE, EXPORT_LINE, HOOK_END, ""];
  }

  /** Install then uninstall gives the text back, up to a final newline, exactly when no line of it
    * mentioned a hook marker before. */
  lemma InstallThenUninstall(c: string)
    ensures RemoveHook(UpsertHook(c)) == Terminated(c) <==> Unmarked(SplitLines(c))
  {
    if Unmarked(SplitLines(c)) {
      UnmarkedRoundTrip(c);
    } else {
      var l :| l in SplitLines(c) && Mentions(l);
      RemoveUnmarks(UpsertHook(c));
      if c != "" && c[|c| - 1] != '\n' {
        SplitAppend(c, "");
        assert c + "\n" + "" == Terminated(c);
      }
      assert l in SplitLines(Terminated(c));
    }
  }

  /** Installing twice is installing once. */
  lemma UpsertIdempotent(c: string)
    ensures UpsertHook(UpsertHook(c)) == UpsertHook(c)
  {
    if !Contains(c, HOOK_BEGIN) {
      assert HOOK_BLOCK == HOOK_BEGIN + "\n" + Join(BLOCK_LINES[1..], "\n");
      PutBetween(Terminated(c), HOOK_BEGIN, Join(BLOCK_LINES[1..], "\n"));
    }
  }

  lemma PutBetween(a: string, m: string, b: string)
    ensures Contains(a + (m + "\n" + b) + "\n", m)
  {
    var rest := "\n" + b + "\n";
    assert a + (m + "\n" + b) + "\n" == a + m + rest;
    InMiddle(a, m, rest);
  }
}
