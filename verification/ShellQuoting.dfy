/** The command builders of `internal/spawn/command.go`, against the shell's own reading of their
  * output: token recognition with the escape character and single quotes (sections 2.2.1, 2.2.2 and
  * 2.3 of the Shell Command Language, POSIX.1-2017) and assignment words (section 2.9.1). */
module ShellQuoting {
  import opened Wrappers
  import opened Text

  // ---------------------------------------------------------------- the builders

  /** strings.ReplaceAll for a one-character pattern. */
  function ReplaceAll(s: string, c: char, sub: string): string
  {
    if s == "" then "" else (if s[0] == c then sub else [s[0]]) + ReplaceAll(s[1..], c, sub)
  }

  function ShellQuote(s: string): string
  {
    "'" + ReplaceAll(s, '\'', "'\\''") + "'"
  }

  predicate NameStart(c: char) { 'A' <= c <= 'Z' || 'a' <= c <= 'z' || c == '_' }

  predicate NameChar(c: char) { NameStart(c) || '0' <= c <= '9' }

  /** ^[A-Za-z_][A-Za-z0-9_]*$ */
  predicate ValidEnvKey(k: string)
  {
    k != "" && NameStart(k[0]) && forall i :: 0 <= i < |k| ==> NameChar(k[i])
  }

  /** Letters, digits and underscores, the first no digit. */
  lemma ValidKeyMeans(k: string)
    ensures ValidEnvKey(k) <==>
              && k != "" && !('0' <= k[0] <= '9')
              && forall c :: c in k ==> 'A' <= c <= 'Z' || 'a' <= c <= 'z' || '0' <= c <= '9' || c == '_'
  {
    forall i | 0 <= i < |k|
      ensures k[i] in k
    {
    }
  }

  datatype BuildError = EmptyCommand | InvalidKey(key: string)

  function AssignmentPart(p: (string, string)): string { p.0 + "=" + ShellQuote(p.1) }

  // ---------------------------------------------------------------- reading by the shell

  /** One character of a word, and whether it was quoted. */
  datatype Cell = Bare(c: char) | Quoted(c: char)

  type Word = seq<Cell>

  /** Characters that mean themselves outside quotes. The others are delimiters, quotes, or start an
    * expansion, a redirection, an operator, a pattern or a comment; the reader below gives up on the latter. */
  predicate Plain(c: char)
  {
    c !in {' ', '\t', '\n', '\r', '\'', '"', '\\', '$', '`', '|', '&', ';', '<', '>', '(', ')', '*', '?', '[', '#', '~'}
  }

  function Append(cur: Option<Word>, w: Word): Option<Word>
  {
    Some((if cur.Some? then cur.value else []) + w)
  }

  /** The words of a line, from the middle of one if `cur` holds its beginning, inside single quotes if
    * `quoted`. No result means an unclosed quote or a character outside the modelled fragment. */
  function Scan(s: string, quoted: bool, cur: Option<Word>): Option<seq<Word>>
    decreases |s|
  {
    if s == "" then
      if quoted then None else Some(if cur.Some? then [cur.value] else [])
    else if quoted then
      if s[0] == '\'' then Scan(s[1..], false, Append(cur, [])) else Scan(s[1..], true, Append(cur, [Quoted(s[0])]))
    else if s[0] == ' ' || s[0] == '\t' then
      var rest := Scan(s[1..], false, None);
      if rest.None? then None else Some((if cur.Some? then [cur.value] else []) + rest.value)
    else if s[0] == '\'' then Scan(s[1..], true, Append(cur, []))
    else if s[0] == '\\' then
      if |s| == 1 then None
      else if s[1] == '\n' then Scan(s[2..], false, cur)
      else Scan(s[2..], false, Append(cur, [Quoted(s[1])]))
    else if Plain(s[0]) then Scan(s[1..], false, Append(cur, [Bare(s[0])]))
    else None
  }

  /** Quote removal. */
  function Chars(w: Word): string
  {
    if w == [] then "" else [w[0].c] + Chars(w[1..])
  }

  /** The position of the unquoted '=' that makes a word an assignment, or -1. */
  function EqualsAt(w: Word, i: nat): (r: int)
    requires i <= |w|
    ensures r < |w|
    decreases |w| - i
  {
    if i == |w| then -1
    else if w[i] == Bare('=') then if i > 0 then i else -1
    else if w[i].Bare? && NameChar(w[i].c) && (i == 0 ==> NameStart(w[i].c)) then EqualsAt(w, i + 1)
    else -1
  }

  datatype Simple = Simple(assigns: seq<(string, string)>, words: seq<string>)

  /** Leading assignment words, then the command name and its arguments. */
  function Command(words: seq<Word>): Simple
  {
    if words == [] then Simple([], [])
    else
      var e := EqualsAt(words[0], 0);
      if e < 0 then Simple([], AllChars(words))
      else
        var rest := Command(words[1..]);
        Simple([(Chars(words[0][..e]), Chars(words[0][e + 1..]))] + rest.assigns, rest.words)
  }

  function AllChars(words: seq<Word>): seq<string>
  {
    if words == [] then [] else [Chars(words[0])] + AllChars(words[1..])
  }

  function ParseLine(line: string): Option<Simple>
  {
    var words := Scan(line, false, None);
    if words.None? then None else Some(Command(words.value))
  }

  // ---------------------------------------------------------------- scanning what the builders print

  function BareWord(s: string): (w: Word)
    ensures |w| == |s| && forall i :: 0 <= i < |s| ==> w[i] == Bare(s[i])
  {
    if s == "" then [] else [Bare(s[0])] + BareWord(s[1..])
  }

  function QuotedWord(s: string): (w: Word)
    ensures |w| == |s| && forall i :: 0 <= i < |s| ==> w[i] == Quoted(s[i])
  {
    if s == "" then [] else [Quoted(s[0])] + QuotedWord(s[1..])
  }

  predicate AllPlain(s: string) { forall i :: 0 <= i < |s| ==> Plain(s[i]) }

  function Started(cur: Option<Word>): Word { if cur.Some? then cur.value else [] }

  lemma ScanOne(c: char, rest: string, cur: Option<Word>)
    requires Plain(c)
    ensures Scan([c] + rest, false, cur) == Scan(rest, false, Some(Started(cur) + [Bare(c)]))
  {
  }

  lemma {:induction false} ScanPlain(p: string, rest: string, cur: Option<Word>)
    requires p != "" && AllPlain(p)
    ensures Scan(p + rest, false, cur) == Scan(rest, false, Some(Started(cur) + BareWord(p)))
    decreases |p|
  {
    ScanOne(p[0], p[1..] + rest, cur);
    assert p + rest == [p[0]] + (p[1..] + rest);
    if |p| == 1 {
      assert p[1..] + rest == rest && BareWord(p) == [Bare(p[0])];
    } else {
      ScanPlain(p[1..], rest, Some(Started(cur) + [Bare(p[0])]));
      FirstAndRest(Started(cur), [Bare(p[0])], BareWord(p[1..]));
    }
  }

  /** The escaped form of one character, inside single quotes. */
  function QuoteMark(c: char): string { if c == '\'' then "'\\''" else [c] }

  lemma ReplaceStep(v: string, rest: string)
    requires v != ""
    ensures ReplaceAll(v, '\'', "'\\''") + rest == QuoteMark(v[0]) + (ReplaceAll(v[1..], '\'', "'\\''") + rest)
  {
  }

  lemma ScanInQuotes(c: char, tail: string, w: Word)
    ensures Scan(QuoteMark(c) + tail, true, Some(w)) == Scan(tail, true, Some(w + [Quoted(c)]))
  {
    if c == '\'' {
      ScanQuoteMark(tail, w);
    } else {
      assert ([c] + tail)[1..] == tail;
    }
  }

  /** Inside quotes, the escaped text is read back one character at a time; `'\''` closes the quotes,
    * adds a quote character and opens them again. */
  lemma {:induction false} ScanEscaped(v: string, rest: string, w: Word)
    ensures Scan(ReplaceAll(v, '\'', "'\\''") + rest, true, Some(w)) == Scan(rest, true, Some(w + QuotedWord(v)))
  {
    if v == "" {
      assert "" + rest == rest && w + QuotedWord(v) == w;
    } else {
      ReplaceStep(v, rest);
      ScanInQuotes(v[0], ReplaceAll(v[1..], '\'', "'\\''") + rest, w);
      ScanEscaped(v[1..], rest, w + [Quoted(v[0])]);
      FirstAndRest(w, [Quoted(v[0])], QuotedWord(v[1..]));
    }
  }

  lemma ScanQuoteMark(tail: string, w: Word)
    ensures Scan("'\\''" + tail, true, Some(w)) == Scan(tail, true, Some(w + [Quoted('\'')]))
  {
    var s := "'\\''" + tail;
    assert s[1..] == "\\''" + tail;
    assert s[1..][2..] == "'" + tail;
    assert s[1..][2..][1..] == tail;
    assert w + [] == w && w + [Quoted('\'')] + [] == w + [Quoted('\'')];
    assert Scan(s, true, Some(w)) == Scan(s[1..], false, Some(w));
    assert Scan(s[1..], false, Some(w)) == Scan(s[1..][2..], false, Some(w + [Quoted('\'')]));
  }

  lemma ScanQuote(v: string, rest: string, cur: Option<Word>)
    ensures Scan(ShellQuote(v) + rest, false, cur) == Scan(rest, false, Some(Started(cur) + QuotedWord(v)))
  {
    var body := ReplaceAll(v, '\'', "'\\''");
    var s := ShellQuote(v) + rest;
    var w := Started(cur);
    assert s[0] == '\'' && s[1..] == body + ("'" + rest);
    assert w + [] == w;
    assert Scan(s, false, cur) == Scan(body + ("'" + rest), true, Some(w));
    ScanEscaped(v, "'" + rest, w);
    assert ("'" + rest)[1..] == rest;
    assert w + QuotedWord(v) + [] == w + QuotedWord(v);
  }

  /** A printed part and the word the shell reads it as. */
  ghost predicate Reads(part: string, word: Word)
  {
    forall rest :: Scan(part + rest, false, None) == Scan(rest, false, Some(word))
  }

  lemma PlainReads(p: string)
    requires p != "" && AllPlain(p)
    ensures Reads(p, BareWord(p))
  {
    forall rest ensures Scan(p + rest, false, None) == Scan(rest, false, Some(BareWord(p))) {
      ScanPlain(p, rest, None);
      assert [] + BareWord(p) == BareWord(p);
    }
  }

  lemma QuoteReads(v: string)
    ensures Reads(ShellQuote(v), QuotedWord(v))
  {
    forall rest ensures Scan(ShellQuote(v) + rest, false, None) == Scan(rest, false, Some(QuotedWord(v))) {
      ScanQuote(v, rest, None);
      assert [] + QuotedWord(v) == QuotedWord(v);
    }
  }

  function AssignmentWord(p: (string, string)): Word { BareWord(p.0 + "=") + QuotedWord(p.1) }

  lemma AssignmentReads(p: (string, string))
    requires ValidEnvKey(p.0)
    ensures Reads(AssignmentPart(p), AssignmentWord(p))
  {
    var name := p.0 + "=";
    assert AllPlain(name) by {
      forall i | 0 <= i < |name| ensures Plain(name[i]) {
        assert i < |p.0| ==> NameChar(p.0[i]);
      }
    }
    forall rest ensures Scan(AssignmentPart(p) + rest, false, None) == Scan(rest, false, Some(AssignmentWord(p))) {
      assert AssignmentPart(p) + rest == name + (ShellQuote(p.1) + rest);
      ScanPlain(name, ShellQuote(p.1) + rest, None);
      assert [] + BareWord(name) == BareWord(name);
      ScanQuote(p.1, rest, Some(BareWord(name)));
    }
  }

  /** Parts joined by single spaces read as their words. */
  lemma {:induction false} ScanParts(parts: seq<string>, words: seq<Word>)
    requires |parts| == |words| && forall i :: 0 <= i < |parts| ==> Reads(parts[i], words[i])
    ensures Scan(Join(parts, " "), false, None) == Some(words)
    decreases |parts|
  {
    if |parts| == 1 {
      assert Reads(parts[0], words[0]);
      assert parts[0] + "" == parts[0];
      assert words == [words[0]];
    } else if |parts| > 1 {
      assert Reads(parts[0], words[0]);
      var rest := " " + Join(parts[1..], " ");
      assert Join(parts, " ") == parts[0] + rest;
      assert rest[1..] == Join(parts[1..], " ");
      ScanParts(parts[1..], words[1..]);
      assert [words[0]] + words[1..] == words;
    }
  }

  // ---------------------------------------------------------------- from words to the command

  lemma {:induction false} CharsOfBare(s: string)
    ensures Chars(BareWord(s)) == s
  {
    if s != "" {
      CharsOfBare(s[1..]);
      assert BareWord(s)[1..] == BareWord(s[1..]);
    }
  }

  lemma {:induction false} CharsOfQuoted(s: string)
    ensures Chars(QuotedWord(s)) == s
  {
    if s != "" {
      CharsOfQuoted(s[1..]);
      assert QuotedWord(s)[1..] == QuotedWord(s[1..]);
    }
  }

  lemma {:induction false} EqualsAfterName(w: Word, key: string, i: nat)
    requires ValidEnvKey(key) && i <= |key| < |w| && w[|key|] == Bare('=')
    requires forall j :: 0 <= j < |key| ==> w[j] == Bare(key[j])
    ensures EqualsAt(w, i) == |key|
    decreases |key| - i
  {
    if i < |key| {
      assert NameChar(key[i]);
      EqualsAfterName(w, key, i + 1);
    }
  }

  lemma AssignmentSplits(p: (string, string))
    requires ValidEnvKey(p.0)
    ensures var w := AssignmentWord(p);
            var e := EqualsAt(w, 0);
            e == |p.0| && Chars(w[..e]) == p.0 && Chars(w[e + 1..]) == p.1
  {
    var w := AssignmentWord(p);
    assert BareWord(p.0 + "=")[|p.0|] == Bare('=');
    EqualsAfterName(w, p.0, 0);
    assert w[..|p.0|] == BareWord(p.0);
    assert w[|p.0| + 1..] == QuotedWord(p.1);
    CharsOfBare(p.0);
    CharsOfQuoted(p.1);
  }

  /** A command that the shell takes as it stands: one word of plain characters, and no assignment. */
  predicate PlainWord(cmd: string) { cmd != "" && AllPlain(cmd) && '=' !in cmd }

  lemma {:induction false} NoEquals(cmd: string, i: nat)
    requires '=' !in cmd && i <= |cmd|
    ensures EqualsAt(BareWord(cmd), i) < 0
    decreases |cmd| - i
  {
    if i < |cmd| {
      assert cmd[i] in cmd && BareWord(cmd)[i] == Bare(cmd[i]);
      NoEquals(cmd, i + 1);
    }
  }

  function QuotedWords(args: seq<string>): (ws: seq<Word>)
    ensures |ws| == |args| && forall i :: 0 <= i < |args| ==> ws[i] == QuotedWord(args[i])
  {
    if args == [] then [] else [QuotedWord(args[0])] + QuotedWords(args[1..])
  }

  lemma {:induction false} ArgumentsRead(args: seq<string>)
    ensures AllChars(QuotedWords(args)) == args
  {
    if args != [] {
      CharsOfQuoted(args[0]);
      ArgumentsRead(args[1..]);
      assert QuotedWords(args)[1..] == QuotedWords(args[1..]);
    }
  }

  function AssignmentWords(assigns: seq<(string, string)>): (ws: seq<Word>)
    ensures |ws| == |assigns| && forall i :: 0 <= i < |assigns| ==> ws[i] == AssignmentWord(assigns[i])
  {
    if assigns == [] then [] else [AssignmentWord(assigns[0])] + AssignmentWords(assigns[1..])
  }

  predicate ValidKeys(assigns: seq<(string, string)>) { forall p :: p in assigns ==> ValidEnvKey(p.0) }

  /** One more assignment word in front. */
  lemma CommandStep(p: (string, string), words: seq<Word>)
    requires ValidEnvKey(p.0)
    ensures Command([AssignmentWord(p)] + words) == Simple([p] + Command(words).assigns, Command(words).words)
  {
    AssignmentSplits(p);
    assert ([AssignmentWord(p)] + words)[1..] == words;
  }

  lemma {:induction false} AllCharsOfBoth(words: seq<Word>, more: seq<Word>)
    ensures AllChars(words + more) == AllChars(words) + AllChars(more)
  {
    if words == [] {
      assert words + more == more;
    } else {
      AllCharsOfBoth(words[1..], more);
      assert (words + more)[1..] == words[1..] + more;
    }
  }

  lemma QuotedIsNoAssignment(args: seq<string>)
    ensures Command(QuotedWords(args)) == Simple([], args)
  {
    ArgumentsRead(args);
    if args != [] {
      assert QuotedWords(args)[0] == QuotedWord(args[0]);
      assert EqualsAt(QuotedWord(args[0]), 0) < 0;
    }
  }

  /** Quoted arguments after any words are arguments, or the command if there was none: never assignments. */
  lemma {:induction false} CommandThenArguments(words: seq<Word>, args: seq<string>)
    ensures Command(words + QuotedWords(args)) == Simple(Command(words).assigns, Command(words).words + args)
  {
    QuotedIsNoAssignment(args);
    var all := words + QuotedWords(args);
    if words == [] {
      assert all == QuotedWords(args);
    } else {
      assert all[0] == words[0] && all[1..] == words[1..] + QuotedWords(args);
      if EqualsAt(words[0], 0) < 0 {
        ArgumentsRead(args);
        AllCharsOfBoth(words, QuotedWords(args));
      } else {
        CommandThenArguments(words[1..], args);
      }
    }
  }

  lemma {:induction false} CommandOfWords(assigns: seq<(string, string)>, last: seq<Word>)
    requires ValidKeys(assigns)
    ensures Command(AssignmentWords(assigns) + last) == Simple(assigns + Command(last).assigns, Command(last).words)
    decreases |assigns|
  {
    if assigns == [] {
      assert AssignmentWords(assigns) + last == last;
      assert assigns + Command(last).assigns == Command(last).assigns;
    } else {
      assert assigns[0] in assigns;
      CommandOfWords(assigns[1..], last);
      CommandStep(assigns[0], AssignmentWords(assigns[1..]) + last);
      FirstAndRest([AssignmentWord(assigns[0])], AssignmentWords(assigns[1..]), last);
      FirstAndRest([assigns[0]], assigns[1..], Command(last).assigns);
      assert [assigns[0]] + assigns[1..] == assigns;
    }
  }

  lemma FirstAndRest<T>(a: seq<T>, b: seq<T>, c: seq<T>)
    ensures a + (b + c) == (a + b) + c
  {
  }

  function AssignmentParts(assigns: seq<(string, string)>): (ps: seq<string>)
    ensures |ps| == |assigns| && forall i :: 0 <= i < |assigns| ==> ps[i] == AssignmentPart(assigns[i])
  {
    if assigns == [] then [] else [AssignmentPart(assigns[0])] + AssignmentParts(assigns[1..])
  }

  function QuotedParts(args: seq<string>): (ps: seq<string>)
    ensures |ps| == |args| && forall i :: 0 <= i < |args| ==> ps[i] == ShellQuote(args[i])
  {
    if args == [] then [] else [ShellQuote(args[0])] + QuotedParts(args[1..])
  }

  /** What the builder prints for the given order of the environment. */
  function Printed(assigns: seq<(string, string)>, cmd: string, args: seq<string>): string
  {
    Join(AssignmentParts(assigns) + [cmd] + QuotedParts(args), " ")
  }

  /** A part of a line ends here. */
  predicate Ends(rest: string) { rest == "" || rest[0] == ' ' }

  function WithFirst(words: seq<Word>, rest: Option<seq<Word>>): Option<seq<Word>>
  {
    if rest.None? then None else Some(words + rest.value)
  }

  lemma SpaceSplits(words: seq<Word>, cur: Option<Word>, rest: string)
    requires words == (if cur.Some? then [cur.value] else []) && Ends(rest)
    ensures Scan(rest, false, cur) == WithFirst(words, Scan(rest, false, None))
  {
    if rest == "" {
      assert words + [] == words;
    } else if Scan(rest[1..], false, None).Some? {
      assert [] + Scan(rest[1..], false, None).value == Scan(rest[1..], false, None).value;
    }
  }

  /** Where the scanner stands after one character, other than an unquoted blank or backslash. */
  lemma ScanStep(s: string, quoted: bool, cur: Option<Word>)
    requires s != "" && Scan(s, quoted, cur).Some? && (quoted || s[0] !in {' ', '\t', '\\'})
    ensures var q := if s[0] == '\'' then !quoted else quoted;
            var w := if s[0] == '\'' then [] else if quoted then [Quoted(s[0])] else [Bare(s[0])];
            forall rest :: Scan([s[0]] + rest, quoted, cur) == Scan(rest, q, Append(cur, w))
  {
    forall rest
      ensures var q := if s[0] == '\'' then !quoted else quoted;
              var w := if s[0] == '\'' then [] else if quoted then [Quoted(s[0])] else [Bare(s[0])];
              Scan([s[0]] + rest, quoted, cur) == Scan(rest, q, Append(cur, w))
    {
      assert ([s[0]] + rest)[1..] == rest;
    }
  }

  lemma ScanEscape(s: string, cur: Option<Word>)
    requires |s| >= 2 && s[0] == '\\'
    ensures Scan(s, false, cur) == Scan(s[2..], false, if s[1] == '\n' then cur else Append(cur, [Quoted(s[1])]))
  {
  }

  /** Whatever words a command text reads as by itself, it reads as them in front of anything. */
  lemma {:induction false} ScanCommand(cmd: string, quoted: bool, cur: Option<Word>, words: seq<Word>, rest: string)
    requires Scan(cmd, quoted, cur) == Some(words) && Ends(rest)
    ensures Scan(cmd + rest, quoted, cur) == WithFirst(words, Scan(rest, false, None))
    decreases |cmd|
  {
    if cmd == "" {
      assert cmd + rest == rest;
      SpaceSplits(words, cur, rest);
    } else if quoted || cmd[0] !in {' ', '\t', '\\'} {
      ScanStep(cmd, quoted, cur);
      assert cmd == [cmd[0]] + cmd[1..] && cmd + rest == [cmd[0]] + (cmd[1..] + rest);
      var w := if cmd[0] == '\'' then [] else if quoted then [Quoted(cmd[0])] else [Bare(cmd[0])];
      ScanCommand(cmd[1..], if cmd[0] == '\'' then !quoted else quoted, Append(cur, w), words, rest);
    } else if cmd[0] == '\\' {
      ScanEscape(cmd, cur);
      ScanEscape(cmd + rest, cur);
      assert (cmd + rest)[2..] == cmd[2..] + rest;
      ScanCommand(cmd[2..], false, if cmd[1] == '\n' then cur else Append(cur, [Quoted(cmd[1])]), words, rest);
    } else {
      ScanBlank(cmd, cur, words, rest);
    }
  }

  lemma {:induction false} ScanBlank(cmd: string, cur: Option<Word>, words: seq<Word>, rest: string)
    requires cmd != "" && cmd[0] in {' ', '\t'}
    requires Scan(cmd, false, cur) == Some(words) && Ends(rest)
    ensures Scan(cmd + rest, false, cur) == WithFirst(words, Scan(rest, false, None))
    decreases |cmd|, 0
  {
    var more := Scan(cmd[1..], false, None).value;
    ScanCommand(cmd[1..], false, None, more, rest);
    assert (cmd + rest)[1..] == cmd[1..] + rest;
    var done := if cur.Some? then [cur.value] else [];
    if Scan(rest, false, None).Some? {
      FirstAndRest(done, more, Scan(rest, false, None).value);
    }
  }

  lemma {:induction false} ArgumentsScan(args: seq<string>)
    ensures Scan(Join(QuotedParts(args), " "), false, None) == Some(QuotedWords(args))
  {
    var parts, words := QuotedParts(args), QuotedWords(args);
    forall i | 0 <= i < |parts|
      ensures Reads(parts[i], words[i])
    {
      QuoteReads(args[i]);
    }
    ScanParts(parts, words);
  }

  lemma JoinFirst(part: string, parts: seq<string>)
    ensures Join([part] + parts, " ") == if parts == [] then part else part + (" " + Join(parts, " "))
  {
    assert ([part] + parts)[1..] == parts;
  }

  lemma AfterSpace(text: string)
    ensures Scan(" " + text, false, None) == Scan(text, false, None)
    ensures forall w :: Scan(" " + text, false, Some(w)) == WithFirst([w], Scan(text, false, None))
  {
    assert (" " + text)[1..] == text;
    if Scan(text, false, None).Some? {
      assert [] + Scan(text, false, None).value == Scan(text, false, None).value;
    }
  }

  /** The command and its arguments, as printed after the assignments. */
  lemma CommandScans(cmd: string, args: seq<string>, words: seq<Word>)
    requires Scan(cmd, false, None) == Some(words)
    ensures Scan(Join([cmd] + QuotedParts(args), " "), false, None) == Some(words + QuotedWords(args))
  {
    ArgumentsScan(args);
    JoinFirst(cmd, QuotedParts(args));
    if args == [] {
      assert words + QuotedWords(args) == words;
    } else {
      var text := Join(QuotedParts(args), " ");
      AfterSpace(text);
      ScanCommand(cmd, false, None, words, " " + text);
    }
  }

  lemma PrintedFirst(assigns: seq<(string, string)>, cmd: string, args: seq<string>)
    requires assigns != []
    ensures Printed(assigns, cmd, args) == AssignmentPart(assigns[0]) + (" " + Printed(assigns[1..], cmd, args))
  {
    var more := AssignmentParts(assigns[1..]) + [cmd] + QuotedParts(args);
    assert AssignmentParts(assigns) + [cmd] + QuotedParts(args) == [AssignmentPart(assigns[0])] + more;
    JoinFirst(AssignmentPart(assigns[0]), more);
  }

  lemma AssignmentScans(p: (string, string), text: string, words: seq<Word>)
    requires ValidEnvKey(p.0) && Scan(text, false, None) == Some(words)
    ensures Scan(AssignmentPart(p) + (" " + text), false, None) == Some([AssignmentWord(p)] + words)
  {
    AssignmentReads(p);
    AfterSpace(text);
    assert Reads(AssignmentPart(p), AssignmentWord(p));
  }

  lemma NoAssignments(cmd: string, args: seq<string>, words: seq<Word>)
    ensures Printed([], cmd, args) == Join([cmd] + QuotedParts(args), " ")
    ensures AssignmentWords([]) + (words + QuotedWords(args)) == words + QuotedWords(args)
  {
    assert [] + [cmd] + QuotedParts(args) == [cmd] + QuotedParts(args);
  }

  lemma FirstAssignment(assigns: seq<(string, string)>, words: seq<Word>)
    requires assigns != []
    ensures [AssignmentWord(assigns[0])] + (AssignmentWords(assigns[1..]) + words) == AssignmentWords(assigns) + words
  {
    FirstAndRest([AssignmentWord(assigns[0])], AssignmentWords(assigns[1..]), words);
  }

  /** A line scans to the assignment words, then to what the command text scans to by itself, then to one
    * word for each argument. */
  lemma {:induction false} LineScans(assigns: seq<(string, string)>, cmd: string, args: seq<string>, words: seq<Word>)
    requires ValidKeys(assigns) && Scan(cmd, false, None) == Some(words)
    ensures Scan(Printed(assigns, cmd, args), false, None) == Some(AssignmentWords(assigns) + (words + QuotedWords(args)))
    decreases |assigns|
  {
    if assigns == [] {
      CommandScans(cmd, args, words);
      NoAssignments(cmd, args, words);
    } else {
      assert assigns[0] in assigns;
      LineScans(assigns[1..], cmd, args, words);
      PrintedFirst(assigns, cmd, args);
      var more := AssignmentWords(assigns[1..]) + (words + QuotedWords(args));
      AssignmentScans(assigns[0], Printed(assigns[1..], cmd, args), more);
      FirstAssignment(assigns, words + QuotedWords(args));
    }
  }

  /** The shell reads a printed line as these assignments, then exactly as the command text by itself,
    * then these arguments, whatever characters the values and arguments contain. */
  lemma ShellReadsBack(assigns: seq<(string, string)>, cmd: string, args: seq<string>)
    requires ValidKeys(assigns) && ParseLine(cmd).Some?
    ensures ParseLine(Printed(assigns, cmd, args))
            == Some(Simple(assigns + ParseLine(cmd).value.assigns, ParseLine(cmd).value.words + args))
  {
    var words := Scan(cmd, false, None).value;
    LineScans(assigns, cmd, args, words);
    CommandThenArguments(words, args);
    CommandOfWords(assigns, words + QuotedWords(args));
  }

  /** A plain word by itself is the name of the command. */
  lemma PlainWordParses(cmd: string)
    requires PlainWord(cmd)
    ensures ParseLine(cmd) == Some(Simple([], [cmd]))
  {
    PlainReads(cmd);
    assert Reads(cmd, BareWord(cmd)) && cmd + "" == cmd;
    var words := [BareWord(cmd)];
    assert Scan("", false, Some(BareWord(cmd))) == Some(words);
    NoEquals(cmd, 0);
    CharsOfBare(cmd);
    assert words[1..] == [] && AllChars(words) == [cmd];
  }

  lemma ReadsBackEither(assigns: seq<(string, string)>, cmd: string, args: seq<string>)
    requires ValidKeys(assigns)
    ensures ParseLine(cmd).Some? ==>
              ParseLine(Printed(assigns, cmd, args))
              == Some(Simple(assigns + ParseLine(cmd).value.assigns, ParseLine(cmd).value.words + args))
    ensures PlainWord(cmd) ==> ParseLine(Printed(assigns, cmd, args)) == Some(Simple(assigns, [cmd] + args))
  {
    if PlainWord(cmd) {
      PlainWordParses(cmd);
      assert assigns + [] == assigns;
    }
    if ParseLine(cmd).Some? {
      ShellReadsBack(assigns, cmd, args);
    }
  }

  /** `assigns` lists the entries of `env`, each once. */
  ghost predicate Lists(assigns: seq<(string, string)>, env: map<string, string>)
  {
    && |assigns| == |env|
    && (forall k :: k in env ==> (k, env[k]) in assigns)
    && (forall p :: p in assigns ==> p.0 in env && env[p.0] == p.1)
  }

  lemma SomeKey(keys: set<string>)
    ensures keys == {} || exists k :: k in keys
  {
  }

  /** The map is ranged over in any order. The call fails exactly for an empty command or a key that is
    * no shell name. Otherwise the shell reads the line as the environment, then as it would read the
    * command text alone, which is printed unquoted, then the arguments: no value and no argument changes
    * its meaning. A plain word is read as the command itself. */
  method BuildShellCommand(env: map<string, string>, cmd: string, args: seq<string>) returns (r: Result<string, BuildError>)
    ensures r.Err? <==> cmd == "" || exists k :: k in env && !ValidEnvKey(k)
    ensures r.Ok? && ParseLine(cmd).Some? ==>
              exists assigns :: Lists(assigns, env)
                                && ParseLine(r.value) == Some(Simple(assigns + ParseLine(cmd).value.assigns,
                                                                     ParseLine(cmd).value.words + args))
    ensures r.Ok? && PlainWord(cmd) ==>
              exists assigns :: Lists(assigns, env) && ParseLine(r.value) == Some(Simple(assigns, [cmd] + args))
  {
    if cmd == "" {
      return Err(EmptyCommand);
    }
    var parts: seq<string> := [];
    ghost var assigns: seq<(string, string)> := [];
    var left := env.Keys;
    while left != {}
      invariant left <= env.Keys && |assigns| + |left| == |env.Keys|
      invariant forall k :: k in env.Keys - left ==> (k, env[k]) in assigns
      invariant forall p :: p in assigns ==> p.0 in env && env[p.0] == p.1 && ValidEnvKey(p.0)
      invariant parts == AssignmentParts(assigns)
      decreases |left|
    {
      SomeKey(left);
      var k :| k in left;
      if !ValidEnvKey(k) {
        return Err(InvalidKey(k));
      }
      PartsGrow(assigns, (k, env[k]));
      parts := parts + [k + "=" + ShellQuote(env[k])];
      assigns := assigns + [(k, env[k])];
      left := left - {k};
    }
    parts := parts + [cmd];
    for i := 0 to |args|
      invariant parts == AssignmentParts(assigns) + [cmd] + QuotedParts(args[..i])
    {
      QuotesGrow(args, i);
      parts := parts + [ShellQuote(args[i])];
    }
    assert args[..|args|] == args;
    assert forall k :: k in env ==> k in env.Keys - left;
    assert Lists(assigns, env);
    ReadsBackEither(assigns, cmd, args);
    return Ok(Join(parts, " "));
  }

  lemma {:induction false} PartsGrow(assigns: seq<(string, string)>, p: (string, string))
    ensures AssignmentParts(assigns + [p]) == AssignmentParts(assigns) + [AssignmentPart(p)]
  {
  }

  lemma QuotesGrow(args: seq<string>, i: nat)
    requires i < |args|
    ensures QuotedParts(args[..i + 1]) == QuotedParts(args[..i]) + [ShellQuote(args[i])]
  {
  }

  // ---------------------------------------------------------------- AppleScript

  datatype Terminal = TerminalApp | ITerm2 | OtherTerminal

  function EscapeAppleScript(s: string): string
  {
    ReplaceAll(ReplaceAll(s, '\\', "\\\\"), '"', "\\\"")
  }

  const TELL: string := "tell application "
  const DO_SCRIPT: string := " to do script "
  const IN_WINDOW: string := " to tell current window"
  const NEW_TAB: string := " to create tab with default profile command "

  function BuildAppleScript(terminal: Terminal, shellCmd: string): string
  {
    match terminal
    case TerminalApp => TELL + "\"Terminal\"" + DO_SCRIPT + "\"" + EscapeAppleScript(shellCmd) + "\""
    case ITerm2 => TELL + "\"iTerm2\"" + (IN_WINDOW + NEW_TAB) + "\"" + EscapeAppleScript(shellCmd) + "\""
    case OtherTerminal => ""
  }

  /** Reads an AppleScript string literal after its opening quote: the text up to the first closing
    * quote with its escapes undone, and what follows. */
  function Literal(s: string): Option<(string, string)>
  {
    if s == "" then None
    else if s[0] == '"' then Some(("", s[1..]))
    else if s[0] == '\\' then
      if |s| == 1 then None
      else if s[1] in {'\\', '"', 'n', 't', 'r'} then
        Prepend(if s[1] == 'n' then '\n' else if s[1] == 't' then '\t' else if s[1] == 'r' then '\r' else s[1], Literal(s[2..]))
      else None
    else Prepend(s[0], Literal(s[1..]))
  }

  function Prepend(c: char, r: Option<(string, string)>): Option<(string, string)>
  {
    if r.None? then None else Some(([c] + r.value.0, r.value.1))
  }

  function EscapeChar(c: char): string
  {
    if c == '\\' then "\\\\" else if c == '"' then "\\\"" else [c]
  }

  /** Replacing backslashes first and quotes second escapes each character once. */
  lemma {:induction false} EscapeByChar(s: string)
    ensures s == "" ==> EscapeAppleScript(s) == ""
    ensures s != "" ==> EscapeAppleScript(s) == EscapeChar(s[0]) + EscapeAppleScript(s[1..])
  {
    if s != "" {
      var first := if s[0] == '\\' then "\\\\" else [s[0]];
      var rest := ReplaceAll(s[1..], '\\', "\\\\");
      ReplaceOverConcat(first, rest, '"', "\\\"");
      assert ReplaceAll(first, '"', "\\\"") == EscapeChar(s[0]) by {
        if s[0] == '\\' {
          assert first[1..] == "\\" && "\\"[1..] == "";
        } else {
          assert first[1..] == "";
        }
      }
    }
  }

  lemma {:induction false} ReplaceOverConcat(a: string, b: string, c: char, sub: string)
    ensures ReplaceAll(a + b, c, sub) == ReplaceAll(a, c, sub) + ReplaceAll(b, c, sub)
  {
    if a == "" {
      assert a + b == b;
    } else {
      assert (a + b)[1..] == a[1..] + b;
      ReplaceOverConcat(a[1..], b, c, sub);
    }
  }

  /** The literal is the command itself and ends at the quote the builder put after it, not before. */
  lemma {:induction false} LiteralReadsBack(cmd: string, rest: string)
    ensures Literal(EscapeAppleScript(cmd) + "\"" + rest) == Some((cmd, rest))
  {
    var s := EscapeAppleScript(cmd) + "\"" + rest;
    EscapeByChar(cmd);
    if cmd == "" {
      assert s == "\"" + rest && s[1..] == rest;
    } else {
      var tail := EscapeAppleScript(cmd[1..]) + "\"" + rest;
      LiteralReadsBack(cmd[1..], rest);
      assert s == EscapeChar(cmd[0]) + tail;
      if cmd[0] in {'\\', '"'} {
        assert s[0] == '\\' && s[1] == cmd[0] && s[2..] == tail;
      } else {
        assert s[0] == cmd[0] && s[1..] == tail;
      }
      assert [cmd[0]] + cmd[1..] == cmd;
    }
  }

  /** All string literals of a script, from left to right. */
  function Literals(script: string): Option<seq<string>>
    decreases |script|
  {
    if script == "" then Some([])
    else if script[0] != '"' then Literals(script[1..])
    else
      var l := Literal(script[1..]);
      if l.None? || |l.value.1| >= |script| then None
      else
        var rest := Literals(l.value.1);
        if rest.None? then None else Some([l.value.0] + rest.value)
  }

  predicate NoQuote(p: string) { forall i :: 0 <= i < |p| ==> p[i] != '"' }

  lemma {:induction false} SkipToLiteral(p: string, rest: string)
    requires NoQuote(p)
    ensures Literals(p + rest) == Literals(rest)
  {
    if p == "" {
      assert p + rest == rest;
    } else {
      assert (p + rest)[1..] == p[1..] + rest;
      SkipToLiteral(p[1..], rest);
    }
  }

  function Before(text: string, more: Option<seq<string>>): Option<seq<string>>
  {
    if more.None? then None else Some([text] + more.value)
  }

  lemma NextLiteral(text: string, rest: string)
    ensures Literals("\"" + (EscapeAppleScript(text) + "\"" + rest)) == Before(text, Literals(rest))
  {
    var s := EscapeAppleScript(text) + "\"" + rest;
    LiteralReadsBack(text, rest);
    assert ("\"" + s)[1..] == s;
    assert |rest| < |"\"" + s|;
  }

  predicate NeedsNoEscape(s: string) { forall i :: 0 <= i < |s| ==> s[i] != '"' && s[i] != '\\' }

  lemma {:induction false} NoEscapes(s: string)
    requires NeedsNoEscape(s)
    ensures EscapeAppleScript(s) == s
  {
    EscapeByChar(s);
    if s != "" {
      NoEscapes(s[1..]);
      assert [s[0]] + s[1..] == s;
    }
  }

  /** A script of the builders' form holds two literals: the application, and the shell command. */
  lemma TwoLiterals(p: string, app: string, q: string, cmd: string)
    requires NoQuote(p) && NoQuote(q) && NeedsNoEscape(app)
    ensures Literals(p + ("\"" + (app + "\"" + (q + ("\"" + (EscapeAppleScript(cmd) + "\"" + "")))))) == Some([app, cmd])
  {
    var last := "\"" + (EscapeAppleScript(cmd) + "\"" + "");
    NextLiteral(cmd, "");
    assert Literals(last) == Some([cmd] + []);
    SkipToLiteral(q, last);
    NoEscapes(app);
    NextLiteral(app, q + last);
    SkipToLiteral(p, "\"" + (app + "\"" + (q + last)));
    assert [app] + ([cmd] + []) == [app, cmd];
  }

  lemma Regroup(p: string, app: string, quoted: string, q: string, e: string)
    requires quoted == "\"" + app + "\""
    ensures p + quoted + q + "\"" + e + "\"" == p + ("\"" + (app + "\"" + (q + ("\"" + (e + "\"" + "")))))
  {
  }

  /** The script the terminal is given holds the application name and exactly the shell command. */
  lemma ScriptHoldsCommand(terminal: Terminal, cmd: string)
    requires terminal != OtherTerminal
    ensures Literals(BuildAppleScript(terminal, cmd))
            == Some([if terminal == TerminalApp then "Terminal" else "iTerm2", cmd])
  {
    if terminal == TerminalApp {
      TwoLiterals(TELL, "Terminal", DO_SCRIPT, cmd);
      Regroup(TELL, "Terminal", "\"Terminal\"", DO_SCRIPT, EscapeAppleScript(cmd));
    } else {
      assert NoQuote(IN_WINDOW) && NoQuote(NEW_TAB);
      assert NoQuote(IN_WINDOW + NEW_TAB);
      TwoLiterals(TELL, "iTerm2", IN_WINDOW + NEW_TAB, cmd);
      Regroup(TELL, "iTerm2", "\"iTerm2\"", IN_WINDOW + NEW_TAB, EscapeAppleScript(cmd));
    }
  }

  /** The words of the script around its literals: Terminal runs the command, iTerm2 opens a tab with it, and
    * for any other terminal there is no script. */
  lemma ScriptSays(cmd: string)
    ensures BuildAppleScript(TerminalApp, cmd)
            == "tell application " + "\"Terminal\"" + " to do script " + "\"" + EscapeAppleScript(cmd) + "\""
    ensures BuildAppleScript(ITerm2, cmd)
            == "tell application " + "\"iTerm2\"" + (" to tell current window" + " to create tab with default profile command ")
               + "\"" + EscapeAppleScript(cmd) + "\""
    ensures BuildAppleScript(OtherTerminal, cmd) == ""
  {
  }
}
