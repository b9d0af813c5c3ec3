/** The managed-block editor of `internal/install/managed_block.go`: validation, upsert and remove, as
  * functions from file content to file content, exactly as the string expressions compute it. */
module ManagedBlock {
  import opened Wrappers
  import opened Text

  datatype TopologyError =
    | DuplicateBegin(n: nat) | DuplicateEnd(n: nat) | OrphanedEnd | BeginNotAtLineStart | EndNotAtLineEnd | EndBeforeBegin

  function ValidateMarkerTopology(content: string, begin: string, end: string): Result<(), TopologyError>
    requires begin != "" && end != ""
  {
    var beginCount := Count(content, begin);
    var endCount := Count(content, end);
    var b := Index(content, begin);
    var e := Index(content, end);
    if beginCount > 1 then Err(DuplicateBegin(beginCount))
    else if endCount > 1 then Err(DuplicateEnd(endCount))
    else if endCount == 1 && beginCount == 0 then Err(OrphanedEnd)
    else if beginCount == 1 && b > 0 && content[b - 1] != '\n' then Err(BeginNotAtLineStart)
    else if endCount == 1 && e >= 0 && e + |end| < |content| && content[e + |end|] != '\n'
            && !At(content, e + |end|, "\r\n") then Err(EndNotAtLineEnd)
    else if beginCount == 1 && endCount == 1 && e < b then Err(EndBeforeBegin)
    else Ok(())
  }

  function CanonicalManagedBlock(begin: string, end: string, body: string): string
  {
    TrimSpace(Join([begin, TrimSpace(body), end], "\n"))
  }

  function ManagedBlockBytes(content: string, ensureTrailingNewline: bool): string
  {
    if content == "" then ""
    else if ensureTrailingNewline && !HasSuffix(content, "\n") then content + "\n"
    else content
  }

  /** The searches both operations make: the begin marker, and the first end marker from there on. */
  function BeginAt(content: string, begin: string): (r: int)
    ensures r == -1 || 0 <= r <= |content| - |begin|
  {
    Index(content, begin)
  }

  /** Where the first end marker from `idx` on stops, or -1. */
  function EndAbs(content: string, end: string, idx: int): (r: int)
    requires 0 <= idx <= |content|
    ensures r == -1 || idx <= r <= |content|
  {
    var endIdx := Index(content[idx..], end);
    if endIdx < 0 then -1 else idx + endIdx + |end|
  }

  /** Begin without end: everything from the begin marker to the end of the file is replaced. */
  function ReplaceBlock(content: string, block: string, idx: int, endAbs: int): string
    requires 0 <= idx <= |content| && endAbs <= |content|
  {
    if endAbs < 0 then ManagedBlockBytes(content[..idx] + block, true)
    else ManagedBlockBytes(content[..idx] + block + content[endAbs..], content[endAbs..] == "")
  }

  function AppendBlock(content: string, block: string): string
  {
    if content == "" then ManagedBlockBytes(block, true)
    else ManagedBlockBytes(content + (if HasSuffix(content, "\n") then "" else "\n") + block, true)
  }

  function UpsertAccepted(content: string, begin: string, end: string, block: string): string
  {
    var idx := BeginAt(content, begin);
    if idx >= 0 then ReplaceBlock(content, block, idx, EndAbs(content, end, idx))
    else AppendBlock(content, block)
  }

  /** The content that upsert writes, or the reason it refuses to. */
  function Upsert(content: string, begin: string, end: string, body: string): Result<string, TopologyError>
    requires begin != "" && end != ""
  {
    var v := ValidateMarkerTopology(content, begin, end);
    if v.Err? then Err(v.error)
    else Ok(UpsertAccepted(content, begin, end, CanonicalManagedBlock(begin, end, body)))
  }

  function StripLineBreak(after: string): string
  {
    if HasPrefix(after, "\r\n") then after[2..]
    else if HasPrefix(after, "\n") then after[1..]
    else after
  }

  function CutBlock(content: string, idx: int, endAbs: int): string
    requires 0 <= idx <= |content| && endAbs <= |content|
  {
    if endAbs < 0 then content[..idx] else content[..idx] + StripLineBreak(content[endAbs..])
  }

  function RemoveAccepted(content: string, begin: string, end: string): string
  {
    var idx := BeginAt(content, begin);
    if idx < 0 then content else CutBlock(content, idx, EndAbs(content, end, idx))
  }

  /** The content after remove; without a begin marker the file is left alone. */
  function Remove(content: string, begin: string, end: string): Result<string, TopologyError>
    requires begin != "" && end != ""
  {
    var v := ValidateMarkerTopology(content, begin, end);
    if v.Err? then Err(v.error) else Ok(RemoveAccepted(content, begin, end))
  }

  // ---------------------------------------------------------------- markers

  /** A marker stays on one line and has '<' as its first character and nowhere else. */
  predicate Marker(m: string)
  {
    && m != "" && m[0] == '<'
    && (forall k :: 0 < k < |m| ==> m[k] != '<')
    && '\n' !in m
  }

  /** Two markers of which neither starts with the other. */
  predicate Distinct(m: string, n: string) { Marker(m) && Marker(n) && !HasPrefix(m, n) && !HasPrefix(n, m) }

  /** The end marker ends the block, so it must not end in white space. */
  predicate Markers(begin: string, end: string) { Distinct(begin, end) && !IsSpace(end[|end| - 1]) }

  function BeginMarker(tool: string): string { "<!-- WAGGLE-" + tool + "-" + "BEGIN -->" }

  function EndMarker(tool: string): string { "<!-- WAGGLE-" + tool + "-" + "END -->" }

  /** One line without '<'. */
  predicate Inner(s: string) { '<' !in s && '\n' !in s }

  lemma InnerParts(a: string, tool: string, b: string)
    requires Inner(a) && Inner(tool) && Inner(b)
    ensures Inner(a + tool + b)
  {
  }

  lemma BracketMarks(tail: string)
    requires Inner(tail)
    ensures Marker("<" + tail)
  {
    assert forall k :: 0 < k < |"<" + tail| ==> ("<" + tail)[k] == tail[k - 1];
  }

  lemma PartedAt(p: string, x: string, y: string)
    requires x != "" && y != "" && x[0] != y[0]
    ensures !HasPrefix(p + x, p + y)
  {
    assert (p + x)[|p|] == x[0] && (p + y)[|p|] == y[0];
  }

  /** The markers of every tool name are of this kind, in particular those of the installers
    * (GEMINI, AUGMENT and CODEX). */
  lemma ShippedMarkers(tool: string)
    requires '<' !in tool && '\n' !in tool
    ensures Markers(BeginMarker(tool), EndMarker(tool))
  {
    var dashes := "!-- WAGGLE-";
    var p := "<" + (dashes + tool) + "-";
    InnerParts(dashes, tool, "-BEGIN -->");
    InnerParts(dashes, tool, "-END -->");
    BracketMarks(dashes + tool + "-BEGIN -->");
    BracketMarks(dashes + tool + "-END -->");
    PartedAt(p, "BEGIN -->", "END -->");
    PartedAt(p, "END -->", "BEGIN -->");
    MarkerText(tool);
  }

  lemma MarkerText(tool: string)
    ensures BeginMarker(tool) == "<" + ("!-- WAGGLE-" + tool + "-BEGIN -->") == "<" + ("!-- WAGGLE-" + tool) + "-" + "BEGIN -->"
    ensures EndMarker(tool) == "<" + ("!-- WAGGLE-" + tool + "-END -->") == "<" + ("!-- WAGGLE-" + tool) + "-" + "END -->"
  {
    assert "<!-- WAGGLE-" == "<" + "!-- WAGGLE-" && "-BEGIN -->" == "-" + "BEGIN -->" && "-END -->" == "-" + "END -->";
  }

  predicate AtLineStart(pre: string) { pre == "" || pre[|pre| - 1] == '\n' }

  predicate AtLineEnd(suf: string) { suf == "" || suf[0] == '\n' || HasPrefix(suf, "\r\n") }

  /** No marker can lie across the seam between `x` and `y`. */
  predicate Seam(x: string, y: string)
  {
    x == "" || y == "" || x[|x| - 1] == '\n' || y[0] == '\n' || y[0] == '<'
  }

  /** What an occurrence across the seam would contain. */
  lemma Straddle(x: string, y: string, m: string, i: int)
    requires At(x + y, i, m) && i < |x| < i + |m|
    ensures |x| > 0 && |y| > 0 && x[|x| - 1] == m[|x| - 1 - i] && y[0] == m[|x| - i]
  {
  }

  lemma SeamSplits(x: string, y: string, m: string, i: int)
    requires Marker(m) && Seam(x, y)
    ensures At(x + y, i, m) <==> At(x, i, m) || At(y, i - |x|, m)
  {
    AtInside("", x, y, i, m);
    AtInside(x, y, "", i - |x|, m);
    assert "" + x + y == x + y && x + y + "" == x + y;
    if At(x + y, i, m) && i < |x| < i + |m| {
      Straddle(x, y, m, i);
    }
  }

  lemma SeamAbsent(x: string, y: string, m: string)
    requires Marker(m) && Seam(x, y) && Absent(x, m) && Absent(y, m)
    ensures Absent(x + y, m)
  {
    forall i ensures !At(x + y, i, m) { SeamSplits(x, y, m, i); }
  }

  lemma SeamOnceLeft(x: string, y: string, m: string, i: int)
    requires Marker(m) && Seam(x, y) && Once(x, i, m) && Absent(y, m)
    ensures Once(x + y, i, m)
  {
    forall j ensures At(x + y, j, m) <==> j == i { SeamSplits(x, y, m, j); }
  }

  lemma SeamOnceRight(x: string, y: string, m: string, i: int)
    requires Marker(m) && Seam(x, y) && Absent(x, m) && Once(y, i, m)
    ensures Once(x + y, |x| + i, m)
  {
    forall j ensures At(x + y, j, m) <==> j == |x| + i { SeamSplits(x, y, m, j); }
  }

  /** Between two markers, or twice the same one, there is no overlap: each '<' starts one marker. */
  lemma MarkersApart(s: string, m: string, n: string, i: int, j: int)
    requires Marker(m) && Marker(n) && At(s, i, m) && At(s, j, n) && i < j
    ensures i + |m| <= j
  {
    forall x | i < x < i + |m|
      ensures s[x] != '<'
    {
      assert s[i + (x - i)] == m[x - i];
    }
    assert s[j + 0] == n[0];
  }

  // ---------------------------------------------------------------- counting

  lemma CountAbsent(s: string, m: string)
    requires m != ""
    ensures Count(s, m) == 0 <==> Absent(s, m)
    ensures Contains(s, m) <==> !Absent(s, m)
  {
    IndexIsFirst(s, m);
  }

  lemma CountIsOne(s: string, m: string)
    requires m != "" && Index(s, m) >= 0
    ensures Count(s, m) == 1 <==> IndexFrom(s, m, Index(s, m) + |m|) == -1
  {
    assert CountFrom(s, m, 0) == 1 + CountFrom(s, m, Index(s, m) + |m|);
  }

  /** For markers, a count of one means one occurrence in the plain sense. */
  lemma {:induction false} CountOnce(s: string, m: string)
    requires Marker(m)
    ensures Count(s, m) == 1 <==> Once(s, Index(s, m), m)
  {
    var i := Index(s, m);
    IndexIsFirst(s, m);
    if i >= 0 {
      var next := IndexFrom(s, m, i + |m|);
      IndexFromIsFirst(s, m, i + |m|);
      forall j | At(s, j, m) && j != i
        ensures i + |m| <= j
      {
        MarkersApart(s, m, m, i, j);
      }
      CountIsOne(s, m);
    }
  }

  lemma IndexOnce(s: string, i: int, m: string)
    requires Once(s, i, m)
    ensures Index(s, m) == i
  {
    FirstIsIndex(s, m, i);
  }
}
