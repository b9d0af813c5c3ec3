/** What upsert and remove do to every file the topology check accepts, and how the health checks of
  * `internal/install/health.go` agree with them. */
module BlockTheorems {
  import opened Wrappers
  import opened Text
  import opened ManagedBlock

  /** The three kinds of file the topology check accepts: no marker; a begin marker at `b` without an
    * end; or one whole block from `b` to the end marker at `e`. */
  datatype Shape = Plain | Truncated(b: nat) | Full(b: nat, e: nat)

  ghost predicate HasShape(c: string, begin: string, end: string, sh: Shape)
  {
    match sh
    case Plain => Absent(c, begin) && Absent(c, end)
    case Truncated(b) => Once(c, b, begin) && Absent(c, end) && AtLineStart(c[..b])
    case Full(b, e) =>
      && Once(c, b, begin) && Once(c, e, end) && b + |begin| <= e
      && AtLineStart(c[..b]) && AtLineEnd(c[e + |end|..])
  }

  /** What lies before and after the block; a block that is not closed reaches to the end. */
  function Before(c: string, sh: Shape): string
    requires sh.Plain? || sh.b <= |c|
  {
    if sh.Plain? then c else c[..sh.b]
  }

  function After(c: string, end: string, sh: Shape): string
    requires sh.Full? ==> sh.e + |end| <= |c|
  {
    if sh.Full? then c[sh.e + |end|..] else ""
  }

  // ---------------------------------------------------------------- the topology check is exact

  /** Two markers never start at the same place. */
  lemma NotBothAt(c: string, begin: string, end: string, i: int)
    requires Distinct(begin, end)
    ensures !At(c, i, begin) || !At(c, i, end)
  {
  }

  lemma PlainAccepted(c: string, begin: string, end: string)
    requires Markers(begin, end) && HasShape(c, begin, end, Plain)
    ensures ValidateMarkerTopology(c, begin, end).Ok? && Index(c, begin) == -1 && Index(c, end) == -1
  {
    CountAbsent(c, begin);
    CountAbsent(c, end);
    FirstIsIndex(c, begin, -1);
    FirstIsIndex(c, end, -1);
  }

  lemma TruncatedAccepted(c: string, begin: string, end: string, sh: Shape)
    requires Markers(begin, end) && HasShape(c, begin, end, sh) && sh.Truncated?
    ensures ValidateMarkerTopology(c, begin, end).Ok? && Index(c, begin) == sh.b && Index(c, end) == -1
  {
    IndexOnce(c, sh.b, begin);
    CountOnce(c, begin);
    CountAbsent(c, end);
    FirstIsIndex(c, end, -1);
    assert sh.b > 0 ==> c[..sh.b][sh.b - 1] == c[sh.b - 1];
  }

  lemma FullAccepted(c: string, begin: string, end: string, sh: Shape)
    requires Markers(begin, end) && HasShape(c, begin, end, sh) && sh.Full?
    ensures ValidateMarkerTopology(c, begin, end).Ok? && Index(c, begin) == sh.b && Index(c, end) == sh.e
  {
    IndexOnce(c, sh.b, begin);
    IndexOnce(c, sh.e, end);
    CountOnce(c, begin);
    CountOnce(c, end);
    assert sh.b > 0 ==> c[..sh.b][sh.b - 1] == c[sh.b - 1];
    var suf := c[sh.e + |end|..];
    assert suf != "" ==> suf[0] == c[sh.e + |end|];
    assert HasPrefix(suf, "\r\n") <==> At(c, sh.e + |end|, "\r\n") by {
      SplitAt(c, sh.e + |end|);
      AtInside(c[..sh.e + |end|], suf, "", 0, "\r\n");
    }
  }

  lemma ShapeAccepted(c: string, begin: string, end: string, sh: Shape)
    requires Markers(begin, end) && HasShape(c, begin, end, sh)
    ensures ValidateMarkerTopology(c, begin, end).Ok?
  {
    match sh
    case Plain => PlainAccepted(c, begin, end);
    case Truncated(_) => TruncatedAccepted(c, begin, end, sh);
    case Full(_, _) => FullAccepted(c, begin, end, sh);
  }

  lemma AcceptedTruncated(c: string, begin: string, end: string)
    requires Markers(begin, end) && ValidateMarkerTopology(c, begin, end).Ok?
    requires Once(c, Index(c, begin), begin) && Absent(c, end)
    ensures HasShape(c, begin, end, Truncated(Index(c, begin)))
  {
  }

  /** What the check has established about a file with one marker of each kind. */
  lemma AcceptedLines(c: string, begin: string, end: string)
    requires begin != "" && end != "" && ValidateMarkerTopology(c, begin, end).Ok?
    requires Count(c, begin) == 1 && Count(c, end) == 1
    ensures 0 <= Index(c, begin) <= Index(c, end) && Index(c, end) + |end| <= |c|
    ensures AtLineStart(c[..Index(c, begin)])
    ensures var n := Index(c, end) + |end|; n == |c| || c[n] == '\n' || At(c, n, "\r\n")
  {
  }

  lemma LineEndAt(c: string, n: nat)
    requires n <= |c| && (n == |c| || c[n] == '\n' || At(c, n, "\r\n"))
    ensures AtLineEnd(c[n..])
  {
  }

  lemma AcceptedFull(c: string, begin: string, end: string)
    requires Markers(begin, end) && ValidateMarkerTopology(c, begin, end).Ok?
    requires Once(c, Index(c, begin), begin) && Once(c, Index(c, end), end)
    ensures HasShape(c, begin, end, Full(Index(c, begin), Index(c, end)))
  {
    var b, e := Index(c, begin), Index(c, end);
    CountOnce(c, begin);
    CountOnce(c, end);
    AcceptedLines(c, begin, end);
    LineEndAt(c, e + |end|);
    NotBothAt(c, begin, end, b);
    MarkersApart(c, begin, end, b, e);
  }

  lemma AcceptedHasShape(c: string, begin: string, end: string) returns (sh: Shape)
    requires Markers(begin, end) && ValidateMarkerTopology(c, begin, end).Ok?
    ensures HasShape(c, begin, end, sh)
  {
    CountAbsent(c, begin);
    CountAbsent(c, end);
    CountOnce(c, begin);
    CountOnce(c, end);
    if Count(c, begin) == 0 {
      sh := Plain;
    } else if Count(c, end) == 0 {
      AcceptedTruncated(c, begin, end);
      sh := Truncated(Index(c, begin));
    } else {
      AcceptedFull(c, begin, end);
      sh := Full(Index(c, begin), Index(c, end));
    }
  }

  /** The check accepts a file exactly when it has one of the three shapes. */
  lemma AcceptedExactly(c: string, begin: string, end: string)
    requires Markers(begin, end)
    ensures ValidateMarkerTopology(c, begin, end).Ok? <==> exists sh :: HasShape(c, begin, end, sh)
  {
    if ValidateMarkerTopology(c, begin, end).Ok? {
      var sh := AcceptedHasShape(c, begin, end);
    }
    forall sh | HasShape(c, begin, end, sh)
      ensures ValidateMarkerTopology(c, begin, end).Ok?
    {
      ShapeAccepted(c, begin, end, sh);
    }
  }

  /** Why a file is refused: the first of the six complaints that applies. */
  lemma RefusedFor(c: string, begin: string, end: string)
    requires begin != "" && end != ""
    ensures var n, m, v := Count(c, begin), Count(c, end), ValidateMarkerTopology(c, begin, end);
            && (n > 1 ==> v == Err(DuplicateBegin(n)))
            && (n <= 1 && m > 1 ==> v == Err(DuplicateEnd(m)))
            && (n == 0 && m == 1 ==> v == Err(OrphanedEnd))
    ensures Count(c, begin) == 1 && Count(c, end) <= 1 ==>
              var b, v := Index(c, begin), ValidateMarkerTopology(c, begin, end);
              && 0 <= b <= |c|
              && (!AtLineStart(c[..b]) ==> v == Err(BeginNotAtLineStart))
              && (AtLineStart(c[..b]) && Count(c, end) == 1 ==>
                    var e := Index(c, end) + |end|;
                    && 0 <= e <= |c|
                    && (!AtLineEnd(c[e..]) ==> v == Err(EndNotAtLineEnd))
                    && (AtLineEnd(c[e..]) && Index(c, end) < b ==> v == Err(EndBeforeBegin)))
  {
    CountAbsent(c, begin);
    CountAbsent(c, end);
    IndexIsFirst(c, begin);
    IndexIsFirst(c, end);
  }

  // ---------------------------------------------------------------- upsert and remove by shape

  function Middle(body: string): string { "\n" + TrimSpace(body) + "\n" }

  function Block(begin: string, end: string, mid: string): string { begin + (mid + end) }

  lemma CanonicalBlockIs(begin: string, end: string, body: string)
    requires Markers(begin, end)
    ensures CanonicalManagedBlock(begin, end, body) == Block(begin, end, Middle(body))
  {
    var block := Block(begin, end, Middle(body));
    var t := TrimSpace(body);
    assert [t, end][1..] == [end] && [begin, t, end][1..] == [t, end];
    assert Join([t, end], "\n") == t + "\n" + end;
    assert Join([begin, t, end], "\n") == begin + "\n" + (t + "\n" + end) == block;
    assert block[0] == begin[0] && block[|block| - 1] == end[|end| - 1];
    assert !IsSpace('<');
    TrimUnique("", block, "");
    assert "" + block + "" == block;
  }

  /** Where the end marker is found, looking from the begin marker on. */
  lemma EndFromBegin(c: string, end: string, b: nat, e: int)
    requires b <= |c|
    requires (e == -1 && Absent(c, end)) || (b <= e && Once(c, e, end))
    ensures Index(c[b..], end) == if e == -1 then -1 else e - b
  {
    assert c == c[..b] + c[b..] + "";
    forall i
      ensures At(c[b..], i, end) ==> At(c, b + i, end)
      ensures i >= 0 && At(c, b + i, end) ==> At(c[b..], i, end)
    {
      AtInside(c[..b], c[b..], "", i, end);
    }
    if e >= 0 {
      assert At(c[b..], e - b, end);
    }
    FirstIsIndex(c[b..], end, if e == -1 then -1 else e - b);
  }

  /** What surrounds the block after an upsert: a file without markers gets the block at its end, on a
    * line of its own, and a block that ends the file gets a newline after it. */
  function NewBefore(c: string, sh: Shape): string
    requires sh.Plain? || sh.b <= |c|
  {
    if sh.Plain? then Terminated(c) else c[..sh.b]
  }

  function NewAfter(c: string, end: string, sh: Shape): string
    requires sh.Full? ==> sh.e + |end| <= |c|
  {
    if After(c, end, sh) == "" then "\n" else After(c, end, sh)
  }

  /** Where upsert and remove find the markers. */
  predicate Located(c: string, begin: string, end: string, sh: Shape)
  {
    match sh
    case Plain => BeginAt(c, begin) == -1
    case Truncated(b) => b <= |c| && BeginAt(c, begin) == b && EndAbs(c, end, b) == -1
    case Full(b, e) => b <= e && e + |end| <= |c| && BeginAt(c, begin) == b && EndAbs(c, end, b) == e + |end|
  }

  lemma ShapeLocated(c: string, begin: string, end: string, sh: Shape)
    requires Markers(begin, end) && HasShape(c, begin, end, sh)
    ensures Located(c, begin, end, sh) && ValidateMarkerTopology(c, begin, end).Ok?
  {
    match sh
    case Plain =>
      PlainAccepted(c, begin, end);
    case Truncated(b) =>
      TruncatedAccepted(c, begin, end, sh);
      EndFromBegin(c, end, b, -1);
    case Full(b, e) =>
      FullAccepted(c, begin, end, sh);
      EndFromBegin(c, end, b, e);
  }

  /** A newline is added to a text that ends otherwise, and only if asked for. */
  lemma BytesIs(s: string, ensureNewline: bool)
    requires s != "" && s[|s| - 1] != '\n'
    ensures ManagedBlockBytes(s, ensureNewline) == if ensureNewline then s + "\n" else s
  {
    assert "\n"[0] == '\n' && s[|s| - 1 + 0] != "\n"[0];
  }

  /** Replacing or appending any block text that does not end in a newline. */
  lemma ReplaceIs(c: string, end: string, sh: Shape, block: string)
    requires block != "" && block[|block| - 1] != '\n' && !sh.Plain? && sh.b <= |c|
    requires sh.Full? ==> sh.b <= sh.e && sh.e + |end| <= |c|
    ensures ReplaceBlock(c, block, sh.b, if sh.Full? then sh.e + |end| else -1)
            == NewBefore(c, sh) + block + NewAfter(c, end, sh)
  {
    var whole := c[..sh.b] + block;
    BytesIs(whole, true);
    assert whole + "" == whole;
  }

  lemma AppendIs(c: string, block: string)
    requires block != "" && block[|block| - 1] != '\n'
    ensures AppendBlock(c, block) == Terminated(c) + block + "\n"
  {
    BytesIs(Terminated(c) + block, true);
    NewlineSuffix(c);
    assert "" + block == block && c + "" == c;
  }

  lemma UpsertLocated(c: string, begin: string, end: string, sh: Shape, block: string)
    requires Located(c, begin, end, sh) && block != "" && block[|block| - 1] != '\n'
    ensures UpsertAccepted(c, begin, end, block) == NewBefore(c, sh) + block + NewAfter(c, end, sh)
  {
    if sh.Plain? {
      AppendIs(c, block);
    } else {
      ReplaceIs(c, end, sh, block);
    }
  }

  lemma UpsertIs(c: string, begin: string, end: string, body: string, sh: Shape)
    requires Markers(begin, end) && HasShape(c, begin, end, sh)
    ensures Upsert(c, begin, end, body) == Ok(NewBefore(c, sh) + Block(begin, end, Middle(body)) + NewAfter(c, end, sh))
  {
    var block := Block(begin, end, Middle(body));
    CanonicalBlockIs(begin, end, body);
    assert block[|block| - 1] == end[|end| - 1] && end[|end| - 1] in end;
    ShapeLocated(c, begin, end, sh);
    UpsertLocated(c, begin, end, sh, block);
  }

  /** What remove leaves: what was before the block, and what was after it less one line break. */
  function Removed(c: string, end: string, sh: Shape): string
    requires sh.Plain? || sh.b <= |c|
    requires sh.Full? ==> sh.e + |end| <= |c|
  {
    match sh
    case Plain => c
    case Truncated(b) => c[..b]
    case Full(b, e) => c[..b] + StripLineBreak(c[e + |end|..])
  }

  lemma RemoveIs(c: string, begin: string, end: string, sh: Shape)
    requires begin != "" && end != "" && ValidateMarkerTopology(c, begin, end).Ok? && Located(c, begin, end, sh)
    ensures Remove(c, begin, end) == Ok(Removed(c, end, sh))
  {
  }

  // ---------------------------------------------------------------- the file that upsert writes

  ghost predicate Clean(s: string, begin: string, end: string) { Absent(s, begin) && Absent(s, end) }

  /** An occurrence of a marker begins with '<'. */
  lemma StartsWithBracket(s: string, i: int, m: string)
    requires Marker(m)
    ensures At(s, i, m) ==> s[i] == '<'
  {
  }

  /** A marker occurs in itself once, and the other not at all. */
  lemma MarkerInItself(begin: string, end: string)
    requires Markers(begin, end)
    ensures Once(begin, 0, begin) && Absent(begin, end)
  {
  }

  /** Text that continues at a line end, even with a carriage return, makes no new occurrence with the
    * end marker before it: such an occurrence would start where the end marker starts. */
  lemma EndThenSuffix(begin: string, end: string, suf: string, m: string, i: int)
    requires Markers(begin, end) && m in {begin, end} && Absent(suf, m)
    ensures At(end + suf, i, m) <==> i == 0 && m == end
  {
    var s := end + suf;
    assert s == end + suf + "" && At(s, 0, end);
    AtInside(end, suf, "", i - |end|, m);
    StartsWithBracket(s, i, m);
    NotBothAt(s, end, begin, 0);
  }

  lemma MiddleClean(begin: string, end: string, body: string)
    requires Markers(begin, end) && Clean(body, begin, end)
    ensures Clean(Middle(body), begin, end)
  {
    var a, b := TrimSplits(body);
    NewlineClean(begin, end);
    forall m | m in {begin, end}
      ensures Absent(Middle(body), m)
    {
      PartAbsent(a, TrimSpace(body), b, m);
      SeamAbsent("\n", TrimSpace(body), m);
      SeamAbsent("\n" + TrimSpace(body), "\n", m);
    }
  }

  lemma NewlineClean(begin: string, end: string)
    requires Markers(begin, end)
    ensures Clean("\n", begin, end) && Clean("", begin, end)
  {
  }

  /** The block and what follows it. */
  lemma BlockThenSuffix(begin: string, end: string, mid: string, suf: string) returns (right: string)
    requires Markers(begin, end) && Clean(mid, begin, end) && Clean(suf, begin, end)
    requires mid != "" && mid[0] == '\n'
    ensures right == begin + (mid + (end + suf)) && right[0] == '<'
    ensures Once(right, 0, begin) && Once(right, |begin| + |mid|, end)
  {
    var tail := end + suf;
    MarkerInItself(begin, end);
    forall i
      ensures At(tail, i, end) <==> i == 0
      ensures !At(tail, i, begin)
    {
      EndThenSuffix(begin, end, suf, end, i);
      EndThenSuffix(begin, end, suf, begin, i);
    }
    SeamAbsent(mid, tail, begin);
    SeamOnceRight(mid, tail, end, 0);
    SeamOnceLeft(begin, mid + tail, begin, 0);
    SeamOnceRight(begin, mid + tail, end, |mid|);
    right := begin + (mid + tail);
  }

  /** A right part with one marker of each kind, put after a clean text that ends a line. */
  lemma PlacedAfter(pre: string, right: string, begin: string, end: string, k: nat) returns (c: string)
    requires Markers(begin, end) && Seam(pre, right) && Clean(pre, begin, end)
    requires Once(right, 0, begin) && Once(right, k, end)
    ensures c == pre + right && Once(c, |pre|, begin) && Once(c, |pre| + k, end)
  {
    SeamOnceRight(pre, right, begin, 0);
    SeamOnceRight(pre, right, end, k);
    c := pre + right;
  }

  lemma Reassociate(pre: string, begin: string, mid: string, end: string, suf: string)
    ensures var c := pre + (begin + (mid + end)) + suf;
            && pre + (begin + (mid + (end + suf))) == c
            && c[..|pre|] == pre
            && c[|pre| + |begin| + |mid| + |end|..] == suf
            && c[|pre| + |begin|..|pre| + |begin| + |mid|] == mid
  {
  }

  lemma PartClean(a: string, s: string, b: string, c: string, begin: string, end: string, x: int, y: int)
    requires c == a + s + b
    requires forall j :: At(c, j, begin) ==> j == x
    requires forall j :: At(c, j, end) ==> j == y
    requires !(|a| <= x <= |a| + |s| - |begin|) && !(|a| <= y <= |a| + |s| - |end|)
    ensures Clean(s, begin, end)
  {
    forall i
      ensures !At(s, i, begin) && !At(s, i, end)
    {
      AtInside(a, s, b, i, begin);
      AtInside(a, s, b, i, end);
    }
  }

  lemma SplitAt(c: string, n: nat)
    requires n <= |c|
    ensures c == "" + c[..n] + c[n..] && c == c[..n] + c[n..] + ""
  {
  }

  lemma OutsideTruncated(c: string, begin: string, end: string, b: nat)
    requires Markers(begin, end) && HasShape(c, begin, end, Truncated(b))
    ensures Clean(c[..b], begin, end)
  {
    SplitAt(c, b);
    PartClean("", c[..b], c[b..], c, begin, end, b, -1);
  }

  lemma OutsideFull(c: string, begin: string, end: string, b: nat, e: nat)
    requires Markers(begin, end) && HasShape(c, begin, end, Full(b, e))
    ensures Clean(c[..b], begin, end) && Clean(c[e + |end|..], begin, end)
  {
    SplitAt(c, b);
    PartClean("", c[..b], c[b..], c, begin, end, b, e);
    SplitAt(c, e + |end|);
    PartClean(c[..e + |end|], c[e + |end|..], "", c, begin, end, b, e);
  }

  /** In an accepted file, nothing before or after the block holds a marker. */
  lemma OutsideClean(c: string, begin: string, end: string, sh: Shape)
    requires Markers(begin, end) && HasShape(c, begin, end, sh)
    ensures Clean(Before(c, sh), begin, end) && Clean(After(c, end, sh), begin, end)
  {
    NewlineClean(begin, end);
    match sh
    case Plain =>
    case Truncated(b) => OutsideTruncated(c, begin, end, b);
    case Full(b, e) => OutsideFull(c, begin, end, b, e);
  }

  lemma BlockPlaced(pre: string, begin: string, end: string, mid: string, suf: string) returns (c: string)
    requires Markers(begin, end) && Clean(mid, begin, end) && mid != "" && mid[0] == '\n'
    requires AtLineStart(pre) && Clean(pre, begin, end) && Clean(suf, begin, end)
    ensures Once(c, |pre|, begin) && Once(c, |pre| + |begin| + |mid|, end)
    ensures c == pre + (begin + (mid + (end + suf)))
  {
    var right := BlockThenSuffix(begin, end, mid, suf);
    c := PlacedAfter(pre, right, begin, end, |begin| + |mid|);
  }

  lemma BlockParts(pre: string, begin: string, end: string, mid: string, suf: string) returns (c: string)
    requires Markers(begin, end) && Clean(mid, begin, end) && mid != "" && mid[0] == '\n'
    requires AtLineStart(pre) && Clean(pre, begin, end) && Clean(suf, begin, end)
    ensures Once(c, |pre|, begin) && Once(c, |pre| + |begin| + |mid|, end)
    ensures c == pre + Block(begin, end, mid) + suf
    ensures c[..|pre|] == pre && c[|pre| + |begin| + |mid| + |end|..] == suf
    ensures c[|pre| + |begin|..|pre| + |begin| + |mid|] == mid
  {
    c := BlockPlaced(pre, begin, end, mid, suf);
    Reassociate(pre, begin, mid, end, suf);
  }

  /** Clean parts around a block give a file of the full shape with those parts around it. */
  lemma Around(pre: string, begin: string, end: string, mid: string, suf: string) returns (c: string, sh: Shape)
    requires Markers(begin, end) && Clean(mid, begin, end) && mid != "" && mid[0] == '\n'
    requires AtLineStart(pre) && AtLineEnd(suf) && Clean(pre, begin, end) && Clean(suf, begin, end)
    ensures c == pre + Block(begin, end, mid) + suf
    ensures sh.Full? && HasShape(c, begin, end, sh)
    ensures Before(c, sh) == pre && After(c, end, sh) == suf && c[sh.b + |begin|..sh.e] == mid
  {
    c := BlockParts(pre, begin, end, mid, suf);
    sh := Full(|pre|, |pre| + |begin| + |mid|);
  }

  lemma NewBeforeClean(c: string, begin: string, end: string, sh: Shape)
    requires Markers(begin, end) && HasShape(c, begin, end, sh)
    ensures Clean(NewBefore(c, sh), begin, end) && AtLineStart(NewBefore(c, sh))
    ensures Clean(NewAfter(c, end, sh), begin, end) && AtLineEnd(NewAfter(c, end, sh))
  {
    OutsideClean(c, begin, end, sh);
    NewlineClean(begin, end);
    if sh.Plain? {
      SeamAbsent(c, "\n", begin);
      SeamAbsent(c, "\n", end);
    }
  }

  /** The file after a successful upsert has one whole block, with the canonical body, between what
    * was around it before. */
  lemma Upserted(c: string, begin: string, end: string, body: string, sh: Shape) returns (c': string, sh': Shape)
    requires Markers(begin, end) && Clean(body, begin, end) && HasShape(c, begin, end, sh)
    ensures Upsert(c, begin, end, body) == Ok(c')
    ensures sh'.Full? && HasShape(c', begin, end, sh')
    ensures Before(c', sh') == NewBefore(c, sh) && After(c', end, sh') == NewAfter(c, end, sh)
    ensures c'[sh'.b + |begin|..sh'.e] == Middle(body)
  {
    NewBeforeClean(c, begin, end, sh);
    MiddleClean(begin, end, body);
    c', sh' := Around(NewBefore(c, sh), begin, end, Middle(body), NewAfter(c, end, sh));
    UpsertIs(c, begin, end, body, sh);
  }

  // ---------------------------------------------------------------- main results

  /** Install then uninstall: a file without markers comes back as it was, up to the final newline
    * that upsert adds to a file that lacks one. */
  lemma InstallThenUninstall(c: string, begin: string, end: string, body: string)
    requires Markers(begin, end) && Clean(body, begin, end) && Clean(c, begin, end)
    ensures Upsert(c, begin, end, body).Ok?
    ensures Remove(Upsert(c, begin, end, body).value, begin, end) == Ok(Terminated(c))
  {
    var c', sh' := Upserted(c, begin, end, body, Plain);
    ShapeLocated(c', begin, end, sh');
    RemoveIs(c', begin, end, sh');
    NewlineStripped(Terminated(c));
  }

  /** On every accepted file upsert succeeds and is idempotent. */
  lemma UpsertIdempotent(c: string, begin: string, end: string, body: string)
    requires Markers(begin, end) && Clean(body, begin, end) && ValidateMarkerTopology(c, begin, end).Ok?
    ensures Upsert(c, begin, end, body).Ok?
    ensures Upsert(Upsert(c, begin, end, body).value, begin, end, body) == Upsert(c, begin, end, body)
  {
    var sh := AcceptedHasShape(c, begin, end);
    var c', sh' := Upserted(c, begin, end, body, sh);
    UpsertIs(c, begin, end, body, sh);
    UpsertIs(c', begin, end, body, sh');
  }

  /** The bytes before the begin marker and after the end marker survive an upsert untouched; only a
    * block that ends the file, or is not closed, gets a newline after it. */
  lemma UpsertPreservesSurroundings(c: string, begin: string, end: string, body: string) returns (c': string)
    requires Markers(begin, end) && Clean(body, begin, end)
    requires ValidateMarkerTopology(c, begin, end).Ok? && Contains(c, begin)
    ensures Upsert(c, begin, end, body) == Ok(c')
    ensures Contains(c', begin) && Contains(c', end)
    ensures c'[..Index(c', begin)] == c[..Index(c, begin)]
    ensures c'[Index(c', end) + |end|..] ==
            if Contains(c, end) && Index(c, end) + |end| < |c| then c[Index(c, end) + |end|..] else "\n"
  {
    var sh := AcceptedHasShape(c, begin, end);
    var sh';
    PartsByIndex(c, begin, end, sh);
    c', sh' := Upserted(c, begin, end, body, sh);
    FullAccepted(c', begin, end, sh');
    PartsByIndex(c', begin, end, sh');
  }

  /** The parts around the block, by the indices a reader would compute. */
  lemma PartsByIndex(c: string, begin: string, end: string, sh: Shape)
    requires Markers(begin, end) && HasShape(c, begin, end, sh) && Contains(c, begin)
    ensures !sh.Plain? && Before(c, sh) == c[..Index(c, begin)]
    ensures Contains(c, end) <==> sh.Full?
    ensures After(c, end, sh) == if Contains(c, end) then c[Index(c, end) + |end|..] else ""
  {
    match sh
    case Plain => PlainAccepted(c, begin, end);
    case Truncated(_) => TruncatedAccepted(c, begin, end, sh);
    case Full(_, _) => FullAccepted(c, begin, end, sh);
  }

  /** One line break at the beginning of a text, and no more, is dropped. */
  lemma OneBreakDropped(s: string)
    ensures StripLineBreak(s) ==
            if |s| >= 2 && s[0] == '\r' && s[1] == '\n' then s[2..]
            else if |s| >= 1 && s[0] == '\n' then s[1..]
            else s
  {
    assert "\r\n"[0] == '\r' && "\r\n"[1] == '\n' && "\n"[0] == '\n';
    if |s| >= 2 {
      assert s[0 + 0] == s[0] && s[0 + 1] == s[1];
    }
  }

  lemma LineEndStarts(suf: string)
    ensures AtLineEnd(suf) ==> suf == "" || suf[0] == '\n' || (|suf| >= 2 && suf[0] == '\r' && suf[1] == '\n')
  {
    assert "\r\n"[0] == '\r' && "\r\n"[1] == '\n';
    if HasPrefix(suf, "\r\n") {
      assert suf[0 + 0] == '\r' && suf[0 + 1] == '\n';
    }
  }

  lemma WithoutItsBreak(pre: string, suf: string)
    requires AtLineEnd(suf)
    ensures suf == "" || suf[0] == '\n' || (|suf| >= 2 && suf[0] == '\r' && suf[1] == '\n')
    ensures |suf| >= 2 && suf[0] == '\r' && suf[1] == '\n' ==> pre + StripLineBreak(suf) == pre + suf[2..]
    ensures |suf| >= 1 && suf[0] == '\n' ==> pre + StripLineBreak(suf) == pre + suf[1..]
    ensures suf == "" ==> pre + StripLineBreak(suf) == pre
  {
    OneBreakDropped(suf);
    LineEndStarts(suf);
  }

  /** What remove leaves, by the indices a reader would compute: what stands before the begin marker and
    * after the end marker, less one line break; of a block that is not closed, what stands before it; and
    * a file without a begin marker as it is. */
  lemma RemovePreservesSurroundings(c: string, begin: string, end: string)
    requires Markers(begin, end) && ValidateMarkerTopology(c, begin, end).Ok?
    ensures !Contains(c, begin) ==> Remove(c, begin, end) == Ok(c)
    ensures Contains(c, begin) && !Contains(c, end) ==> Remove(c, begin, end) == Ok(c[..Index(c, begin)])
    ensures Contains(c, begin) && Contains(c, end) ==>
              var pre, suf := c[..Index(c, begin)], c[Index(c, end) + |end|..];
              && (|suf| >= 2 && suf[0] == '\r' && suf[1] == '\n' ==> Remove(c, begin, end) == Ok(pre + suf[2..]))
              && (|suf| >= 1 && suf[0] == '\n' ==> Remove(c, begin, end) == Ok(pre + suf[1..]))
              && (suf == "" ==> Remove(c, begin, end) == Ok(pre))
              && (suf == "" || suf[0] == '\n' || (|suf| >= 2 && suf[0] == '\r' && suf[1] == '\n'))
  {
    var sh := AcceptedHasShape(c, begin, end);
    ShapeLocated(c, begin, end, sh);
    RemoveIs(c, begin, end, sh);
    if !Contains(c, begin) {
      ContainsByShape(c, begin, end, sh);
    } else {
      PartsByIndex(c, begin, end, sh);
      if sh.Full? {
        WithoutItsBreak(c[..sh.b], c[sh.e + |end|..]);
      }
    }
  }

  /** Updating a block and then removing it is the same as removing it. */
  lemma UpdateThenRemove(c: string, begin: string, end: string, body: string)
    requires Markers(begin, end) && Clean(body, begin, end) && ValidateMarkerTopology(c, begin, end).Ok?
    requires Contains(c, begin)
    ensures Upsert(c, begin, end, body).Ok?
    ensures Remove(Upsert(c, begin, end, body).value, begin, end) == Remove(c, begin, end)
  {
    var sh := AcceptedHasShape(c, begin, end);
    if sh.Plain? {
      PlainAccepted(c, begin, end);
    }
    var c', sh' := Upserted(c, begin, end, body, sh);
    ShapeLocated(c', begin, end, sh');
    RemoveIs(c', begin, end, sh');
    ShapeLocated(c, begin, end, sh);
    RemoveIs(c, begin, end, sh);
    NewlineStripped(Before(c, sh));
  }

  lemma NewlineStripped(s: string)
    ensures s + StripLineBreak("\n") == s && s + StripLineBreak("") == s
  {
  }

  lemma StripKeepsClean(suf: string, begin: string, end: string)
    requires Markers(begin, end) && Clean(suf, begin, end)
    ensures Clean(StripLineBreak(suf), begin, end)
  {
    var n := |suf| - |StripLineBreak(suf)|;
    assert suf == suf[..n] + StripLineBreak(suf) + "";
    PartAbsent(suf[..n], StripLineBreak(suf), "", begin);
    PartAbsent(suf[..n], StripLineBreak(suf), "", end);
  }

  /** Remove leaves no marker behind, not even one that the joined ends would form. */
  lemma RemoveLeavesNoMarker(c: string, begin: string, end: string) returns (c': string)
    requires Markers(begin, end) && Remove(c, begin, end).Ok?
    ensures Remove(c, begin, end) == Ok(c') && Clean(c', begin, end)
  {
    var sh := AcceptedHasShape(c, begin, end);
    ShapeLocated(c, begin, end, sh);
    RemoveIs(c, begin, end, sh);
    OutsideClean(c, begin, end, sh);
    c' := Removed(c, end, sh);
    if sh.Full? {
      StripKeepsClean(After(c, end, sh), begin, end);
      SeamAbsent(Before(c, sh), StripLineBreak(After(c, end, sh)), begin);
      SeamAbsent(Before(c, sh), StripLineBreak(After(c, end, sh)), end);
    }
  }

  lemma RemoveIdempotent(c: string, begin: string, end: string)
    requires Markers(begin, end) && Remove(c, begin, end).Ok?
    ensures Remove(Remove(c, begin, end).value, begin, end) == Remove(c, begin, end)
  {
    var c' := RemoveLeavesNoMarker(c, begin, end);
    ShapeLocated(c', begin, end, Plain);
    RemoveIs(c', begin, end, Plain);
  }

  // ---------------------------------------------------------------- health

  datatype AdapterState = NotInstalled | Broken | Healthy

  datatype HealthIssue = InvalidTopology(error: TopologyError) | TruncatedBlock | ContentDiffers

  function ManagedBlockBody(content: string, begin: string, end: string): Option<string>
  {
    var b := Index(content, begin);
    if b < 0 then None
    else
      var e := Index(content[b + |begin|..], end);
      if e < 0 then None else Some(content[b + |begin|..b + |begin| + e])
  }

  /** What the marker logic of a health check comes to. */
  function HealthOf(content: string, begin: string, end: string, canonical: string): AdapterState
    requires begin != "" && end != ""
  {
    if !Contains(content, begin) && !Contains(content, end) then NotInstalled
    else if ValidateMarkerTopology(content, begin, end).Err? then Broken
    else if !Contains(content, end) then Broken
    else
      var body := ManagedBlockBody(content, begin, end);
      if body.Some? && TrimSpace(body.value) != TrimSpace(canonical) then Broken else Healthy
  }

  /** The shared body of CheckGemini and CheckAugment, from the file content on. */
  method CheckManagedBlock(content: string, begin: string, end: string, canonical: string)
    returns (issues: seq<HealthIssue>, state: AdapterState)
    requires begin != "" && end != ""
    ensures state == HealthOf(content, begin, end, canonical)
    ensures state == Broken <==> issues != []
    ensures var v, body := ValidateMarkerTopology(content, begin, end), ManagedBlockBody(content, begin, end);
            issues == if !Contains(content, begin) && !Contains(content, end) then []
                      else if v.Err? then [InvalidTopology(v.error)]
                      else if !Contains(content, end) then [TruncatedBlock]
                      else if body.Some? && TrimSpace(body.value) != TrimSpace(canonical) then [ContentDiffers] else []
  {
    issues := [];
    var hasBegin := Contains(content, begin);
    var hasEnd := Contains(content, end);
    if hasBegin || hasEnd {
      var v := ValidateMarkerTopology(content, begin, end);
      if v.Err? {
        issues := issues + [InvalidTopology(v.error)];
      }
    }
    if !(hasBegin || hasEnd) {
      return [], NotInstalled;
    }
    if hasBegin && !hasEnd && |issues| == 0 {
      issues := issues + [TruncatedBlock];
    }
    if hasBegin && hasEnd && |issues| == 0 {
      var body := ManagedBlockBody(content, begin, end);
      if body.Some? && TrimSpace(body.value) != TrimSpace(canonical) {
        issues := issues + [ContentDiffers];
      }
    }
    EndAloneIsRejected(content, begin, end);
    if |issues| > 0 {
      return issues, Broken;
    }
    return [], Healthy;
  }

  lemma EndAloneIsRejected(content: string, begin: string, end: string)
    requires begin != "" && end != ""
    ensures !Contains(content, begin) && Contains(content, end) ==> ValidateMarkerTopology(content, begin, end).Err?
  {
  }

  lemma BodyOfFull(c: string, begin: string, end: string, sh: Shape)
    requires Markers(begin, end) && HasShape(c, begin, end, sh) && sh.Full?
    ensures ManagedBlockBody(c, begin, end) == Some(c[sh.b + |begin|..sh.e])
  {
    FullAccepted(c, begin, end, sh);
    EndFromBegin(c, end, sh.b + |begin|, sh.e);
  }

  lemma ContainsByShape(c: string, begin: string, end: string, sh: Shape)
    requires Markers(begin, end) && HasShape(c, begin, end, sh)
    ensures Contains(c, begin) <==> !sh.Plain?
    ensures Contains(c, end) <==> sh.Full?
  {
    CountAbsent(c, begin);
    CountAbsent(c, end);
  }

  /** Health, exactly: not installed means no marker; healthy means one whole block with the canonical body. */
  lemma HealthByShape(c: string, begin: string, end: string, canonical: string, sh: Shape)
    requires Markers(begin, end) && HasShape(c, begin, end, sh)
    ensures HealthOf(c, begin, end, canonical) ==
            if sh.Plain? then NotInstalled
            else if sh.Truncated? then Broken
            else if TrimSpace(c[sh.b + |begin|..sh.e]) == TrimSpace(canonical) then Healthy else Broken
  {
    ShapeAccepted(c, begin, end, sh);
    ContainsByShape(c, begin, end, sh);
    if sh.Full? {
      BodyOfFull(c, begin, end, sh);
    }
  }

  /** A file called healthy or not installed is one that upsert and remove accept. */
  lemma HealthyMeansAccepted(c: string, begin: string, end: string, canonical: string)
    requires Markers(begin, end) && HealthOf(c, begin, end, canonical) != Broken
    ensures Upsert(c, begin, end, canonical).Ok? && Remove(c, begin, end).Ok?
  {
  }

  lemma MiddleTrims(body: string)
    ensures TrimSpace(Middle(body)) == TrimSpace(body)
  {
    var a, b := TrimSplits(body);
    TrimUnique("\n", TrimSpace(body), "\n");
  }

  /** Every successful upsert of the canonical body is healthy afterwards. */
  lemma UpsertMakesHealthy(c: string, begin: string, end: string, canonical: string)
    requires Markers(begin, end) && Clean(canonical, begin, end) && Upsert(c, begin, end, canonical).Ok?
    ensures HealthOf(Upsert(c, begin, end, canonical).value, begin, end, canonical) == Healthy
  {
    var sh := AcceptedHasShape(c, begin, end);
    var c', sh' := Upserted(c, begin, end, canonical, sh);
    HealthByShape(c', begin, end, canonical, sh');
    MiddleTrims(canonical);
  }

  /** Every successful remove is not installed afterwards. */
  lemma RemoveMakesNotInstalled(c: string, begin: string, end: string, canonical: string)
    requires Markers(begin, end) && Remove(c, begin, end).Ok?
    ensures HealthOf(Remove(c, begin, end).value, begin, end, canonical) == NotInstalled
  {
    var c' := RemoveLeavesNoMarker(c, begin, end);
    HealthByShape(c', begin, end, canonical, Plain);
  }
}
