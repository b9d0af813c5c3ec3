/** The functions of Go's `strings` package that the installers use, with what they mean in terms of
  * occurrences. Text is a sequence of code points. */
module Text {
  /** `m` occurs in `s` at index `i`. */
  predicate At(s: string, i: int, m: string)
  {
    0 <= i && i + |m| <= |s| && forall k :: 0 <= k < |m| ==> s[i + k] == m[k]
  }

  ghost predicate Absent(s: string, m: string)
  {
    forall i :: !At(s, i, m)
  }

  /** The one and only occurrence of `m` is at `i`. */
  ghost predicate Once(s: string, i: int, m: string)
  {
    At(s, i, m) && forall j :: At(s, j, m) ==> j == i
  }

  function IndexFrom(s: string, m: string, i: nat): (r: int)
    requires i <= |s|
    ensures r == -1 || i <= r <= |s| - |m|
    decreases |s| - i
  {
    if At(s, i, m) then i
    else if i == |s| then -1
    else IndexFrom(s, m, i + 1)
  }

  /** strings.Index: the first occurrence, or -1. */
  function Index(s: string, m: string): (r: int)
    ensures r == -1 || 0 <= r <= |s| - |m|
  {
    IndexFrom(s, m, 0)
  }

  lemma {:induction false} IndexFromIsFirst(s: string, m: string, i: nat)
    requires i <= |s|
    ensures var r := IndexFrom(s, m, i);
            || (r == -1 && forall j :: i <= j ==> !At(s, j, m))
            || (i <= r && At(s, r, m) && forall j :: i <= j < r ==> !At(s, j, m))
    decreases |s| - i
  {
    if !At(s, i, m) && i < |s| {
      IndexFromIsFirst(s, m, i + 1);
    }
  }

  /** `r` is the first occurrence of `m`, or -1 when there is none. */
  ghost predicate First(s: string, m: string, r: int)
  {
    || (r == -1 && Absent(s, m))
    || (At(s, r, m) && forall j :: j < r ==> !At(s, j, m))
  }

  lemma IndexIsFirst(s: string, m: string)
    ensures First(s, m, Index(s, m))
  {
    IndexFromIsFirst(s, m, 0);
  }

  lemma FirstIsIndex(s: string, m: string, r: int)
    requires First(s, m, r)
    ensures Index(s, m) == r
  {
    IndexIsFirst(s, m);
  }

  predicate Contains(s: string, m: string) { Index(s, m) >= 0 }

  function CountFrom(s: string, m: string, i: nat): nat
    requires m != "" && i <= |s|
    decreases |s| - i
  {
    var r := IndexFrom(s, m, i);
    if r < 0 then 0 else 1 + CountFrom(s, m, r + |m|)
  }

  /** strings.Count: occurrences that do not overlap, taken from the left. */
  function Count(s: string, m: string): nat
    requires m != ""
  {
    CountFrom(s, m, 0)
  }

  predicate HasPrefix(s: string, p: string) { At(s, 0, p) }

  predicate HasSuffix(s: string, p: string) { At(s, |s| - |p|, p) }

  /** A text made to end in a newline, unless it is empty. */
  function Terminated(c: string): string
  {
    if c != "" && c[|c| - 1] != '\n' then c + "\n" else c
  }

  lemma NewlineSuffix(c: string)
    ensures HasSuffix(c, "\n") <==> c != "" && c[|c| - 1] == '\n'
  {
    assert "\n"[0] == '\n';
    assert c != "" ==> c[|c| - 1 + 0] == c[|c| - 1];
  }

  /** unicode.IsSpace */
  predicate IsSpace(c: char)
  {
    || '\t' <= c <= '\r'
    || c == ' ' || c == '\U{85}' || c == '\U{A0}' || c == '\U{1680}'
    || c == '\U{2028}' || c == '\U{2029}' || c == '\U{202F}' || c == '\U{205F}' || c == '\U{3000}'
    || '\U{2000}' <= c <= '\U{200A}'
  }

  /** White space in Latin-1, by code. */
  lemma SpaceCodes(c: char)
    requires c < '\U{100}'
    ensures IsSpace(c) <==> c as int in {9, 10, 11, 12, 13, 32, 0x85, 0xA0}
  {
  }

  function TrimLeft(s: string): string
  {
    if s != "" && IsSpace(s[0]) then TrimLeft(s[1..]) else s
  }

  function TrimRight(s: string): string
  {
    if s != "" && IsSpace(s[|s| - 1]) then TrimRight(s[..|s| - 1]) else s
  }

  /** strings.TrimSpace */
  function TrimSpace(s: string): string { TrimRight(TrimLeft(s)) }

  /** No white space at either end. */
  predicate Trimmed(s: string) { s == "" || (!IsSpace(s[0]) && !IsSpace(s[|s| - 1])) }

  predicate AllSpace(s: string) { forall c :: c in s ==> IsSpace(c) }

  lemma TrimSplits(s: string) returns (a: string, b: string)
    ensures s == a + TrimSpace(s) + b && AllSpace(a) && AllSpace(b) && Trimmed(TrimSpace(s))
  {
    a := LeftSplits(s);
    b := RightSplits(TrimLeft(s));
    assert a + (TrimSpace(s) + b) == a + TrimSpace(s) + b;
  }

  lemma {:induction false} LeftSplits(s: string) returns (a: string)
    ensures s == a + TrimLeft(s) && AllSpace(a)
    ensures TrimLeft(s) == "" || !IsSpace(TrimLeft(s)[0])
  {
    a := "";
    if s != "" && IsSpace(s[0]) {
      var a' := LeftSplits(s[1..]);
      a := [s[0]] + a';
    }
  }

  lemma {:induction false} RightSplits(s: string) returns (b: string)
    ensures s == TrimRight(s) + b && AllSpace(b)
    ensures TrimRight(s) == "" || (TrimRight(s)[0] == s[0] && !IsSpace(TrimRight(s)[|TrimRight(s)| - 1]))
    decreases |s|
  {
    b := "";
    if s != "" && IsSpace(s[|s| - 1]) {
      var b' := RightSplits(s[..|s| - 1]);
      b := b' + [s[|s| - 1]];
    }
  }

  /** There is only one way to take white space off both ends. */
  lemma {:induction false} TrimUnique(a: string, t: string, b: string)
    requires AllSpace(a) && AllSpace(b) && Trimmed(t)
    ensures TrimSpace(a + t + b) == t
    decreases |a| + |b|
  {
    var s := a + t + b;
    if a != "" {
      assert s[0] == a[0] && a[0] in a;
      assert s[1..] == a[1..] + t + b;
      TrimUnique(a[1..], t, b);
    } else if t != "" {
      assert s[0] == t[0];
      TrimRightOf(t, b);
      assert s == t + b;
    } else {
      assert s == b;
      AllSpaceTrimsAway(b);
    }
  }

  lemma {:induction false} TrimRightOf(t: string, b: string)
    requires AllSpace(b) && Trimmed(t)
    ensures TrimRight(t + b) == t
    decreases |b|
  {
    if b != "" {
      assert (t + b)[|t + b| - 1] == b[|b| - 1] && b[|b| - 1] in b;
      assert (t + b)[..|t + b| - 1] == t + b[..|b| - 1];
      TrimRightOf(t, b[..|b| - 1]);
    } else {
      assert t + b == t;
    }
  }

  lemma {:induction false} AllSpaceTrimsAway(s: string)
    requires AllSpace(s)
    ensures TrimLeft(s) == ""
  {
    if s != "" {
      assert s[0] in s;
      AllSpaceTrimsAway(s[1..]);
    }
  }

  /** strings.Join */
  function Join(parts: seq<string>, sep: string): string
  {
    if parts == [] then ""
    else if |parts| == 1 then parts[0]
    else parts[0] + sep + Join(parts[1..], sep)
  }

  /** An occurrence in a part is an occurrence in the whole, and the other way round for what lies inside. */
  lemma AtInside(a: string, s: string, b: string, i: int, m: string)
    ensures At(s, i, m) <==> 0 <= i <= |s| - |m| && At(a + s + b, |a| + i, m)
  {
  }

  /** A part of a text without `m` is without `m`. */
  lemma PartAbsent(a: string, s: string, b: string, m: string)
    requires Absent(a + s + b, m)
    ensures Absent(s, m)
  {
    forall i
      ensures !At(s, i, m)
    {
      AtInside(a, s, b, i, m);
    }
  }
}
