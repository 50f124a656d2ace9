/** Models of the Go library functions that `fileName` is built from:
    `strings.HasSuffix`, `strings.TrimSuffix`, and the Unix behaviour of
    `filepath.Base` and `filepath.Ext` (the separator is `/`, there are no
    volume names). The loops of `filepath` are written as recursions over an
    index, scanning the path from its end as the library does. Go strings are
    byte strings; since `/` and `.` are ASCII and never occur inside a
    multi-byte UTF-8 sequence, working on `char`s gives the same results. */
module Paths {

  const Separator: char := '/'

  /** `strings.HasSuffix(s, suffix)`. */
  predicate HasSuffix(s: string, suffix: string) {
    |suffix| <= |s| && s[|s| - |suffix|..] == suffix
  }

  /** Every character of `s` is the separator. */
  predicate AllSeparators(s: string) {
    forall k :: 0 <= k < |s| ==> s[k] == Separator
  }

  /** `strings.TrimSuffix(s, suffix)`: `s` without `suffix` when it ends with
      it, `s` unchanged otherwise. */
  function TrimSuffix(s: string, suffix: string): (r: string)
    ensures r <= s
    ensures HasSuffix(s, suffix) ==> r + suffix == s
    ensures !HasSuffix(s, suffix) ==> r == s
  {
    if HasSuffix(s, suffix) then s[..|s| - |suffix|] else s
  }

  /** The first loop of `filepath.Base`: the length of `p[..n]` once every
      trailing separator is dropped (see `TrimmedTail`). */
  function TrimmedLength(p: string, n: nat): (m: nat)
    requires n <= |p|
    ensures m <= n
    ensures m == 0 || p[m - 1] != Separator
  {
    if n > 0 && p[n - 1] == Separator then TrimmedLength(p, n - 1) else n
  }

  /** The second loop of `filepath.Base`: scanning down from index `i`, the
      index of the first separator met, or -1 when there is none (see
      `NoSeparatorAfter`). */
  function LastSeparator(p: string, i: int): (j: int)
    requires -1 <= i < |p|
    ensures -1 <= j <= i
    ensures j >= 0 ==> p[j] == Separator
    decreases i + 1
  {
    if i < 0 || p[i] == Separator then i else LastSeparator(p, i - 1)
  }

  /** `filepath.Base(p)`: "." for the empty path; otherwise the path without
      its trailing separators is cut after its last separator, and what is
      left is the result, or "/" when nothing is left (see
      `BaseIsLastElement`). */
  function Base(p: string): (r: string)
    ensures |r| > 0
  {
    if |p| == 0 then "."
    else
      var m := TrimmedLength(p, |p|);
      var e := p[LastSeparator(p, m - 1) + 1..m];
      if |e| == 0 then [Separator] else e
  }

  /** The loop of `filepath.Ext`: scanning down from index `i`, stop at a
      separator or at the start with no extension (the index `|p|`, from
      which "" is left), or at the first dot met (see `ExtIndexScan`). */
  function ExtIndex(p: string, i: int): (j: int)
    requires -1 <= i < |p|
    ensures j == |p| || (0 <= j <= i && p[j] == '.')
    decreases i + 1
  {
    if i < 0 || p[i] == Separator then |p|
    else if p[i] == '.' then i
    else ExtIndex(p, i - 1)
  }

  /** `filepath.Ext(p)`: everything from the dot `ExtIndex` finds (see
      `ExtIsLastDot`). It is applied to the whole path, so a path ending in a
      separator has no extension. */
  function Ext(p: string): string {
    p[ExtIndex(p, |p| - 1)..]
  }

  /** `fileName(path)` of render_github_markdown.go: the base name with the
      extension of the whole path trimmed off. */
  function FileName(p: string): string {
    TrimSuffix(Base(p), Ext(p))
  }

  /** The first loop of `filepath.Base` drops separators only. */
  lemma {:induction false} TrimmedTail(p: string, n: nat)
    requires n <= |p|
    ensures forall k :: TrimmedLength(p, n) <= k < n ==> p[k] == Separator
  {
    if n > 0 && p[n - 1] == Separator {
      TrimmedTail(p, n - 1);
    }
  }

  /** The second loop of `filepath.Base` passes no separator. */
  lemma {:induction false} NoSeparatorAfter(p: string, i: int)
    requires -1 <= i < |p|
    ensures forall k :: LastSeparator(p, i) < k <= i ==> p[k] != Separator
    decreases i + 1
  {
    if i >= 0 && p[i] != Separator {
      NoSeparatorAfter(p, i - 1);
    }
  }

  /** Scanning a stretch without separators finds none. */
  lemma {:induction false} NoSeparatorFound(p: string, i: int)
    requires -1 <= i < |p|
    requires forall k :: 0 <= k <= i ==> p[k] != Separator
    ensures LastSeparator(p, i) == -1
    decreases i + 1
  {
    if i >= 0 {
      NoSeparatorFound(p, i - 1);
    }
  }

  /** The loop of `filepath.Ext` stops at the last dot before any separator:
      a found dot lies after the last separator and is followed by no dot and
      no separator; when none is found, no dot follows the last separator. */
  lemma {:induction false} ExtIndexScan(p: string, i: int)
    requires -1 <= i < |p|
    ensures var j := ExtIndex(p, i);
            j < |p| ==> LastSeparator(p, i) < j
                        && forall k :: j < k <= i ==> p[k] != '.' && p[k] != Separator
    ensures ExtIndex(p, i) == |p| ==>
              forall k :: LastSeparator(p, i) < k <= i ==> p[k] != '.'
    decreases i + 1
  {
    if i >= 0 && p[i] != Separator && p[i] != '.' {
      ExtIndexScan(p, i - 1);
    }
  }

  /** `p[i..m]` is the last element of `p`: it holds no separator, it starts
      `p` or follows a separator, and only separators follow it. */
  predicate IsLastElement(p: string, i: int, m: int) {
    0 <= i <= m <= |p|
    && (i == 0 || p[i - 1] == Separator)
    && (forall k :: i <= k < m ==> p[k] != Separator)
    && (forall k :: m <= k < |p| ==> p[k] == Separator)
  }

  /** The first loop of `filepath.Base` leaves nothing exactly when the path
      is made of separators only. */
  lemma TrimmedToNothing(p: string)
    ensures TrimmedLength(p, |p|) == 0 <==> AllSeparators(p)
  {
    TrimmedTail(p, |p|);
  }

  /** When the first loop of `filepath.Base` leaves something, the base name
      is the non-empty stretch that the second loop cuts out. */
  lemma BaseSlice(p: string)
    requires TrimmedLength(p, |p|) > 0
    ensures var m := TrimmedLength(p, |p|);
            var i := LastSeparator(p, m - 1) + 1;
            i < m && Base(p) == p[i..m]
  {
  }

  /** When the first loop of `filepath.Base` leaves something, the second
      loop cuts out the path's last element. */
  lemma ScanFindsLastElement(p: string)
    requires TrimmedLength(p, |p|) > 0
    ensures var m := TrimmedLength(p, |p|);
            IsLastElement(p, LastSeparator(p, m - 1) + 1, m)
  {
    TrimmedTail(p, |p|);
    NoSeparatorAfter(p, TrimmedLength(p, |p|) - 1);
  }

  /** A path made of separators only has the base name "/". */
  lemma BaseOfAllSeparators(p: string)
    requires |p| > 0 && AllSeparators(p)
    ensures Base(p) == [Separator]
  {
    TrimmedToNothing(p);
  }

  /** Any other non-empty path has a base name that does not end in a
      separator. */
  lemma BaseEndsInElement(p: string)
    requires |p| > 0 && !AllSeparators(p)
    ensures Base(p)[|Base(p)| - 1] != Separator
  {
    TrimmedToNothing(p);
    BaseSlice(p);
    var m := TrimmedLength(p, |p|);
    assert Base(p)[|Base(p)| - 1] == p[m - 1];
  }

  /** For a non-empty path, the base name is "/" exactly when the path is
      made of separators only. */
  lemma BaseOfSeparators(p: string)
    requires |p| > 0
    ensures Base(p) == [Separator] <==> AllSeparators(p)
  {
    if AllSeparators(p) {
      BaseOfAllSeparators(p);
    } else {
      BaseEndsInElement(p);
    }
  }

  /** For a non-empty path, the base name is "/" exactly when the path is
      made of separators only; otherwise it is the path's last element. */
  lemma BaseIsLastElement(p: string)
    requires |p| > 0
    ensures Base(p) == [Separator] <==> AllSeparators(p)
    ensures !AllSeparators(p) ==>
              var m := TrimmedLength(p, |p|);
              var i := LastSeparator(p, m - 1) + 1;
              i < m && IsLastElement(p, i, m) && Base(p) == p[i..m]
  {
    BaseOfSeparators(p);
    TrimmedToNothing(p);
    if !AllSeparators(p) {
      BaseSlice(p);
      ScanFindsLastElement(p);
    }
  }

  /** When the first loop of `filepath.Base` leaves something, the base name
      holds no separator. */
  lemma ElementHasNoSeparator(p: string)
    requires TrimmedLength(p, |p|) > 0
    ensures forall k :: 0 <= k < |Base(p)| ==> Base(p)[k] != Separator
  {
    BaseSlice(p);
    var m := TrimmedLength(p, |p|);
    var i := LastSeparator(p, m - 1) + 1;
    NoSeparatorAfter(p, m - 1);
    forall k | 0 <= k < |Base(p)|
      ensures Base(p)[k] != Separator
    {
      assert Base(p)[k] == p[i + k];
    }
  }

  /** The base name holds a separator only when it is "/". */
  lemma BaseHasNoSeparator(p: string)
    ensures Base(p) == [Separator] || forall k :: 0 <= k < |Base(p)| ==> Base(p)[k] != Separator
  {
    TrimmedToNothing(p);
    if |p| > 0 && AllSeparators(p) {
      BaseOfAllSeparators(p);
    } else if |p| > 0 {
      ElementHasNoSeparator(p);
    }
  }

  /** The extension is "" or a suffix of the path that starts with a dot and
      holds no further dot and no separator; it is "" exactly when no dot
      follows the last separator. */
  lemma ExtIsLastDot(p: string)
    ensures |Ext(p)| > 0 ==> HasSuffix(p, Ext(p)) && Ext(p)[0] == '.'
    ensures forall k :: 0 < k < |Ext(p)| ==> Ext(p)[k] != '.' && Ext(p)[k] != Separator
    ensures |Ext(p)| == 0 <==> forall k :: LastSeparator(p, |p| - 1) < k < |p| ==> p[k] != '.'
  {
    var x := ExtIndex(p, |p| - 1);
    ExtIndexScan(p, |p| - 1);
    var e := Ext(p);
    assert forall k :: 0 <= k < |e| ==> e[k] == p[x + k];
  }

  /** Without a trailing separator, the base name is what follows the last
      separator. */
  lemma BaseWithoutTrailingSeparator(p: string) returns (i: nat)
    requires |p| > 0 && p[|p| - 1] != Separator
    ensures i == LastSeparator(p, |p| - 1) + 1 && i < |p|
    ensures Base(p) == p[i..|p|]
  {
    assert TrimmedLength(p, |p|) == |p|;
    BaseSlice(p);
    i := LastSeparator(p, |p| - 1) + 1;
  }

  /** A later slice of `p` to the end is a suffix of an earlier one. */
  lemma SuffixOfSlice(p: string, i: nat, s: nat)
    requires i <= s <= |p|
    ensures HasSuffix(p[i..|p|], p[s..])
  {
    assert p[i..|p|][|p[i..|p|]| - |p[s..]|..] == p[s..];
  }

  /** Without a trailing separator, the extension starts no earlier than the
      base name, so it is a suffix of it. */
  lemma ExtInsideLastElement(p: string)
    requires |p| > 0 && p[|p| - 1] != Separator
    ensures HasSuffix(Base(p), Ext(p))
  {
    var i := BaseWithoutTrailingSeparator(p);
    ExtIndexScan(p, |p| - 1);
    SuffixOfSlice(p, i, ExtIndex(p, |p| - 1));
  }

  /** The extension always lies inside the base name: a path with a trailing
      separator has no extension, and otherwise the extension starts after the
      last separator. */
  lemma ExtIsSuffixOfBase(p: string)
    ensures HasSuffix(Base(p), Ext(p))
  {
    if |p| > 0 && p[|p| - 1] != Separator {
      ExtInsideLastElement(p);
    } else if |p| > 0 {
      assert ExtIndex(p, |p| - 1) == |p|;
    }
  }

  /** The properties of `fileName`: gluing the extension back gives the base
      name, so the result is a prefix of the base name, and it holds no
      separator unless the base name is "/". */
  lemma FileNameSplitsBase(p: string)
    ensures FileName(p) + Ext(p) == Base(p)
    ensures FileName(p) <= Base(p)
    ensures Separator in FileName(p) ==> Base(p) == [Separator]
  {
    ExtIsSuffixOfBase(p);
    BaseHasNoSeparator(p);
    var f := FileName(p);
    if Separator in f {
      var k :| 0 <= k < |f| && f[k] == Separator;
      assert Base(p)[k] == f[k];
    }
  }

  /** A path that ends in a separator keeps the dot of its last element:
      `fileName("notes.md/")` is "notes.md". */
  lemma TrailingSeparatorKeepsDot(p: string)
    requires |p| > 0 && p[|p| - 1] == Separator
    ensures Ext(p) == "" && FileName(p) == Base(p)
  {
    assert ExtIndex(p, |p| - 1) == |p|;
  }

  /** A path without separators is its own base name. */
  lemma BaseOfPlainName(p: string)
    requires |p| > 0 && Separator !in p
    ensures Base(p) == p
  {
    NoSeparatorFound(p, |p| - 1);
    var i := BaseWithoutTrailingSeparator(p);
    assert p[0..|p|] == p;
  }

  /** `fileName("readme.md")` is "readme". */
  lemma FileNameOfReadme()
    ensures FileName("readme.md") == "readme"
  {
    var p := "readme.md";
    BaseOfPlainName(p);
    assert ExtIndex(p, 6) == 6;
    assert ExtIndex(p, 8) == 6;
    assert p[..6] == "readme";
  }
}
