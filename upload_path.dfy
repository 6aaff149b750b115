/** The upload path builder: the destination of an uploaded file is its
    temporary path followed by "." and whatever comes after the last
    separator in the file's original name.

    The builder is written on top of two JavaScript string primitives,
    `lastIndexOf` and `slice`, which are modelled here with their
    JavaScript meaning (including the cases an empty separator, a missing
    separator and a start index past the end produce). */
module UploadPath {

  /** `sep` occurs in `s` starting at index `i`. */
  predicate OccursAt(s: string, sep: string, i: int)
  {
    0 <= i && i + |sep| <= |s| && s[i..i + |sep|] == sep
  }

  /** `sep` occurs somewhere in `s` (the empty string occurs everywhere). */
  ghost predicate Occurs(s: string, sep: string)
  {
    exists i :: OccursAt(s, sep, i)
  }

  /** `r` is a suffix of `s`. */
  predicate IsSuffix(r: string, s: string)
  {
    |r| <= |s| && s[|s| - |r|..] == r
  }

  /** The largest index below `k` at which `sep` occurs in `s`, or -1. */
  function LastIndexBelow(s: string, sep: string, k: nat): (r: int)
    ensures -1 <= r < k
    ensures r >= 0 ==> OccursAt(s, sep, r)
    ensures forall j :: r < j < k ==> !OccursAt(s, sep, j)
    decreases k
  {
    if k == 0 then -1
    else if OccursAt(s, sep, k - 1) then k - 1
    else LastIndexBelow(s, sep, k - 1)
  }

  /** JavaScript's `s.lastIndexOf(sep)`: where the last occurrence of `sep`
      starts, or -1 when there is none. An empty `sep` is found at `|s|`. */
  function LastIndexOf(s: string, sep: string): (r: int)
    ensures r == -1 || OccursAt(s, sep, r)
    ensures r == -1 <==> !Occurs(s, sep)
    ensures forall j :: r < j ==> !OccursAt(s, sep, j)
  {
    LastIndexBelow(s, sep, |s| + 1)
  }

  /** JavaScript's `s.slice(start)` for a start that is not negative: the
      characters from `start` on, or nothing when `start` is past the end. */
  function SliceFrom(s: string, start: nat): (r: string)
    ensures IsSuffix(r, s)
    ensures |r| == if start <= |s| then |s| - start else 0
  {
    if start <= |s| then s[start..] else ""
  }

  /** `splitLastOccurrence(str, substring)`: the part of `s` that starts one
      character after the start of the last occurrence of `sep`. */
  function SplitLastOccurrence(s: string, sep: string): (r: string)
    ensures IsSuffix(r, s)
    ensures !Occurs(s, sep) ==> r == s
    ensures sep == "" ==> r == ""
  {
    SliceFrom(s, LastIndexOf(s, sep) + 1)
  }

  /** `newPath(path, str, substring = ".")`: the temporary path, a dot, and
      the part of the original name after its last separator. */
  function NewPath(path: string, name: string, sep: string := "."): (r: string)
    ensures |r| == |path| + 1 + |SplitLastOccurrence(name, sep)|
    ensures r[..|path| + 1] == path + "."
    ensures IsSuffix(r[|path| + 1..], name)
    ensures !Occurs(name, sep) ==> r == path + "." + name
    ensures |sep| == 1 ==> sep[0] !in r[|path| + 1..]
  {
    var ext := SplitLastOccurrence(name, sep);
    assert |sep| == 1 ==> sep[0] !in ext by {
      if |sep| == 1 {
        assert sep == [sep[0]];
        SplitHasNoSeparatorChar(name, sep[0]);
      }
    }
    assert (path + "." + ext)[|path| + 1..] == ext;
    path + "." + ext
  }

  /** When the last occurrence of `sep` starts at `i`, the split is exactly
      what follows index `i` (nothing, when `i` is the end of `s`). */
  lemma SplitAfterLastOccurrence(s: string, sep: string, i: nat)
    requires OccursAt(s, sep, i)
    requires forall j :: i < j ==> !OccursAt(s, sep, j)
    ensures SplitLastOccurrence(s, sep) == if i < |s| then s[i + 1..] else ""
  {
  }

  /** With a one-character separator the split never contains that
      character, whether or not the name contains it. */
  lemma SplitHasNoSeparatorChar(s: string, c: char)
    ensures c !in SplitLastOccurrence(s, [c])
  {
    var r := SplitLastOccurrence(s, [c]);
    if c in r {
      var m :| 0 <= m < |r| && r[m] == c;
      var at := |s| - |r| + m;
      assert s[at] == c;
      assert s[at..at + 1] == [c];
      assert OccursAt(s, [c], at);
    }
  }

  /** With a longer separator the split keeps all but the first character of
      the last occurrence: it starts with `sep[1..]`. */
  lemma SplitKeepsSeparatorTail(s: string, sep: string)
    requires |sep| >= 1 && Occurs(s, sep)
    ensures |sep| - 1 <= |SplitLastOccurrence(s, sep)|
    ensures SplitLastOccurrence(s, sep)[..|sep| - 1] == sep[1..]
  {
  }

  /** A name that ends in the separator "." gives the path followed by a
      lone dot. */
  lemma NewPathTrailingDot(path: string, name: string)
    requires |name| > 0 && name[|name| - 1] == '.'
    ensures NewPath(path, name) == path + "."
  {
  }

  /** "photo.png" uploaded to "/tmp/abc" is moved to "/tmp/abc.png". */
  lemma NewPathKeepsExtension()
    ensures NewPath("/tmp/abc", "photo.png") == "/tmp/abc.png"
  {
  }

  /** A name without a dot is kept whole: "noext" uploaded to "/tmp/abc" is
      moved to "/tmp/abc.noext". */
  lemma NewPathKeepsWholeNameWithoutDot()
    ensures NewPath("/tmp/abc", "noext") == "/tmp/abc.noext"
  {
  }
}
