/** The `System.IO.Path` operations the library uses, with Windows rules: both '\' and '/'
    separate, '\' is the canonical separator, and a root is "\", "X:" or "X:\". */
module Paths {
  import opened Wrappers
  import opened Text

  /** `Path.DirectorySeparatorChar` */
  const Separator: char := '\\'

  /** `Path.AltDirectorySeparatorChar` */
  const AltSeparator: char := '/'

  predicate IsSeparator(c: char) {
    c == Separator || c == AltSeparator
  }

  /** The length of the root at the front of `p`: 1 for a leading separator, 2 for a drive
      ("C:"), 3 for a drive and a separator ("C:\"), 0 for a relative path. */
  function RootLength(p: string): (n: nat)
    ensures n <= |p| && n <= 3
    ensures n > 0 <==> IsPathRooted(p)
    ensures n == 1 ==> IsSeparator(p[0])
    ensures n == 3 ==> IsSeparator(p[2])
  {
    if |p| >= 1 && IsSeparator(p[0]) then 1
    else if |p| >= 2 && IsAsciiLetter(p[0]) && p[1] == ':' then
      if |p| > 2 && IsSeparator(p[2]) then 3 else 2
    else 0
  }

  /** `Path.IsPathRooted` */
  predicate IsPathRooted(p: string) {
    (|p| >= 1 && IsSeparator(p[0])) || (|p| >= 2 && IsAsciiLetter(p[0]) && p[1] == ':')
  }

  /** Empty, or spaces only: such a path has no root and no directory. */
  predicate IsEffectivelyEmpty(p: string) {
    forall i | 0 <= i < |p| :: p[i] == ' '
  }

  /** Every separator becomes '\', and a separator directly followed by another is dropped,
      except at the very front. */
  function NormalizeSeparators(s: string): (r: string)
    ensures |r| <= |s|
    ensures AltSeparator !in r
  {
    if s == [] then [] else [if IsSeparator(s[0]) then Separator else s[0]] + CollapseSeparators(s[1..])
  }

  function CollapseSeparators(s: string): (r: string)
    ensures |r| <= |s|
    ensures AltSeparator !in r
  {
    if s == [] then []
    else if IsSeparator(s[0]) && |s| > 1 && IsSeparator(s[1]) then CollapseSeparators(s[1..])
    else [if IsSeparator(s[0]) then Separator else s[0]] + CollapseSeparators(s[1..])
  }

  /** `Path.GetPathRoot`; `Null` for an effectively empty path. */
  function GetPathRoot(p: string): (r: Option<string>)
    ensures r.Null? <==> IsEffectivelyEmpty(p)
    ensures r.Some? ==> r.value == NormalizeSeparators(p[..RootLength(p)])
    ensures r.Some? && IsPathRooted(p) ==> r.value != []
  {
    if IsEffectivelyEmpty(p) then Null else Some(NormalizeSeparators(p[..RootLength(p)]))
  }

  /** `Directory.GetDirectoryRoot`: the root of a directory, which fails on a null path. */
  function GetDirectoryRoot(p: Option<string>): (r: Result<string>)
    ensures r.Ok? <==> p.Some? && !IsEffectivelyEmpty(p.value)
    ensures r.Ok? ==> GetPathRoot(p.value) == Some(r.value)
  {
    if p.Null? then Fail("Value cannot be null. (Parameter 'path')")
    else match GetPathRoot(p.value)
      case Null => Fail("The path is empty. (Parameter 'path')")
      case Some(root) => Ok(root)
  }

  /** `Path.Combine(first, second)`: `second` when it is rooted or `first` is empty, `first`
      when `second` is empty, else the two joined by one '\' unless `first` already ends
      with a separator. */
  function Combine(first: string, second: string): (r: string)
    ensures IsPathRooted(second) ==> r == second
    ensures first == [] ==> r == second
    ensures second == [] ==> r == first
    ensures first != [] && second != [] && !IsPathRooted(second) ==>
      r == first + (if IsSeparator(first[|first| - 1]) then [] else [Separator]) + second
  {
    if second == [] then first
    else if first == [] then second
    else if IsPathRooted(second) then second
    else if IsSeparator(first[|first| - 1]) then first + second
    else first + [Separator] + second
  }

  /** The index of the last separator in `p[root..end]`, or `root` when there is none after
      `root`. */
  function LastSeparator(p: string, root: nat, end: nat): (i: nat)
    requires root <= end <= |p|
    ensures root <= i && (i < end || i == root)
    ensures i > root ==> IsSeparator(p[i])
    ensures forall j | i < j < end :: !IsSeparator(p[j])
    decreases end
  {
    if end == root then root
    else if IsSeparator(p[end - 1]) then end - 1
    else LastSeparator(p, root, end - 1)
  }

  /** `end` moved down past any separators that end `p[..end]`, but not into the root. */
  function TrimSeparators(p: string, root: nat, end: nat): (e: nat)
    requires root <= end <= |p|
    ensures root <= e <= end
    ensures e > root ==> !IsSeparator(p[e - 1])
    ensures forall j | e <= j < end :: IsSeparator(p[j])
    decreases end
  {
    if end > root && IsSeparator(p[end - 1]) then TrimSeparators(p, root, end - 1) else end
  }

  /** `Path.GetDirectoryName`: everything before the last separator, trailing separators
      dropped, normalized; `Null` when the path is effectively empty or is only a root. */
  function GetDirectoryName(p: string): (r: Option<string>)
    ensures r.Some? <==> !IsEffectivelyEmpty(p) && |p| > RootLength(p)
    ensures r.Some? ==> |r.value| < |p|
  {
    if IsEffectivelyEmpty(p) then Null
    else
      var root := RootLength(p);
      if |p| <= root then Null
      else Some(NormalizeSeparators(p[..TrimSeparators(p, root, LastSeparator(p, root, |p|))]))
  }

  /** Where the file name starts when scanning `p[..end]` down from `end`: just after a
      separator, or at the end of the root. */
  function FileNameStart(p: string, end: nat): (i: nat)
    requires end <= |p|
    ensures i <= end
    ensures i == 0 || i - 1 < RootLength(p) || IsSeparator(p[i - 1])
    ensures forall j | i <= j < end :: !IsSeparator(p[j])
    ensures RootLength(p) <= end ==> RootLength(p) <= i
    decreases end
  {
    if end == 0 then 0
    else if end - 1 < RootLength(p) || IsSeparator(p[end - 1]) then end
    else FileNameStart(p, end - 1)
  }

  /** `Path.GetFileName`: the part of `p` after its last separator and after its root. */
  function GetFileName(p: string): (r: string)
    ensures |r| <= |p| && r == p[|p| - |r|..]
    ensures forall i | 0 <= i < |r| :: !IsSeparator(r[i])
  {
    p[FileNameStart(p, |p|)..]
  }

  /** `Path.GetFileNameWithoutExtension`: the file name cut at its last '.'. */
  function GetFileNameWithoutExtension(p: string): (r: string)
    ensures |r| <= |GetFileName(p)| && r == GetFileName(p)[..|r|]
    ensures |r| < |GetFileName(p)| ==> GetFileName(p)[|r|] == '.'
    ensures forall j | |r| < j < |GetFileName(p)| :: GetFileName(p)[j] != '.'
  {
    var name := GetFileName(p);
    name[..LastDot(name, |name|)]
  }

  /** The index of the last '.' in `s[..end]`, or `|s|` when there is none. */
  function LastDot(s: string, end: nat): (i: nat)
    requires end <= |s|
    ensures i == |s| || (i < end && s[i] == '.')
    ensures forall j | i < j < end :: s[j] != '.'
    ensures i == |s| ==> forall j | 0 <= j < end :: s[j] != '.'
    decreases end
  {
    if end == 0 then |s|
    else if s[end - 1] == '.' then end - 1
    else LastDot(s, end - 1)
  }

  /** Two separators in a row at `i`: an empty path segment. */
  predicate DoubleSeparatorAt(p: string, i: nat)
    requires i + 1 < |p|
  {
    IsSeparator(p[i]) && IsSeparator(p[i + 1])
  }

  /** A file path as the library forms them: canonical separators only, no empty segment,
      no trailing separator, no ':' after the root, not a drive-relative "C:name", and a
      file name after the root. */
  predicate IsFilePath(p: string) {
    && !IsEffectivelyEmpty(p)
    && RootLength(p) != 2
    && |p| > RootLength(p)
    && (forall i | 0 <= i < |p| :: p[i] != AltSeparator)
    && (forall i | 0 <= i < |p| - 1 :: !DoubleSeparatorAt(p, i))
    && !IsSeparator(p[|p| - 1])
    && (forall i | RootLength(p) <= i < |p| :: p[i] != ':')
  }

  /** Normalizing a path that is already canonical changes nothing. */
  lemma {:induction false} NormalizeCanonical(s: string)
    requires forall i | 0 <= i < |s| :: s[i] != AltSeparator
    requires forall i | 0 <= i < |s| - 1 :: !DoubleSeparatorAt(s, i)
    ensures NormalizeSeparators(s) == s
  {
    if s != [] {
      assert forall i | 0 <= i < |s| - 2 :: DoubleSeparatorAt(s[1..], i) == DoubleSeparatorAt(s, i + 1);
      CollapseCanonical(s[1..]);
    }
  }

  lemma {:induction false} CollapseCanonical(s: string)
    requires forall i | 0 <= i < |s| :: s[i] != AltSeparator
    requires forall i | 0 <= i < |s| - 1 :: !DoubleSeparatorAt(s, i)
    ensures CollapseSeparators(s) == s
  {
    if s != [] {
      assert |s| > 1 ==> !DoubleSeparatorAt(s, 0);
      assert forall i | 0 <= i < |s| - 2 :: DoubleSeparatorAt(s[1..], i) == DoubleSeparatorAt(s, i + 1);
      CollapseCanonical(s[1..]);
    }
  }

  lemma NormalizePrefix(p: string, n: nat)
    requires IsFilePath(p) && n <= |p|
    ensures NormalizeSeparators(p[..n]) == p[..n]
  {
    assert forall i | 0 <= i && i + 1 < n :: DoubleSeparatorAt(p[..n], i) == DoubleSeparatorAt(p, i);
    NormalizeCanonical(p[..n]);
  }

  /** Splitting a file path into its directory and its file name and combining them again
      gives back the path. */
  lemma CombineDirectoryAndFileName(p: string)
    requires IsFilePath(p)
    ensures GetDirectoryName(p).Some?
    ensures Combine(GetDirectoryName(p).value, GetFileName(p)) == p
  {
    var root := RootLength(p);
    var k := LastSeparator(p, root, |p|);
    if k == root {
      CombineAtRoot(p);
    } else {
      CombineAtSeparator(p, k);
    }
  }

  /** The case with no separator after the root: the directory is the root itself. */
  lemma CombineAtRoot(p: string)
    requires IsFilePath(p)
    requires LastSeparator(p, RootLength(p), |p|) == RootLength(p)
    ensures GetDirectoryName(p) == Some(p[..RootLength(p)])
    ensures GetFileName(p) == p[RootLength(p)..]
    ensures Combine(p[..RootLength(p)], p[RootLength(p)..]) == p
  {
    var root := RootLength(p);
    assert !IsSeparator(p[root]) by {
      if root != 0 { assert IsSeparator(p[root - 1]) && !DoubleSeparatorAt(p, root - 1); }
    }
    DirectoryAtRoot(p);
    FileNameAfterRoot(p);
    JoinAtRoot(p);
  }

  lemma DirectoryAtRoot(p: string)
    requires IsFilePath(p)
    requires LastSeparator(p, RootLength(p), |p|) == RootLength(p)
    ensures GetDirectoryName(p) == Some(p[..RootLength(p)])
  {
    assert TrimSeparators(p, RootLength(p), RootLength(p)) == RootLength(p);
    NormalizePrefix(p, RootLength(p));
  }

  lemma FileNameAfterRoot(p: string)
    requires IsFilePath(p)
    requires LastSeparator(p, RootLength(p), |p|) == RootLength(p)
    requires !IsSeparator(p[RootLength(p)])
    ensures FileNameStart(p, |p|) == RootLength(p)
  {
    assert forall j | RootLength(p) <= j < |p| :: !IsSeparator(p[j]);
  }

  lemma JoinAtRoot(p: string)
    requires IsFilePath(p)
    requires !IsSeparator(p[RootLength(p)])
    ensures Combine(p[..RootLength(p)], p[RootLength(p)..]) == p
  {
    var root := RootLength(p);
    var name := p[root..];
    if root != 0 {
      assert IsSeparator(p[root - 1]);
      assert !IsPathRooted(name) by {
        assert name[0] == p[root];
        assert |name| >= 2 ==> name[1] == p[root + 1] && p[root + 1] != ':';
      }
      assert p == p[..root] + name;
    }
  }

  /** The case with a separator at `k` after the root: it joins directory and file name. */
  lemma CombineAtSeparator(p: string, k: nat)
    requires IsFilePath(p)
    requires k == LastSeparator(p, RootLength(p), |p|) && k != RootLength(p)
    ensures GetDirectoryName(p) == Some(p[..k])
    ensures GetFileName(p) == p[k + 1..]
    ensures Combine(p[..k], p[k + 1..]) == p
  {
    assert IsSeparator(p[k]) && k > RootLength(p) && k + 1 < |p|;
    assert !DoubleSeparatorAt(p, k - 1);
    DirectoryBeforeSeparator(p, k);
    JoinAtSeparator(p, k);
    FileNameAfterSeparator(p, k, |p|);
  }

  /** The file name starts just after the last separator. */
  lemma {:induction false} FileNameAfterSeparator(p: string, k: nat, end: nat)
    requires RootLength(p) <= k < end <= |p| && IsSeparator(p[k])
    requires forall j | k < j < end :: !IsSeparator(p[j])
    ensures FileNameStart(p, end) == k + 1
    decreases end
  {
    if end > k + 1 {
      FileNameAfterSeparator(p, k, end - 1);
    }
  }

  lemma DirectoryBeforeSeparator(p: string, k: nat)
    requires IsFilePath(p)
    requires k == LastSeparator(p, RootLength(p), |p|) && k != RootLength(p)
    requires k > RootLength(p) && k + 1 < |p| && IsSeparator(p[k]) && !IsSeparator(p[k - 1])
    ensures GetDirectoryName(p) == Some(p[..k])
  {
    assert TrimSeparators(p, RootLength(p), k) == k;
    NormalizePrefix(p, k);
  }

  lemma JoinAtSeparator(p: string, k: nat)
    requires IsFilePath(p)
    requires k > RootLength(p) && k + 1 < |p| && IsSeparator(p[k]) && !IsSeparator(p[k - 1])
    ensures Combine(p[..k], p[k + 1..]) == p
  {
    var name := p[k + 1..];
    assert !IsPathRooted(name) by {
      assert name[0] == p[k + 1] && !DoubleSeparatorAt(p, k);
      assert |name| >= 2 ==> name[1] == p[k + 2] && p[k + 2] != ':';
    }
    assert p == p[..k] + [Separator] + name;
  }
}
