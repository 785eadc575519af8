/** The parts of .NET's `string` and `char` API that the library relies on, over `seq<char>`. */
module Text {
  import opened Wrappers

  /** `char.IsWhiteSpace`: the Unicode space separators, line and paragraph separators,
      and the control characters U+0009..U+000D and U+0085. */
  predicate IsWhiteSpace(c: char) {
    || ('\t' <= c <= '\r')
    || c == ' ' || c == '\U{0085}' || c == '\U{00A0}' || c == '\U{1680}'
    || ('\U{2000}' <= c <= '\U{200A}')
    || c == '\U{2028}' || c == '\U{2029}' || c == '\U{202F}' || c == '\U{205F}' || c == '\U{3000}'
  }

  /** Empty or made of white space only. */
  predicate IsBlank(s: string) {
    forall i | 0 <= i < |s| :: IsWhiteSpace(s[i])
  }

  /** `string.IsNullOrWhiteSpace` */
  predicate IsNullOrWhiteSpace(s: Option<string>) {
    s.Null? || IsBlank(s.value)
  }

  /** ASCII decimal digit. The file-name patterns' `\d` is taken to match these only; .NET
      also matches the other Unicode decimal digits. */
  predicate IsDigit(c: char) {
    '0' <= c <= '9'
  }

  predicate IsAsciiLetter(c: char) {
    ('a' <= c <= 'z') || ('A' <= c <= 'Z')
  }

  /** ASCII letters, ASCII digits and the underscore: the patterns' `\w` as modelled here;
      .NET also matches the other Unicode letters and digits. */
  predicate IsWordChar(c: char) {
    IsAsciiLetter(c) || IsDigit(c) || c == '_'
  }

  predicate AllDigits(s: string) {
    forall i | 0 <= i < |s| :: IsDigit(s[i])
  }

  /** The number spelt by a run of decimal digits. */
  function DigitsValue(s: string): (n: nat)
    requires AllDigits(s)
  {
    if s == [] then 0 else DigitsValue(s[..|s| - 1]) * 10 + (s[|s| - 1] as int - '0' as int)
  }

  /** `int.ToString()` for a non-negative count. */
  function NatToString(n: nat): (r: string)
    ensures |r| > 0 && AllDigits(r)
    ensures DigitsValue(r) == n
  {
    var last := [('0' as int + n % 10) as char];
    if n < 10 then last
    else
      var prefix := NatToString(n / 10);
      assert (prefix + last)[..|prefix + last| - 1] == prefix;
      prefix + last
  }

  /** `string.TrimStart()` */
  function TrimStart(s: string): (r: string)
    ensures |r| <= |s| && r == s[|s| - |r|..]
    ensures IsBlank(s[..|s| - |r|])
    ensures r == [] || !IsWhiteSpace(r[0])
  {
    if |s| > 0 && IsWhiteSpace(s[0]) then
      var r := TrimStart(s[1..]);
      assert s[1..][|s| - 1 - |r|..] == s[|s| - |r|..];
      var blank := s[1..][..|s| - 1 - |r|];
      assert forall i | 1 <= i < |s| - |r| :: s[i] == blank[i - 1];
      r
    else s
  }

  /** `string.TrimEnd()` */
  function TrimEnd(s: string): (r: string)
    ensures |r| <= |s| && r == s[..|r|]
    ensures IsBlank(s[|r|..])
    ensures r == [] || !IsWhiteSpace(r[|r| - 1])
  {
    if |s| > 0 && IsWhiteSpace(s[|s| - 1]) then
      var r := TrimEnd(s[..|s| - 1]);
      assert s[..|s| - 1][..|r|] == s[..|r|];
      assert s[|r|..] == s[..|s| - 1][|r|..] + [s[|s| - 1]];
      r
    else s
  }

  /** `string.Trim()`: the middle of `s`, with no white space at either end. */
  function Trim(s: string): (r: string)
    ensures r == [] || (!IsWhiteSpace(r[0]) && !IsWhiteSpace(r[|r| - 1]))
    ensures r == [] <==> IsBlank(s)
  {
    var t := TrimStart(s);
    var r := TrimEnd(t);
    TrimProperties(s, t, r);
    r
  }

  lemma TrimProperties(s: string, t: string, r: string)
    requires |t| <= |s| && t == s[|s| - |t|..] && IsBlank(s[..|s| - |t|])
    requires |r| <= |t| && r == t[..|r|] && IsBlank(t[|r|..])
    requires r == [] || !IsWhiteSpace(r[0])
    ensures r == [] <==> IsBlank(s)
  {
    var front, back := s[..|s| - |t|], t[|r|..];
    assert s == front + t;
    assert t == r + back;
    BlankConcat(front, t);
    BlankConcat(r, back);
  }

  /** A concatenation is blank exactly when both parts are. */
  lemma BlankConcat(a: string, b: string)
    ensures IsBlank(a + b) <==> IsBlank(a) && IsBlank(b)
  {
    if IsBlank(a + b) {
      assert forall i | 0 <= i < |a| :: a[i] == (a + b)[i];
      assert forall i | 0 <= i < |b| :: b[i] == (a + b)[|a| + i];
    }
  }

  /** `string.TrimEnd(c)`: removes every trailing `c`. */
  function TrimEndChar(s: string, c: char): (r: string)
    ensures |r| <= |s| && r == s[..|r|]
    ensures r == [] || r[|r| - 1] != c
    ensures forall i | |r| <= i < |s| :: s[i] == c
  {
    if |s| > 0 && s[|s| - 1] == c then
      var r := TrimEndChar(s[..|s| - 1], c);
      assert forall i | |r| <= i < |s| - 1 :: s[..|s| - 1][i] == s[i];
      r
    else s
  }

  /** `string.Replace(char, char)` */
  function ReplaceChar(s: string, from: char, to: char): (r: string)
    ensures |r| == |s|
    ensures forall i | 0 <= i < |s| :: r[i] == if s[i] == from then to else s[i]
  {
    if s == [] then [] else [if s[0] == from then to else s[0]] + ReplaceChar(s[1..], from, to)
  }

  /** `s.StartsWith(p)` in ordinal comparison. */
  predicate StartsWith(s: string, p: string) {
    |p| <= |s| && s[..|p|] == p
  }

  /** `s.EndsWith(p)` in ordinal comparison. */
  predicate EndsWith(s: string, p: string) {
    |p| <= |s| && s[|s| - |p|..] == p
  }

  /** `string.Contains(string)` in ordinal comparison. */
  predicate Contains(s: string, sub: string)
    decreases |s|
  {
    StartsWith(s, sub) || (|s| > 0 && Contains(s[1..], sub))
  }

  /** `string.Replace(string, string)`: every occurrence of `pattern`, scanning left to
      right without overlap, is replaced by `replacement`. */
  function ReplaceAll(s: string, pattern: string, replacement: string): (r: string)
    requires pattern != []
    ensures replacement == [] ==> |r| <= |s|
    decreases |s|
  {
    if |s| < |pattern| then s
    else if s[..|pattern|] == pattern then replacement + ReplaceAll(s[|pattern|..], pattern, replacement)
    else [s[0]] + ReplaceAll(s[1..], pattern, replacement)
  }

  /** Where `pattern` does not occur, `Replace` changes nothing. */
  lemma {:induction false} ReplaceAllAbsent(s: string, pattern: string, replacement: string)
    requires pattern != [] && !Contains(s, pattern)
    ensures ReplaceAll(s, pattern, replacement) == s
    decreases |s|
  {
    if |s| >= |pattern| {
      assert !StartsWith(s, pattern);
      ReplaceAllAbsent(s[1..], pattern, replacement);
      assert s == [s[0]] + s[1..];
    }
  }

  /** Removing a prefix that does not occur again leaves exactly the rest. */
  lemma ReplaceAllStripsPrefix(pattern: string, rest: string)
    requires pattern != [] && !Contains(rest, pattern)
    ensures ReplaceAll(pattern + rest, pattern, "") == rest
  {
    assert (pattern + rest)[..|pattern|] == pattern;
    assert (pattern + rest)[|pattern|..] == rest;
    ReplaceAllAbsent(rest, pattern, "");
  }

  /** `string.ToUpper()` for the ASCII letters; other characters are kept. */
  function ToUpper(s: string): (r: string)
    ensures |r| == |s|
    ensures forall i | 0 <= i < |s| :: r[i] == if 'a' <= s[i] <= 'z' then (s[i] as int - 32) as char else s[i]
  {
    if s == [] then []
    else [if 'a' <= s[0] <= 'z' then (s[0] as int - 32) as char else s[0]] + ToUpper(s[1..])
  }

  /** `string.Join(sep, parts)` */
  function Join(sep: string, parts: seq<string>): string {
    if parts == [] then []
    else if |parts| == 1 then parts[0]
    else parts[0] + sep + Join(sep, parts[1..])
  }

  /** `string.Concat(parts)` */
  function Concat(parts: seq<string>): string {
    if parts == [] then [] else parts[0] + Concat(parts[1..])
  }

  /** `s.IndexOf(c)` for a character that occurs. */
  function IndexOf(s: string, c: char): (i: nat)
    requires c in s
    ensures i < |s| && s[i] == c && c !in s[..i]
  {
    if s[0] == c then 0
    else
      var i := IndexOf(s[1..], c);
      assert s[..i + 1] == [s[0]] + s[1..][..i];
      i + 1
  }

  /** `s.Split(c)` without options: the pieces between the separators, empty pieces
      included, so there is always at least one. */
  function Split(s: string, c: char): (r: seq<string>)
    ensures |r| >= 1
    ensures forall k | 0 <= k < |r| :: c !in r[k]
    decreases |s|
  {
    if c !in s then [s]
    else
      var i := IndexOf(s, c);
      [s[..i]] + Split(s[i + 1..], c)
  }

  /** `s.Split(c, RemoveEmptyEntries | TrimEntries)`: each piece trimmed, then the empty ones
      dropped. */
  function SplitEntries(s: string, c: char): (r: seq<string>)
  {
    NonEmpty(TrimAll(Split(s, c)))
  }

  function TrimAll(parts: seq<string>): (r: seq<string>)
    ensures |r| == |parts|
    ensures forall k | 0 <= k < |r| :: r[k] == Trim(parts[k])
  {
    seq(|parts|, k requires 0 <= k < |parts| => Trim(parts[k]))
  }

  function NonEmpty(parts: seq<string>): (r: seq<string>)
    ensures forall k | 0 <= k < |r| :: r[k] != [] && r[k] in parts
  {
    if parts == [] then []
    else if parts[0] == [] then NonEmpty(parts[1..])
    else [parts[0]] + NonEmpty(parts[1..])
  }

  /** The non-blank items of `parts`, in order (`parts.Where(a => !IsNullOrWhiteSpace(a))`). */
  function NonBlank(parts: seq<Option<string>>): (r: seq<string>)
    ensures forall k | 0 <= k < |r| :: !IsBlank(r[k])
  {
    if parts == [] then []
    else if IsNullOrWhiteSpace(parts[0]) then NonBlank(parts[1..])
    else [parts[0].value] + NonBlank(parts[1..])
  }

  /** Splitting and joining again with the same separator gives back the input. */
  lemma {:induction false} JoinSplit(s: string, c: char)
    ensures Join([c], Split(s, c)) == s
    decreases |s|
  {
    if c in s {
      var i := IndexOf(s, c);
      var rest := Split(s[i + 1..], c);
      JoinSplit(s[i + 1..], c);
      assert Split(s, c) == [s[..i]] + rest;
      JoinCons([c], s[..i], rest);
      assert s == s[..i] + [c] + s[i + 1..];
    }
  }

  /** Joining a first part before at least one more puts the separator after it. */
  lemma JoinCons(sep: string, first: string, rest: seq<string>)
    requires rest != []
    ensures Join(sep, [first] + rest) == first + sep + Join(sep, rest)
  {
    var parts := [first] + rest;
    assert |parts| > 1 && parts[0] == first && parts[1..] == rest;
  }

  /** A non-blank text splits into at least one non-empty entry. */
  lemma {:induction false} NonBlankHasEntry(s: string, c: char)
    requires IsWhiteSpace(c) && !IsBlank(s)
    ensures SplitEntries(s, c) != []
  {
    var pieces := Split(s, c);
    JoinSplit(s, c);
    var k := PieceWithNonSpace(pieces, c);
    NonEmptyKeeps(TrimAll(pieces), k);
  }

  /** Some piece of a split non-blank text is itself non-blank. */
  lemma {:induction false} PieceWithNonSpace(pieces: seq<string>, c: char) returns (k: nat)
    requires IsWhiteSpace(c) && !IsBlank(Join([c], pieces))
    ensures k < |pieces| && !IsBlank(pieces[k])
  {
    if |pieces| == 0 {
      assert false;
    } else if |pieces| == 1 {
      k := 0;
    } else if !IsBlank(pieces[0]) {
      k := 0;
    } else {
      var joined := Join([c], pieces);
      assert joined == pieces[0] + [c] + Join([c], pieces[1..]);
      var i :| 0 <= i < |joined| && !IsWhiteSpace(joined[i]);
      assert i > |pieces[0]| by {
        assert joined[|pieces[0]|] == c;
        assert forall j | 0 <= j < |pieces[0]| :: joined[j] == pieces[0][j];
      }
      var rest := Join([c], pieces[1..]);
      assert joined[i] == rest[i - |pieces[0]| - 1];
      var k' := PieceWithNonSpace(pieces[1..], c);
      k := k' + 1;
    }
  }

  lemma {:induction false} NonEmptyKeeps(parts: seq<string>, k: nat)
    requires k < |parts| && parts[k] != []
    ensures NonEmpty(parts) != []
  {
    if parts[0] == [] {
      NonEmptyKeeps(parts[1..], k - 1);
    }
  }
}
