/** `DateTime` values, the three fixed file-name time stamp layouts the library recognises,
    and the hand-written matchers for the patterns that find them in a file name. */
module Timestamps {
  import opened Wrappers
  import opened Text

  datatype DateTimeKind = Unspecified | Utc | Local

  /** A calendar date and a time of day to the second. */
  datatype DateTime = DateTime(year: int, month: int, day: int, hour: int, minute: int, second: int, kind: DateTimeKind)

  /** `default(DateTime)`, which every failed `TryParse`/`TryParseExact` stores in its out
      argument: 0001-01-01 00:00:00, kind unspecified. */
  const DefaultDateTime: DateTime := DateTime(1, 1, 1, 0, 0, 0, Unspecified)

  predicate IsLeapYear(y: int) {
    y % 4 == 0 && (y % 100 != 0 || y % 400 == 0)
  }

  function DaysInMonth(y: int, m: int): (n: int)
    requires 1 <= m <= 12
    ensures 28 <= n <= 31
  {
    if m == 2 then (if IsLeapYear(y) then 29 else 28)
    else if m == 4 || m == 6 || m == 9 || m == 11 then 30
    else 31
  }

  /** The fields a `DateTime` accepts. */
  predicate IsValid(d: DateTime) {
    && 1 <= d.year <= 9999 && 1 <= d.month <= 12 && 1 <= d.day <= DaysInMonth(d.year, d.month)
    && 0 <= d.hour < 24 && 0 <= d.minute < 60 && 0 <= d.second < 60
  }

  /** `count` decimal digits of `s` start at `i`. */
  predicate DigitsAt(s: string, i: nat, count: nat) {
    i + count <= |s| && forall k | i <= k < i + count :: IsDigit(s[k])
  }

  /** The number spelt by the `count` digits of `s` at `i`. */
  function NumberAt(s: string, i: nat, count: nat): nat
    requires DigitsAt(s, i, count)
  {
    var digits := s[i..i + count];
    assert forall k | 0 <= k < count :: digits[k] == s[i + k];
    DigitsValue(digits)
  }

  /** A date and time as a `DateTime` of the given kind, when the fields are in range. */
  function Compose(year: nat, month: nat, day: nat, hour: nat, minute: nat, second: nat, kind: DateTimeKind): (r: Option<DateTime>)
    ensures r.Some? <==> IsValid(DateTime(year, month, day, hour, minute, second, kind))
    ensures r.Some? ==> r.value == DateTime(year, month, day, hour, minute, second, kind)
  {
    var d := DateTime(year, month, day, hour, minute, second, kind);
    if IsValid(d) then Some(d) else Null
  }

  /** The text has the shape of "yyyy-MM-dd HH.mm.ss". */
  predicate DashShape(t: string) {
    && |t| == 19
    && DigitsAt(t, 0, 4) && t[4] == '-' && DigitsAt(t, 5, 2) && t[7] == '-' && DigitsAt(t, 8, 2)
    && t[10] == ' ' && DigitsAt(t, 11, 2) && t[13] == '.' && DigitsAt(t, 14, 2) && t[16] == '.'
    && DigitsAt(t, 17, 2)
  }

  /** `DateTime.TryParseExact(t, "yyyy-MM-dd HH.mm.ss", invariant culture, AssumeLocal)`. */
  function ParseDash(t: string): (r: Option<DateTime>)
    ensures r.Some? ==> DashShape(t) && IsValid(r.value) && r.value.kind == Local
  {
    if DashShape(t) then
      Compose(NumberAt(t, 0, 4), NumberAt(t, 5, 2), NumberAt(t, 8, 2), NumberAt(t, 11, 2),
        NumberAt(t, 14, 2), NumberAt(t, 17, 2), Local)
    else Null
  }

  /** The text has the shape of "yyyyMMdd_HHmm". */
  predicate RingNewShape(t: string) {
    |t| == 13 && DigitsAt(t, 0, 8) && t[8] == '_' && DigitsAt(t, 9, 4)
  }

  /** `DateTime.TryParseExact(t, "yyyyMMdd_HHmm", invariant culture, AssumeLocal)`. */
  function ParseRingNew(t: string): (r: Option<DateTime>)
    ensures r.Some? ==> RingNewShape(t) && IsValid(r.value) && r.value.kind == Local && r.value.second == 0
  {
    if RingNewShape(t) then
      Compose(NumberAt(t, 0, 4), NumberAt(t, 4, 2), NumberAt(t, 6, 2), NumberAt(t, 9, 2), NumberAt(t, 11, 2), 0, Local)
    else Null
  }

  /** The text has the shape of "yyyy-MM-ddTHHmmss". */
  predicate RingOldShape(t: string) {
    && |t| == 17
    && DigitsAt(t, 0, 4) && t[4] == '-' && DigitsAt(t, 5, 2) && t[7] == '-' && DigitsAt(t, 8, 2)
    && t[10] == 'T' && DigitsAt(t, 11, 6)
  }

  /** `DateTime.TryParseExact(t, "yyyy-MM-ddTHHmmss", invariant culture, AssumeUniversal)`
      before the conversion to local time: the time as written, kind UTC. */
  function ParseRingOld(t: string): (r: Option<DateTime>)
    ensures r.Some? ==> RingOldShape(t) && IsValid(r.value) && r.value.kind == Utc
  {
    if RingOldShape(t) then
      Compose(NumberAt(t, 0, 4), NumberAt(t, 5, 2), NumberAt(t, 8, 2), NumberAt(t, 11, 2),
        NumberAt(t, 13, 2), NumberAt(t, 15, 2), Utc)
    else Null
  }

  function Pow10(n: nat): (r: nat)
    ensures r >= 1
  {
    if n == 0 then 1 else 10 * Pow10(n - 1)
  }

  /** `n` written with exactly `width` digits, zero-padded (the "yyyy", "MM" ... fields). */
  function Pad(n: nat, width: nat): (r: string)
    ensures |r| == width && AllDigits(r)
    ensures DigitsValue(r) == n % Pow10(width)
  {
    if width == 0 then []
    else
      var prefix := Pad(n / 10, width - 1);
      var r := prefix + [('0' as int + n % 10) as char];
      assert r[..|r| - 1] == prefix;
      assert (n / 10) % Pow10(width - 1) * 10 + n % 10 == n % Pow10(width) by {
        ModOfTen(n, Pow10(width - 1));
      }
      r
  }

  lemma ModOfTen(n: nat, p: nat)
    requires p >= 1
    ensures (n / 10) % p * 10 + n % 10 == n % (10 * p)
  {
    var q := n / 10;
    var a := n % 10;
    assert n == 10 * q + a;
    var b := q % p;
    var c := q / p;
    assert q == p * c + b;
    assert n == (10 * p) * c + (10 * b + a);
    assert 0 <= 10 * b + a < 10 * p;
    ModUnique(n, 10 * p, c, 10 * b + a);
  }

  lemma ModUnique(n: int, m: int, q: int, r: int)
    requires m > 0 && n == m * q + r && 0 <= r < m
    ensures n % m == r
  {
    var x := q - n / m;
    assert m * x == n % m - r;
    if x >= 1 {
      assert m * x == m + m * (x - 1);
      MulNonNegative(m, x - 1);
    } else if x <= -1 {
      assert m * x == -m + m * (x + 1);
      MulNonNegative(m, -(x + 1));
    }
  }

  lemma MulNonNegative(a: int, b: int)
    requires a >= 0 && b >= 0
    ensures a * b >= 0
  {
  }

  /** The reference writer of the "yyyy-MM-dd HH.mm.ss" layout: each field zero-padded to its
      width, between the layout's separators. */
  function FormatDash(d: DateTime): (t: string)
    requires IsValid(d)
    ensures |t| == 19 && t[4] == '-' && t[7] == '-' && t[10] == ' ' && t[13] == '.' && t[16] == '.'
    ensures t[0..4] == Pad(d.year, 4) && t[5..7] == Pad(d.month, 2) && t[8..10] == Pad(d.day, 2)
    ensures t[11..13] == Pad(d.hour, 2) && t[14..16] == Pad(d.minute, 2) && t[17..19] == Pad(d.second, 2)
  {
    Pad(d.year, 4) + "-" + Pad(d.month, 2) + "-" + Pad(d.day, 2) + " " + Pad(d.hour, 2) + "." + Pad(d.minute, 2) + "." + Pad(d.second, 2)
  }

  lemma NumberOfPad(t: string, i: nat, n: nat, width: nat)
    requires i + width <= |t| && t[i..i + width] == Pad(n, width) && n < Pow10(width)
    ensures DigitsAt(t, i, width) && NumberAt(t, i, width) == n
  {
    var p := Pad(n, width);
    assert forall k | 0 <= k < width :: p[k] == t[i + k];
    assert forall k | i <= k < i + width :: IsDigit(t[k]) by {
      forall k | i <= k < i + width ensures IsDigit(t[k]) {
        assert t[k] == p[k - i];
      }
    }
    ModUnique(n, Pow10(width), 0, n);
    assert DigitsValue(p) == n;
  }

  /** Reading back what the reference writer wrote gives the same date and time. */
  lemma ParseFormatDash(d: DateTime)
    requires IsValid(d)
    ensures ParseDash(FormatDash(d)) == Some(d.(kind := Local))
  {
    var t := FormatDash(d);
    NumberOfPad(t, 0, d.year, 4);
    NumberOfPad(t, 5, d.month, 2);
    NumberOfPad(t, 8, d.day, 2);
    NumberOfPad(t, 11, d.hour, 2);
    NumberOfPad(t, 14, d.minute, 2);
    NumberOfPad(t, 17, d.second, 2);
  }

  // ---- the patterns that find a time stamp in a file name ----

  /** `[- ]` */
  predicate DashOrSpace(c: char) { c == '-' || c == ' ' }

  /** `[-.]` */
  predicate DashOrDot(c: char) { c == '-' || c == '.' }

  /** `\d{4}-\d{2}-\d{2}[- ]\d{2}[-.]\d{2}[-.]\d{2}` matches the 19 characters at `i`. */
  predicate DashStampAt(s: string, i: nat) {
    && i + 19 <= |s| && DigitsAt(s, i, 4) && s[i + 4] == '-' && DigitsAt(s, i + 5, 2) && s[i + 7] == '-'
    && DigitsAt(s, i + 8, 2) && DashOrSpace(s[i + 10]) && DigitsAt(s, i + 11, 2)
    && DashOrDot(s[i + 13]) && DigitsAt(s, i + 14, 2) && DashOrDot(s[i + 16]) && DigitsAt(s, i + 17, 2)
  }

  /** Where the run of underscores starting at `i` ends. */
  function UnderscoresEnd(s: string, i: nat): (e: nat)
    requires i <= |s|
    ensures i <= e <= |s|
    ensures forall k | i <= k < e :: s[k] == '_'
    ensures e == |s| || s[e] != '_'
    decreases |s| - i
  {
    if i < |s| && s[i] == '_' then UnderscoresEnd(s, i + 1) else i
  }

  /** Where a match of `_*\d{4}-\d{2}-\d{2}[- ]\d{2}[-.]\d{2}[-.]\d{2}` starting at `i` ends:
      the greedy `_*` takes every underscore, and giving one back cannot help, as the next
      character would then be an underscore and not a digit. */
  function DashMatchEnd(s: string, i: nat): (e: Option<nat>)
    requires i <= |s|
    ensures e.Some? ==> i + 19 <= e.value <= |s|
  {
    var u := UnderscoresEnd(s, i);
    if DashStampAt(s, u) then Some(u + 19) else Null
  }

  /** The leftmost match at or after `from`, as (start, end). */
  function FindDash(s: string, from: nat): (r: Option<(nat, nat)>)
    requires from <= |s|
    ensures r.Some? ==> from <= r.value.0 <= |s| && DashMatchEnd(s, r.value.0) == Some(r.value.1)
    ensures r.Some? ==> forall j | from <= j < r.value.0 :: DashMatchEnd(s, j).Null?
    ensures r.Null? ==> forall j | from <= j <= |s| :: DashMatchEnd(s, j).Null?
    decreases |s| - from
  {
    match DashMatchEnd(s, from)
    case Some(e) => Some((from, e))
    case Null => if from == |s| then Null else FindDash(s, from + 1)
  }

  /** `Regex.Replace(s, dash pattern, "")`: every match, found left to right without
      overlap, removed. */
  function StripDashStamps(s: string, from: nat): (r: string)
    requires from <= |s|
    ensures |r| <= |s| - from
    decreases |s| - from
  {
    match FindDash(s, from)
    case Null => s[from..]
    case Some((i, e)) => s[from..i] + StripDashStamps(s, e)
  }

  /** Removing the stamps changes nothing when there is none, and removes at least one
      stamp's 19 characters otherwise. */
  lemma StripDashStampsEffect(s: string)
    ensures FindDash(s, 0).Null? ==> StripDashStamps(s, 0) == s
    ensures FindDash(s, 0).Some? ==> |StripDashStamps(s, 0)| <= |s| - 19
  {
    match FindDash(s, 0)
    case Null =>
    case Some((i, e)) =>
      assert |StripDashStamps(s, 0)| == i + |StripDashStamps(s, e)|;
  }

  /** `(?<=_)\d{8}_\d{4}$` matches the 13 characters at `i`: an underscore before them, and
      the end of the text (or a final line feed) after them. */
  predicate RingNewAt(s: string, i: nat) {
    && 1 <= i && i + 13 <= |s| && s[i - 1] == '_' && DigitsAt(s, i, 8) && s[i + 8] == '_' && DigitsAt(s, i + 9, 4)
    && (i + 13 == |s| || (i + 14 == |s| && s[|s| - 1] == '\n'))
  }

  /** Where the pattern matches, if anywhere; only two positions can end where `$` holds. */
  function FindRingNew(s: string): (r: Option<nat>)
    ensures r.Some? ==> RingNewAt(s, r.value)
    ensures r.Null? ==> forall i :: !RingNewAt(s, i)
  {
    if |s| >= 14 && RingNewAt(s, |s| - 14) then Some(|s| - 14)
    else if |s| >= 13 && RingNewAt(s, |s| - 13) then Some(|s| - 13)
    else Null
  }

  /** `\d{4}-\d{2}-\d{2}T\d{6}` matches the 17 characters at `i`. */
  predicate RingOldAt(s: string, i: nat) {
    && i + 17 <= |s| && DigitsAt(s, i, 4) && s[i + 4] == '-' && DigitsAt(s, i + 5, 2) && s[i + 7] == '-'
    && DigitsAt(s, i + 8, 2) && s[i + 10] == 'T' && DigitsAt(s, i + 11, 6)
  }

  /** The leftmost match at or after `from`. */
  function FindRingOld(s: string, from: nat): (r: Option<nat>)
    requires from <= |s|
    ensures r.Some? ==> from <= r.value && RingOldAt(s, r.value)
    ensures r.Some? ==> forall j | from <= j < r.value :: !RingOldAt(s, j)
    ensures r.Null? ==> forall j | from <= j :: !RingOldAt(s, j)
    decreases |s| - from
  {
    if RingOldAt(s, from) then Some(from)
    else if from == |s| then Null
    else FindRingOld(s, from + 1)
  }
}
