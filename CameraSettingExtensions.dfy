/** Adding a camera profile from a sample file: the alias made up from the make and model,
    the file-name format guessed from the sample's name, and the rule that no two profiles
    share a make and model. */
module CameraSettingExtensions {
  import opened Wrappers
  import opened Text
  import opened Paths
  import opened Enumerations
  import opened Platform
  import opened FileAttributes
  import opened CameraSettings
  import opened Configuration
  import opened AttributeExtensions

  // ---- the fixed patterns ----

  /** Where the run of digits starting at `i` ends. */
  function DigitsEnd(s: string, i: nat): (e: nat)
    requires i <= |s|
    ensures i <= e <= |s| && AllDigits(s[i..e])
    ensures e == |s| || !IsDigit(s[e])
    decreases |s| - i
  {
    if i < |s| && IsDigit(s[i]) then DigitsEnd(s, i + 1) else i
  }

  /** Where the run of non-digits starting at `i` ends. */
  function NonDigitsEnd(s: string, i: nat): (e: nat)
    requires i <= |s|
    ensures i <= e <= |s| && NoDigits(s[i..e])
    ensures e == |s| || IsDigit(s[e])
    decreases |s| - i
  {
    if i < |s| && !IsDigit(s[i]) then NonDigitsEnd(s, i + 1) else i
  }

  predicate NoDigits(s: string) {
    forall i | 0 <= i < |s| :: !IsDigit(s[i])
  }

  /** `SX\d+` can start at `i`. */
  predicate SxAt(s: string, i: nat) {
    i + 3 <= |s| && s[i] == 'S' && s[i + 1] == 'X' && IsDigit(s[i + 2])
  }

  /** The leftmost start of `SX\d+` at or after `from`. */
  function FindSx(s: string, from: nat): (r: Option<nat>)
    requires from <= |s|
    ensures r.Some? ==> from <= r.value && SxAt(s, r.value)
    ensures r.Some? ==> forall j | from <= j < r.value :: !SxAt(s, j)
    ensures r.Null? ==> forall j | from <= j <= |s| :: !SxAt(s, j)
    decreases |s| - from
  {
    if SxAt(s, from) then Some(from)
    else if from == |s| then Null
    else FindSx(s, from + 1)
  }

  /** The leftmost match of `SX\d+`, its digits taken greedily. */
  function SxMatch(s: string): (r: Option<string>)
    ensures r.Some? ==> |r.value| >= 3 && r.value[..2] == "SX" && AllDigits(r.value[2..])
    ensures r.Some? <==> exists i | 0 <= i <= |s| :: SxAt(s, i)
  {
    match FindSx(s, 0)
    case Null => Null
    case Some(i) =>
      var e := DigitsEnd(s, i + 2);
      assert s[i..e][2..] == s[i + 2..e];
      Some(s[i..e])
  }

  /** A match of `\d+\w`: one or more digits, then one word character. */
  predicate DigitWord(m: string) {
    |m| >= 2 && AllDigits(m[..|m| - 1]) && IsWordChar(m[|m| - 1])
  }

  /** A digit followed by a word character begins at `j`. */
  predicate DigitWordPairAt(s: string, j: nat) {
    j + 1 < |s| && IsDigit(s[j]) && IsWordChar(s[j + 1])
  }

  /** `Regex.Matches(s, @"\d+\w")` from `pos`: left to right without overlap. At a run of
      digits the greedy `\d+` takes the run and `\w` the character after it; when that is no
      word character the run gives its last digit back to `\w`; a single digit followed by no
      word character does not match. */
  function DigitWordMatches(s: string, pos: nat): (r: seq<string>)
    requires pos <= |s|
    ensures forall k | 0 <= k < |r| :: DigitWord(r[k])
    ensures forall k, i | 0 <= k < |r| && 0 <= i < |r[k]| :: r[k][i] in s
    ensures r == [] <==> forall j | pos <= j < |s| :: !DigitWordPairAt(s, j)
    decreases |s| - pos
  {
    if pos == |s| then []
    else if !IsDigit(s[pos]) then DigitWordMatches(s, pos + 1)
    else
      var j := DigitsEnd(s, pos);
      if j < |s| && IsWordChar(s[j]) then
        var m := s[pos..j + 1];
        assert m[..|m| - 1] == s[pos..j];
        assert forall i | 0 <= i < |m| :: m[i] == s[pos + i];
        assert DigitWordPairAt(s, pos) by {
          if j > pos + 1 {
            assert s[pos + 1] == s[pos..j][1];
          }
        }
        [m] + DigitWordMatches(s, j + 1)
      else if j - pos >= 2 then
        var m := s[pos..j];
        assert m[..|m| - 1] == s[pos..j - 1];
        assert forall i | 0 <= i < |m| :: m[i] == s[pos + i];
        assert IsDigit(m[|m| - 1]) by {
          assert m[|m| - 1] == s[pos..j][j - 1 - pos];
        }
        assert DigitWordPairAt(s, pos) by {
          assert s[pos + 1] == s[pos..j][1];
        }
        [m] + DigitWordMatches(s, j)
      else
        assert !DigitWordPairAt(s, pos);
        DigitWordMatches(s, pos + 1)
  }

  // ---- the format guessed from a sample file name ----

  /** The rest of the stem after its non-digit prefix is what `\d*$` accepts: digits only, or
      digits and then one final line feed (where `$` also holds). */
  predicate DigitsToEnd(t: string) {
    AllDigits(t) || (|t| >= 1 && t[|t| - 1] == '\n' && AllDigits(t[..|t| - 1]))
  }

  /** `^\D*\d*$` matches the stem. */
  predicate StemMatches(stem: string) {
    exists k | 0 <= k <= |stem| :: NoDigits(stem[..k]) && DigitsToEnd(stem[k..])
  }

  /** The groups "prefix" and "suffix" of the match: the greedy `\D*` takes the longest
      non-digit prefix, and `\d*` the digits after it. */
  function StemGroups(stem: string): (r: Option<(string, string)>)
    ensures r.Some? <==> StemMatches(stem)
    ensures r.Some? ==> NoDigits(r.value.0) && AllDigits(r.value.1)
    ensures r.Some? ==> |r.value.0| <= |stem| && stem[..|r.value.0|] == r.value.0
    ensures r.Some? ==> |r.value.0| + |r.value.1| <= |stem| && stem[|r.value.0|..|r.value.0| + |r.value.1|] == r.value.1
    ensures r.Some? && |r.value.0| < |stem| ==> IsDigit(stem[|r.value.0|])
  {
    var p := NonDigitsEnd(stem, 0);
    var q := DigitsEnd(stem, p);
    assert stem[..p] == stem[0..p];
    if q == |stem| || (q + 1 == |stem| && stem[q] == '\n') then
      assert DigitsToEnd(stem[p..]) by {
        if q == |stem| {
          assert stem[p..] == stem[p..q];
        } else {
          var t := stem[p..];
          assert t[..|t| - 1] == stem[p..q];
          assert t[|t| - 1] == stem[q];
        }
      }
      Some((stem[..p], stem[p..q]))
    else
      assert !StemMatches(stem) by {
        if k :| 0 <= k <= |stem| && NoDigits(stem[..k]) && DigitsToEnd(stem[k..]) {
          StemMatchIsGreedy(stem, k, p, q);
        }
      }
      Null
  }

  /** Any split that `^\D*\d*$` accepts implies that the greedy split is accepted too. */
  lemma StemMatchIsGreedy(stem: string, k: nat, p: nat, q: nat)
    requires k <= |stem| && NoDigits(stem[..k]) && DigitsToEnd(stem[k..])
    requires p == NonDigitsEnd(stem, 0) && q == DigitsEnd(stem, p)
    ensures q == |stem| || (q + 1 == |stem| && stem[q] == '\n')
  {
    assert stem[..p] == stem[0..p];
    if k < p {
      assert stem[k..][0] == stem[k] && !IsDigit(stem[k]) by {
        assert stem[..p][k] == stem[k];
      }
      assert k + 1 == |stem|;
    } else {
      var t := stem[k..];
      if !AllDigits(t) {
        assert t[..|t| - 1] == stem[k..|stem| - 1];
      }
    }
  }

  /** The format given to a new profile: `(<prefix>\d{<number of digits>})|.*` when the
      sample's stem matches `^\D*\d*$`, otherwise none. The prefix is not escaped. */
  function FormatFor(stem: string): (r: Option<string>)
    ensures r.Some? <==> StemMatches(stem)
    ensures r.Some? ==> exists prefix, digits | prefix == StemGroups(stem).value.0 && digits == StemGroups(stem).value.1 ::
      r.value == "(" + prefix + "\\d{" + NatToString(|digits|) + "})|.*" && DigitsValue(NatToString(|digits|)) == |digits|
  {
    match StemGroups(stem)
    case Null => Null
    case Some((prefix, digits)) => Some("(" + prefix + "\\d{" + NatToString(|digits|) + "})|.*")
  }

  // ---- the alias ----

  predicate NoLowercase(s: string) {
    forall i | 0 <= i < |s| :: !('a' <= s[i] <= 'z')
  }

  /** The last piece of a split. */
  function LastPiece(pieces: seq<string>): string
    requires pieces != []
  {
    pieces[|pieces| - 1]
  }

  /** `CreateCameraAlias` for a derived make and model: the make's first word and the model
      upper-cased; "CANON" with an `SX\d+` match gives "CANON SX<digits>"; "GOOGLE" gives the
      model's first word and every `\d+\w` match run together, or the model when there is none;
      anything else gives the make's first word and the model's last word. A null make or model
      throws. */
  function AliasFor(make: Option<string>, model: Option<string>): (r: Result<string>)
    ensures r.Fail? <==> make.Null? || model.Null?
  {
    if make.Null? || model.Null? then Fail("Object reference not set to an instance of an object.")
    else
      var mk := ToUpper(Split(make.value, ' ')[0]);
      var md := ToUpper(model.value);
      if mk == "CANON" && SxMatch(md).Some? then Ok(mk + " " + SxMatch(md).value)
      else if mk == "GOOGLE" then
        var matches := DigitWordMatches(md, 0);
        if matches != [] then Ok(Split(md, ' ')[0] + " " + Concat(matches)) else Ok(md)
      else Ok(mk + " " + LastPiece(Split(md, ' ')))
  }

  /** Every alias made up this way is in upper case. */
  lemma AliasIsUpperCase(make: Option<string>, model: Option<string>)
    ensures AliasFor(make, model).Ok? ==> NoLowercase(AliasFor(make, model).value)
  {
    if make.Some? && model.Some? {
      var mk := ToUpper(Split(make.value, ' ')[0]);
      var md := ToUpper(model.value);
      ToUpperNoLowercase(Split(make.value, ' ')[0]);
      ToUpperNoLowercase(model.value);
      UpperPieces(md);
      var pieces := Split(md, ' ');
      assert NoLowercase(pieces[0]) && NoLowercase(pieces[|pieces| - 1]);
      if mk == "CANON" && SxMatch(md).Some? {
        SxNoLowercase(SxMatch(md).value);
        AppendNoLowercase(mk + " ", SxMatch(md).value);
      } else if mk == "GOOGLE" {
        var matches := DigitWordMatches(md, 0);
        forall k | 0 <= k < |matches| ensures NoLowercase(matches[k]) {
          forall i | 0 <= i < |matches[k]| ensures !('a' <= matches[k][i] <= 'z') {
            assert matches[k][i] in md;
          }
        }
        ConcatNoLowercase(matches);
        AppendNoLowercase(pieces[0] + " ", Concat(matches));
      } else {
        AppendNoLowercase(mk + " ", pieces[|pieces| - 1]);
      }
    }
  }

  lemma AppendNoLowercase(a: string, b: string)
    requires NoLowercase(a) && NoLowercase(b)
    ensures NoLowercase(a + b)
  {
    forall i | 0 <= i < |a + b| ensures !('a' <= (a + b)[i] <= 'z') {
      if i >= |a| {
        assert (a + b)[i] == b[i - |a|];
      }
    }
  }

  lemma ToUpperNoLowercase(s: string)
    ensures NoLowercase(ToUpper(s))
  {
    var u := ToUpper(s);
    forall i | 0 <= i < |u| ensures !('a' <= u[i] <= 'z') {
      if 'a' <= s[i] <= 'z' {
        assert u[i] as int == s[i] as int - 32;
      }
    }
  }

  /** An upper-cased text and the pieces of its split have no lower-case letters. */
  lemma UpperPieces(s: string)
    ensures NoLowercase(s) ==> forall k | 0 <= k < |Split(s, ' ')| :: NoLowercase(Split(s, ' ')[k])
  {
    if NoLowercase(s) {
      SplitPiecesFromText(s, ' ');
    }
  }

  /** Every character of every piece of a split is a character of the text. */
  lemma {:induction false} SplitPiecesFromText(s: string, c: char)
    ensures forall k, i | 0 <= k < |Split(s, c)| && 0 <= i < |Split(s, c)[k]| :: Split(s, c)[k][i] in s
    decreases |s|
  {
    if c in s {
      var i := IndexOf(s, c);
      SplitPiecesFromText(s[i + 1..], c);
      var pieces := Split(s, c);
      assert pieces == [s[..i]] + Split(s[i + 1..], c);
      forall k, j | 0 <= k < |pieces| && 0 <= j < |pieces[k]| ensures pieces[k][j] in s {
        if k == 0 {
          assert s[..i][j] == s[j];
        } else {
          assert pieces[k] == Split(s[i + 1..], c)[k - 1];
          var x := pieces[k][j];
          assert x in s[i + 1..];
          var m :| 0 <= m < |s[i + 1..]| && s[i + 1..][m] == x;
          assert s[i + 1 + m] == x;
        }
      }
    }
  }

  /** A match of `SX\d+` has no lower-case letters. */
  lemma SxNoLowercase(m: string)
    requires |m| >= 3 && m[..2] == "SX" && AllDigits(m[2..])
    ensures NoLowercase(m)
  {
    forall i | 0 <= i < |m| ensures !('a' <= m[i] <= 'z') {
      if i >= 2 {
        assert m[2..][i - 2] == m[i];
      } else {
        assert m[..2][i] == m[i];
      }
    }
  }

  lemma {:induction false} ConcatNoLowercase(parts: seq<string>)
    requires forall k | 0 <= k < |parts| :: NoLowercase(parts[k])
    ensures NoLowercase(Concat(parts))
    decreases |parts|
  {
    if parts != [] {
      ConcatNoLowercase(parts[1..]);
      AppendNoLowercase(parts[0], Concat(parts[1..]));
    }
  }

  /** `CreateCameraAlias`: derives the make and model again and makes the alias of them. */
  function CreateCameraAlias(attributes: seq<FileAttribute>, cameras: seq<CameraSetting>, disk: Disk): (r: Result<string>)
    reads set c | c in cameras
    ensures MakeAndModelOf(attributes, cameras, disk, true).Fail? ==> r.Fail?
    ensures r.Ok? ==> NoLowercase(r.value)
  {
    if MakeAndModelOf(attributes, cameras, disk, true).Ok? then
      var mm := MakeAndModelOf(attributes, cameras, disk, true).value;
      AliasIsUpperCase(mm.0, mm.1);
      AliasFor(mm.0, mm.1)
    else
      Fail(MakeAndModelOf(attributes, cameras, disk, true).message)
  }
  // ---- adding a profile ----

  /** The values a profile added from a sample file takes beyond the fixed defaults. */
  datatype NewProfile = NewProfile(alias: string, make: Option<string>, model: Option<string>, format: Option<string>)

  /** Some profile has this make and model. */
  predicate HasMakeAndModel(cameras: seq<CameraSetting>, make: Option<string>, model: Option<string>)
    reads set c | c in cameras
  {
    exists i | 0 <= i < |cameras| :: cameras[i].make == make && cameras[i].model == model
  }

  /** No two profiles share a make and a model. */
  predicate UniqueMakeModel(cameras: seq<CameraSetting>)
    reads set c | c in cameras
  {
    forall i, j | 0 <= i < j < |cameras| :: !(cameras[i].make == cameras[j].make && cameras[i].model == cameras[j].model)
  }

  /** What `TryAddCamera` decides for a sample file's sorted attributes: the exception it
      raises, nothing to add, or the profile to add. */
  function PlanAdd(attributes: seq<FileAttribute>, cameras: seq<CameraSetting>, disk: Disk, path: string): (r: Result<Option<NewProfile>>)
    reads set c | c in cameras
    ensures MakeAndModelOf(attributes, cameras, disk, true).Fail? ==> r.Fail?
    ensures MakeAndModelOf(attributes, cameras, disk, true).Ok? && MakeAndModelOf(attributes, cameras, disk, true).value.1.Null? ==> r == Ok(Null)
    ensures r.Ok? && r.value.Some? ==>
      && r.value.value.make.Some? && r.value.value.model.Some?
      && MakeAndModelOf(attributes, cameras, disk, true) == Ok((r.value.value.make, r.value.value.model))
      && !HasMakeAndModel(cameras, r.value.value.make, r.value.value.model)
      && (r.value.value.format.Some? <==> StemMatches(GetFileNameWithoutExtension(path)))
    ensures r.Fail? && MakeAndModelOf(attributes, cameras, disk, true).Ok? ==>
      var mm := MakeAndModelOf(attributes, cameras, disk, true).value;
      mm.0.Null? && mm.1.Some? && !HasMakeAndModel(cameras, mm.0, mm.1)
  {
    match MakeAndModelOf(attributes, cameras, disk, true)
    case Fail(message) => Fail(message)
    case Ok(mm) =>
      if mm.1.Null? || HasMakeAndModel(cameras, mm.0, mm.1) then Ok(Null)
      else match CreateCameraAlias(attributes, cameras, disk)
        case Fail(message) => Fail(message)
        case Ok(alias) => Ok(Some(NewProfile(alias, mm.0, mm.1, FormatFor(GetFileNameWithoutExtension(path)))))
  }

  /** The profile carries the plan's values and the fixed ones: enabled, type None, no
      destination, no priority list, Move off. */
  predicate IsNewProfile(camera: CameraSetting, plan: NewProfile)
    reads camera
  {
    && camera.enabled && camera.cameraType == CameraType.None && camera.alias == Some(plan.alias)
    && camera.make == plan.make && camera.model == plan.model && camera.destination.Null?
    && camera.format == plan.format && camera.dateTimePriority.Null? && !camera.move
  }

  /** `TryAddCamera`: reads the sample file's attributes and appends a profile for its make
      and model unless the model is null or a profile with that make and model exists. An
      exception leaves the profiles as they were. */
  method TryAddCamera(settings: Settings, path: string, disk: Disk, env: Env) returns (outcome: Outcome)
    modifies settings`cameraSettings
    ensures Extracted(env.metadata(path)).Fail? ==> outcome.Raised? && settings.cameraSettings == old(settings.cameraSettings)
    ensures Extracted(env.metadata(path)).Ok? ==>
      var plan := old(PlanAdd(SortByName(Extracted(env.metadata(path)).value, env.compare), settings.cameraSettings, disk, path));
      && (outcome.Raised? <==> plan.Fail?)
      && (plan.Fail? || plan.value.Null? ==> settings.cameraSettings == old(settings.cameraSettings))
      && (plan.Ok? && plan.value.Some? ==>
        && |settings.cameraSettings| == |old(settings.cameraSettings)| + 1
        && settings.cameraSettings[..|old(settings.cameraSettings)|] == old(settings.cameraSettings)
        && fresh(settings.cameraSettings[|old(settings.cameraSettings)|])
        && IsNewProfile(settings.cameraSettings[|old(settings.cameraSettings)|], plan.value.value))
    ensures old(UniqueMakeModel(settings.cameraSettings)) ==> UniqueMakeModel(settings.cameraSettings)
  {
    hide AliasFor, FormatFor, GetFileNameWithoutExtension, MakeAndModelOf, StemMatches, Extracted;
    var attributes := GetFileAttributes(env.metadata(path), env.compare);
    if attributes.Fail? {
      return Raised(attributes.message);
    }
    ghost var plan := PlanAdd(attributes.value, settings.cameraSettings, disk, path);
    var mm := GetMakeAndModel(attributes.value, settings.cameraSettings, disk, true);
    if mm.Fail? {
      return Raised(mm.message);
    }
    var make, model := mm.value.0, mm.value.1;
    var format := FormatFor(GetFileNameWithoutExtension(path));
    if model.Some? && !HasMakeAndModel(settings.cameraSettings, make, model) {
      var alias := CreateCameraAlias(attributes.value, settings.cameraSettings, disk);
      if alias.Fail? {
        return Raised(alias.message);
      }
      ghost var before := settings.cameraSettings;
      var camera := AppendProfile(settings, NewProfile(alias.value, make, model, format));
      AppendKeepsUnique(before, camera);
    }
    return Done;
  }

  /** Appends a new profile with the plan's values and the fixed defaults. */
  method AppendProfile(settings: Settings, plan: NewProfile) returns (camera: CameraSetting)
    modifies settings`cameraSettings
    ensures fresh(camera) && IsNewProfile(camera, plan)
    ensures settings.cameraSettings == old(settings.cameraSettings) + [camera]
  {
    camera := new CameraSetting();
    camera.SetEnabled(true);
    camera.SetType(CameraType.None);
    camera.SetAlias(Some(plan.alias));
    camera.SetMake(plan.make);
    camera.SetModel(plan.model);
    camera.SetDestination(Null);
    camera.SetFormat(plan.format);
    camera.SetDateTimePriority(Null);
    camera.SetMove(false);
    settings.cameraSettings := settings.cameraSettings + [camera];
  }

  /** Appending a profile whose make and model no profile has keeps them unique. */
  lemma AppendKeepsUnique(cameras: seq<CameraSetting>, camera: CameraSetting)
    requires !HasMakeAndModel(cameras, camera.make, camera.model)
    ensures UniqueMakeModel(cameras) ==> UniqueMakeModel(cameras + [camera])
  {
    var all := cameras + [camera];
    if UniqueMakeModel(cameras) {
      forall i, j | 0 <= i < j < |all| ensures !(all[i].make == all[j].make && all[i].model == all[j].model) {
        if j == |cameras| {
          assert all[i] == cameras[i];
        } else {
          assert all[i] == cameras[i] && all[j] == cameras[j];
        }
      }
    }
  }
}
