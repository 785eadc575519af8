/** The factory defaults of the settings, the alias lists offered to the user, and the order
    in which imported camera profiles are kept. */
module SettingsExtensions {
  import opened Wrappers
  import opened Text
  import opened Ordering
  import opened CameraSettings

  const DefaultDateTimeFormat: string := "yyyy/yyyy-MM-dd HH.mm.ss"
  const DefaultDateTimePriority: string := "DateTime DateAcquired CreationTime LastAccessTime LastWriteTime"
  const DefaultExtensions: string := "jpg jpeg gif png bmp dng cr2 gcs nrw nef tif webp avi avif mp4 mov mpv wlmp wmv xmp 3gpp"

  /** The setting names that have a default. */
  const SettingNames: set<string> := {"Version", "DateTimeFormat", "DateTimePriority", "Extensions", "DefaultSourceDirectory"}

  /** `DefaultValue(setting)`: the assembly's file version for "Version", a fixed text for the
      four other settings, and an `ArgumentException` for any other name. */
  function DefaultValue(setting: string, fileVersion: Option<string>): (r: Result<Option<string>>)
    ensures r.Ok? <==> setting in SettingNames
    ensures setting == "Version" ==> r == Ok(fileVersion)
    ensures setting == "DateTimeFormat" ==> r == Ok(Some(DefaultDateTimeFormat))
    ensures setting == "DateTimePriority" ==> r == Ok(Some(DefaultDateTimePriority))
    ensures setting == "Extensions" ==> r == Ok(Some(DefaultExtensions))
    ensures setting == "DefaultSourceDirectory" ==> r == Ok(Some(""))
    ensures r.Fail? ==> r.message == "Setting " + setting + " has no default value. (Parameter 'setting')"
  {
    if setting == "Version" then Ok(fileVersion)
    else if setting == "DateTimeFormat" then Ok(Some(DefaultDateTimeFormat))
    else if setting == "DateTimePriority" then Ok(Some(DefaultDateTimePriority))
    else if setting == "Extensions" then Ok(Some(DefaultExtensions))
    else if setting == "DefaultSourceDirectory" then Ok(Some(""))
    else Fail("Setting " + setting + " has no default value. (Parameter 'setting')")
  }

  /** `AllCameraAliases`: every profile's alias, null ones included, in collection order. */
  function AllCameraAliases(cameras: seq<CameraSetting>): (r: seq<Option<string>>)
    reads set c | c in cameras
    ensures |r| == |cameras|
    ensures forall i | 0 <= i < |r| :: r[i] == cameras[i].alias
  {
    if cameras == [] then [] else [cameras[0].alias] + AllCameraAliases(cameras[1..])
  }

  /** `AvailableCameraAliases`: the aliases of the enabled profiles, in collection order. */
  function AvailableCameraAliases(cameras: seq<CameraSetting>): (r: seq<Option<string>>)
    reads set c | c in cameras
  {
    if cameras == [] then []
    else if cameras[0].enabled then [cameras[0].alias] + AvailableCameraAliases(cameras[1..])
    else AvailableCameraAliases(cameras[1..])
  }

  /** `sub` is `s` with some entries left out, the rest in order. */
  predicate IsSubsequence<T(==)>(sub: seq<T>, s: seq<T>) {
    if sub == [] then true
    else if s == [] then false
    else (sub[0] == s[0] && IsSubsequence(sub[1..], s[1..])) || IsSubsequence(sub, s[1..])
  }

  /** The number of enabled profiles. */
  function EnabledCount(cameras: seq<CameraSetting>): nat
    reads set c | c in cameras
  {
    if cameras == [] then 0 else (if cameras[0].enabled then 1 else 0) + EnabledCount(cameras[1..])
  }

  /** The available aliases are a subsequence of all aliases, one per enabled profile, each
      the alias of an enabled profile. */
  lemma {:induction false} AvailableCameraAliasesProperties(cameras: seq<CameraSetting>)
    ensures IsSubsequence(AvailableCameraAliases(cameras), AllCameraAliases(cameras))
    ensures |AvailableCameraAliases(cameras)| == EnabledCount(cameras)
    ensures forall a | a in AvailableCameraAliases(cameras) :: exists c | c in cameras :: c.enabled && c.alias == a
  {
    if cameras != [] {
      AvailableCameraAliasesProperties(cameras[1..]);
      var all := AllCameraAliases(cameras);
      assert all[1..] == AllCameraAliases(cameras[1..]);
      if cameras[0].enabled {
        assert AvailableCameraAliases(cameras)[1..] == AvailableCameraAliases(cameras[1..]);
      }
      forall a | a in AvailableCameraAliases(cameras) ensures exists c | c in cameras :: c.enabled && c.alias == a {
        if !(cameras[0].enabled && a == cameras[0].alias) {
          assert a in AvailableCameraAliases(cameras[1..]);
          var c :| c in cameras[1..] && c.enabled && c.alias == a;
          assert c in cameras;
        }
      }
    }
  }

  // ---- the order of the profiles after an import ----

  /** A profile as the import's sort sees it: its alias and Enabled flag, and the profile. */
  type SortEntry = (Option<string>, bool, CameraSetting)

  function AliasKey(entry: SortEntry): Option<string> {
    entry.0
  }

  function IsEnabled(entry: SortEntry): bool {
    entry.1
  }

  function Entries(cameras: seq<CameraSetting>): (r: seq<SortEntry>)
    reads set c | c in cameras
    ensures |r| == |cameras|
    ensures forall i | 0 <= i < |r| :: r[i] == (cameras[i].alias, cameras[i].enabled, cameras[i])
  {
    if cameras == [] then [] else [(cameras[0].alias, cameras[0].enabled, cameras[0])] + Entries(cameras[1..])
  }

  /** The profiles sorted by alias under the culture's comparer `compare`, then stably by
      "not enabled", which puts the enabled profiles first. */
  function ImportOrder(cameras: seq<CameraSetting>, compare: Comparer): (r: seq<SortEntry>)
    reads set c | c in cameras
  {
    StablePartition(SortByKey(Entries(cameras), AliasKey, compare), IsEnabled)
  }

  function Profiles(entries: seq<SortEntry>): (r: seq<CameraSetting>)
    ensures |r| == |entries|
    ensures forall i | 0 <= i < |r| :: r[i] == entries[i].2
  {
    seq(|entries|, i requires 0 <= i < |entries| => entries[i].2)
  }

  lemma {:induction false} ProfilesMultiset(a: seq<SortEntry>, b: seq<SortEntry>)
    requires multiset(a) == multiset(b)
    ensures multiset(Profiles(a)) == multiset(Profiles(b))
    decreases |a|
  {
    if a == [] {
      assert |b| == |multiset(b)|;
    } else {
      assert a[0] in multiset(b);
      var k :| 0 <= k < |b| && b[k] == a[0];
      var tail, rest := a[1..], b[..k] + b[k + 1..];
      RemoveOne(b, k);
      assert a == [a[0]] + tail;
      Cancel(multiset(tail), multiset(rest), a[0]);
      ProfilesMultiset(tail, rest);
      ProfilesOfRemoved(b, k);
      ProfilesCons(a);
    }
  }

  lemma ProfilesOfRemoved(b: seq<SortEntry>, k: nat)
    requires k < |b|
    ensures multiset(Profiles(b)) == multiset(Profiles(b[..k] + b[k + 1..])) + multiset{b[k].2}
  {
    ProfilesRemove(b, k);
    RemoveOne(Profiles(b), k);
  }

  /** Adding the same element to two multisets keeps them apart unless they were equal. */
  lemma Cancel<T>(x: multiset<T>, y: multiset<T>, e: T)
    requires x + multiset{e} == y + multiset{e}
    ensures x == y
  {
    forall z ensures x[z] == y[z] {
      assert (x + multiset{e})[z] == (y + multiset{e})[z];
    }
  }

  lemma ProfilesCons(a: seq<SortEntry>)
    requires a != []
    ensures Profiles(a) == [a[0].2] + Profiles(a[1..])
  {
    assert forall i | 1 <= i < |a| :: a[1..][i - 1] == a[i];
  }

  lemma ProfilesRemove(b: seq<SortEntry>, k: nat)
    requires k < |b|
    ensures Profiles(b[..k] + b[k + 1..]) == Profiles(b)[..k] + Profiles(b)[k + 1..]
  {
    var rest, pb := b[..k] + b[k + 1..], Profiles(b);
    var left := pb[..k] + pb[k + 1..];
    assert |Profiles(rest)| == |left|;
    forall i | 0 <= i < |rest| ensures Profiles(rest)[i] == left[i] {
      if i < k {
        assert rest[i] == b[i];
      } else {
        assert rest[i] == b[i + 1];
      }
    }
  }

  /** Taking one element out of a sequence takes it out of its multiset. */
  lemma RemoveOne<T>(s: seq<T>, k: nat)
    requires k < |s|
    ensures multiset(s) == multiset(s[..k] + s[k + 1..]) + multiset{s[k]}
  {
    assert s == s[..k] + [s[k]] + s[k + 1..];
  }

  /** The import's reorder keeps every profile: a permutation. */
  lemma ImportOrderPermutes(cameras: seq<CameraSetting>, compare: Comparer)
    ensures multiset(Profiles(ImportOrder(cameras, compare))) == multiset(cameras)
  {
    var entries := Entries(cameras);
    SortByKeyPermutes(entries, AliasKey, compare);
    StablePartitionPermutes(SortByKey(entries, AliasKey, compare), IsEnabled);
    ProfilesMultiset(ImportOrder(cameras, compare), entries);
    assert Profiles(entries) == cameras;
  }

  /** After the reorder every enabled profile precedes every disabled one, and within each
      group the aliases are in order under the comparer, a null alias first. */
  lemma ImportOrderSorted(cameras: seq<CameraSetting>, compare: Comparer)
    requires Collation(compare)
    ensures forall i, j | 0 <= i < j < |ImportOrder(cameras, compare)| ::
      !IsEnabled(ImportOrder(cameras, compare)[i]) ==> !IsEnabled(ImportOrder(cameras, compare)[j])
    ensures forall i, j | 0 <= i < j < |ImportOrder(cameras, compare)| &&
                          IsEnabled(ImportOrder(cameras, compare)[i]) == IsEnabled(ImportOrder(cameras, compare)[j]) ::
      KeyLe(compare, AliasKey(ImportOrder(cameras, compare)[i]), AliasKey(ImportOrder(cameras, compare)[j]))
  {
    var sorted := SortByKey(Entries(cameras), AliasKey, compare);
    SortByKeyProperties(Entries(cameras), AliasKey, compare);
    StablePartitionSplits(sorted, IsEnabled);
    StablePartitionGroupsSorted(sorted, AliasKey, compare, IsEnabled);
  }

  /** Each entry of the reorder carries its own profile's alias and Enabled flag. */
  lemma ImportOrderEntries(cameras: seq<CameraSetting>, compare: Comparer)
    ensures forall i | 0 <= i < |ImportOrder(cameras, compare)| :: Faithful(ImportOrder(cameras, compare)[i])
  {
    var entries := Entries(cameras);
    SortByKeyPermutes(entries, AliasKey, compare);
    StablePartitionPermutes(SortByKey(entries, AliasKey, compare), IsEnabled);
    PermutationKeepsFaithful(ImportOrder(cameras, compare), entries);
  }

  /** The entry's alias and flag are its profile's. */
  predicate Faithful(entry: SortEntry)
    reads entry.2
  {
    AliasKey(entry) == entry.2.alias && IsEnabled(entry) == entry.2.enabled
  }

  lemma PermutationKeepsFaithful(a: seq<SortEntry>, b: seq<SortEntry>)
    requires multiset(a) == multiset(b)
    requires forall k | 0 <= k < |b| :: Faithful(b[k])
    ensures forall i | 0 <= i < |a| :: Faithful(a[i])
  {
    forall i | 0 <= i < |a| ensures Faithful(a[i]) {
      assert a[i] in multiset(b);
      var k :| 0 <= k < |b| && b[k] == a[i];
    }
  }
}
