/** The application's settings object: the global defaults and the camera profiles. */
module Configuration {
  import opened Wrappers
  import opened Ordering
  import opened CameraSettings
  import opened SettingsExtensions

  /** The settings. Each setter stores the given value and touches nothing else. */
  class Settings {
    var version: Option<string>
    var dateTimeFormat: Option<string>
    var dateTimePriority: Option<string>
    var extensions: Option<string>
    var defaultSourceDirectory: Option<string>
    var cameraSettings: seq<CameraSetting>

    /** New settings take the factory defaults of four settings (the assembly's file version
        for `Version`); the default source directory stays unset and there are no profiles. */
    constructor (fileVersion: Option<string>)
      ensures version == DefaultValue("Version", fileVersion).value
      ensures dateTimeFormat == DefaultValue("DateTimeFormat", fileVersion).value
      ensures dateTimePriority == DefaultValue("DateTimePriority", fileVersion).value
      ensures extensions == DefaultValue("Extensions", fileVersion).value
      ensures defaultSourceDirectory.Null?
      ensures cameraSettings == []
    {
      version := DefaultValue("Version", fileVersion).value;
      dateTimeFormat := DefaultValue("DateTimeFormat", fileVersion).value;
      dateTimePriority := DefaultValue("DateTimePriority", fileVersion).value;
      extensions := DefaultValue("Extensions", fileVersion).value;
      defaultSourceDirectory := Null;
      cameraSettings := [];
    }

    method SetVersion(value: Option<string>)
      modifies this`version
      ensures version == value
    {
      version := value;
    }

    method SetDateTimeFormat(value: Option<string>)
      modifies this`dateTimeFormat
      ensures dateTimeFormat == value
    {
      dateTimeFormat := value;
    }

    method SetDateTimePriority(value: Option<string>)
      modifies this`dateTimePriority
      ensures dateTimePriority == value
    {
      dateTimePriority := value;
    }

    method SetExtensions(value: Option<string>)
      modifies this`extensions
      ensures extensions == value
    {
      extensions := value;
    }

    method SetDefaultSourceDirectory(value: Option<string>)
      modifies this`defaultSourceDirectory
      ensures defaultSourceDirectory == value
    {
      defaultSourceDirectory := value;
    }

    /** The reorder an import applies to the loaded profiles: the list is cleared and the
        profiles are added back ordered by alias under the culture's comparer `compare` and
        then with the enabled ones first. The result is a permutation of the loaded profiles in
        which no disabled profile precedes an enabled one and, when the comparer is a
        collation, each group is in alias order. */
    method ReorderOnImport(compare: Comparer)
      modifies this`cameraSettings
      ensures cameraSettings == Profiles(ImportOrder(old(cameraSettings), compare))
      ensures multiset(cameraSettings) == multiset(old(cameraSettings))
      ensures forall i, j | 0 <= i < j < |cameraSettings| :: !cameraSettings[i].enabled ==> !cameraSettings[j].enabled
      ensures Collation(compare) ==>
        forall i, j | 0 <= i < j < |cameraSettings| && cameraSettings[i].enabled == cameraSettings[j].enabled ::
          KeyLe(compare, cameraSettings[i].alias, cameraSettings[j].alias)
    {
      var loaded := cameraSettings;
      var ordered := Profiles(ImportOrder(loaded, compare));
      cameraSettings := [];
      for i := 0 to |ordered|
        invariant cameraSettings == ordered[..i]
      {
        cameraSettings := cameraSettings + [ordered[i]];
      }
      assert cameraSettings == ordered;
      ImportOrderPermutes(loaded, compare);
      if Collation(compare) {
        ImportOrderSorted(loaded, compare);
      }
      ImportOrderEntries(loaded, compare);
    }
  }
}
