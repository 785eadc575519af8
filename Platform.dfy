/** The world outside the library: the file system as a value that each operation maps to a
    new value, what the metadata libraries report about a file, and the environment (clock,
    culture-dependent parsing and formatting, the user's regular expressions, directory
    enumeration, drives and process start) as functions supplied by the caller. */
module Platform {
  import opened Wrappers
  import opened Text
  import opened Paths
  import opened Timestamps

  // ---- the file system ----

  /** The ways the tag library refuses a file. */
  datatype TagError = CorruptFile | UnsupportedFormat | InvalidData | OtherTagError

  /** A file's tag: its Performers list, or the error the tag library raises on opening it. */
  datatype TagData = Tagged(performers: seq<Option<string>>) | Untaggable(error: TagError, message: string)

  datatype FileEntry = FileEntry(readOnly: bool, text: string, tag: TagData)

  /** Files by full path, and the directories that exist. */
  datatype Disk = Disk(files: map<string, FileEntry>, directories: set<string>)

  /** `File.Exists`, comparing paths exactly (Windows ignores case). */
  predicate Exists(disk: Disk, path: string) {
    path in disk.files
  }

  /** `new FileInfo(path).IsReadOnly`, which is true for a file that does not exist. */
  predicate IsReadOnly(disk: Disk, path: string) {
    path !in disk.files || disk.files[path].readOnly
  }

  /** `File.Move(source, target, overwrite)` */
  function MoveFile(disk: Disk, source: string, target: string, overwrite: bool): (r: Result<Disk>)
    ensures r.Ok? <==>
      (Exists(disk, source) && (source == target || !Exists(disk, target) || (overwrite && !disk.files[target].readOnly)))
    ensures r.Ok? && source != target ==>
      r.value.files == disk.files - {source} + map[target := disk.files[source]] && r.value.directories == disk.directories
    ensures r.Ok? && source == target ==> r.value == disk
  {
    if source !in disk.files then Fail("Could not find file '" + source + "'.")
    else if source == target then Ok(disk)
    else if target in disk.files && !overwrite then Fail("Cannot create a file when that file already exists.")
    else if target in disk.files && disk.files[target].readOnly then Fail("Access to the path '" + target + "' is denied.")
    else Ok(disk.(files := disk.files - {source} + map[target := disk.files[source]]))
  }

  /** `File.Copy(source, target, overwrite: true)`; the copy keeps the source's attributes. */
  function CopyFile(disk: Disk, source: string, target: string): (r: Result<Disk>)
    ensures r.Ok? <==> Exists(disk, source) && source != target && !(Exists(disk, target) && disk.files[target].readOnly)
    ensures r.Ok? ==> r.value.files == disk.files[target := disk.files[source]] && r.value.directories == disk.directories
  {
    if source !in disk.files then Fail("Could not find file '" + source + "'.")
    else if source == target then Fail("The process cannot access the file '" + target + "' because it is being used by another process.")
    else if target in disk.files && disk.files[target].readOnly then Fail("Access to the path '" + target + "' is denied.")
    else Ok(disk.(files := disk.files[target := disk.files[source]]))
  }

  /** `Directory.CreateDirectory(path)`, which refuses a null or blank path and a path that
      names a file. */
  function CreateDirectory(disk: Disk, path: Option<string>): (r: Result<Disk>)
    ensures r.Ok? <==> path.Some? && !IsBlank(path.value) && path.value !in disk.files
    ensures r.Ok? ==> r.value == disk.(directories := disk.directories + {path.value})
  {
    if path.Null? then Fail("Value cannot be null. (Parameter 'path')")
    else if IsBlank(path.value) then Fail("The value cannot be an empty string or composed entirely of whitespace. (Parameter 'path')")
    else if path.value in disk.files then Fail("Cannot create '" + path.value + "' because a file with the same name already exists.")
    else Ok(disk.(directories := disk.directories + {path.value}))
  }

  /** `new FileInfo(path) { IsReadOnly = false }` */
  function ClearReadOnly(disk: Disk, path: string): (r: Result<Disk>)
    ensures r.Ok? <==> Exists(disk, path)
    ensures r.Ok? ==> r.value.files == disk.files[path := disk.files[path].(readOnly := false)]
    ensures r.Ok? ==> r.value.directories == disk.directories
  {
    if path !in disk.files then Fail("Could not find file '" + path + "'.")
    else Ok(disk.(files := disk.files[path := disk.files[path].(readOnly := false)]))
  }

  /** What the tag library reports when it opens, edits or saves a file. */
  datatype TagResult<+T> = TagOk(value: T) | TagFailed(error: TagError, message: string)

  /** `TagLib.File.Create(path)`, then `Tag.Performers = performers` and `Save()`. */
  function WritePerformers(disk: Disk, path: string, performers: seq<Option<string>>): (r: TagResult<Disk>)
    ensures r.TagOk? <==> Exists(disk, path) && disk.files[path].tag.Tagged? && !disk.files[path].readOnly
    ensures r.TagOk? ==> r.value == disk.(files := disk.files[path := disk.files[path].(tag := Tagged(performers))])
  {
    if path !in disk.files then TagFailed(OtherTagError, "Could not find file '" + path + "'.")
    else match disk.files[path].tag
      case Untaggable(error, message) => TagFailed(error, message)
      case Tagged(_) =>
        if disk.files[path].readOnly then TagFailed(OtherTagError, "Access to the path '" + path + "' is denied.")
        else TagOk(disk.(files := disk.files[path := disk.files[path].(tag := Tagged(performers))]))
  }

  /** `TagLib.File.Create(path).Tag.Performers` */
  function ReadPerformers(disk: Disk, path: Option<string>): (r: TagResult<seq<Option<string>>>)
    ensures r.TagOk? <==> path.Some? && Exists(disk, path.value) && disk.files[path.value].tag.Tagged?
    ensures r.TagOk? ==> r.value == disk.files[path.value].tag.performers
  {
    if path.Null? then TagFailed(OtherTagError, "Value cannot be null. (Parameter 'path')")
    else if path.value !in disk.files then TagFailed(OtherTagError, "Could not find file '" + path.value + "'.")
    else match disk.files[path.value].tag
      case Untaggable(error, message) => TagFailed(error, message)
      case Tagged(performers) => TagOk(performers)
  }

  /** `File.WriteAllText(path, text)`: a new file is created writable and without a tag; an
      existing one keeps its tag. */
  function WriteAllText(disk: Disk, path: string, text: string): (r: Result<Disk>)
    ensures r.Ok? <==> !(Exists(disk, path) && disk.files[path].readOnly)
    ensures r.Ok? ==> path in r.value.files && r.value.files[path].text == text
    ensures r.Ok? ==> forall p | p != path ::
      (p in r.value.files <==> p in disk.files) && (p in disk.files ==> r.value.files[p] == disk.files[p])
    ensures r.Ok? ==> r.value.directories == disk.directories
  {
    if path in disk.files then
      if disk.files[path].readOnly then Fail("Access to the path '" + path + "' is denied.")
      else Ok(disk.(files := disk.files[path := disk.files[path].(text := text)]))
    else Ok(disk.(files := disk.files[path := FileEntry(false, text, Untaggable(UnsupportedFormat, "Unsupported format"))]))
  }

  /** `File.ReadAllText(path)` */
  function ReadAllText(disk: Disk, path: string): (r: Result<string>)
    ensures r.Ok? <==> Exists(disk, path)
    ensures r.Ok? ==> r.value == disk.files[path].text
  {
    if path in disk.files then Ok(disk.files[path].text) else Fail("Could not find file '" + path + "'.")
  }

  // ---- what the metadata libraries report about one file ----

  /** The value a property getter returns, as far as `AddFileAttribute` tells them apart:
      null, an object whose `ToString()` is `text`, an array of references, a generic
      enumerable of references (items are their `ToString()`, or null), an array of value
      types (the cast to `object[]` throws), and a generic type that is not an enumerable of
      references (the `as` cast yields null and `ToList` throws). */
  datatype RawValue =
    | NullValue
    | Scalar(text: string)
    | ObjectArray(items: seq<Option<string>>)
    | GenericEnumerable(items: seq<Option<string>>)
    | ValueArray
    | NonEnumerableGeneric

  /** A named property (or metadata tag) and its value. */
  datatype Property = Property(name: string, value: RawValue)

  /** TagLib: the `Properties` object's properties (Null when `Properties` is null) and the
      `Tag` object's properties, or the exception `TagLib.File.Create` raises. */
  datatype TagLibRead =
    | TagLibRead(properties: Option<seq<Property>>, tag: seq<Property>)
    | TagLibFailure(error: TagError, message: string)

  datatype DirectoryKind = QuickTimeMetadataHeader | ExifIfd0 | OtherDirectory

  /** A MetadataExtractor directory: its type, its `Name`, and its tags (name and description). */
  datatype MetadataDirectory = MetadataDirectory(kind: DirectoryKind, name: string, tags: seq<Property>)

  /** `ImageMetadataReader.ReadMetadata(path)`: the directories, an
      `ImageProcessingException`, or another exception. */
  datatype MetadataRead =
    | Directories(directories: seq<MetadataDirectory>)
    | ImageProcessingFailure(message: string)
    | MetadataFailure(message: string)

  /** Everything `GetFileAttributes` reads about one path: the `FileInfo` properties (or the
      exception a getter raises), TagLib, MetadataExtractor and the shell's DateAcquired
      property (or the exception opening the shell object raises). */
  datatype Sources = Sources(
    fileInfo: Result<seq<Property>>,
    tagLib: TagLibRead,
    metadata: MetadataRead,
    dateAcquired: Result<RawValue>)

  // ---- the environment ----

  /** What a regular expression match reports: an invalid pattern (the constructor throws),
      no match, or the matched text and the values of groups 1.. in order. */
  datatype RegexOutcome = BadPattern(message: string) | NoMatch | Match(value: string, groups: seq<string>)

  /** What `Process.Start` does: start the process, throw a `Win32Exception`, or throw
      something else. */
  datatype Launch = Launched | Win32Failure(message: string) | OtherFailure(message: string)

  datatype Env = Env(
    /** `DateTime.Now` */
    now: DateTime,
    /** `Comparer<string>.Default.Compare`: string comparison under the current culture, the
        comparison `OrderBy` applies to string keys. */
    compare: (string, string) -> int,
    /** `DateTime.TryParse` in the current culture. .NET fails on a null input; the oracle
        is not constrained there, so the lemmas hold whatever it answers. */
    tryParse: Option<string> -> Option<DateTime>,
    /** The conversion of a UTC time to local time that `AssumeUniversal` applies. */
    toLocal: DateTime -> DateTime,
    /** `dateTime.ToString(format)`; a null format is the general format, and an invalid
        format raises a `FormatException`. */
    formatDate: (DateTime, Option<string>) -> Result<string>,
    /** `Regex.Match(input, pattern)` for a user-supplied pattern. */
    matchFormat: (string, string) -> RegexOutcome,
    /** What `ImageMetadataReader`, TagLib, `FileInfo` and the shell report for a path. */
    metadata: string -> Sources,
    /** `directory.EnumerateFiles(pattern, recursive ? AllDirectories : TopDirectoryOnly)`:
        each file's `FullName`, or the exception the enumeration raises. The model takes
        these paths as given; their resolution against the current directory is the
        oracle's. */
    enumerate: (string, string, bool) -> Result<seq<string>>,
    /** The names ("E:\") of the drives whose type is Removable. */
    removableDrives: set<string>,
    /** `Process.Start("OpenFolderAndSelect.exe", ...)` for a folder and the files to select. */
    launch: (string, seq<string>) -> Launch)
}
