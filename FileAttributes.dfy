/** A file's attribute list: how it is built from the metadata sources in a fixed extraction
    order, how values are rendered and filtered on the way in, the stable sort by name that
    finishes it, and the first-match lookup everything else uses. */
module FileAttributes {
  import opened Wrappers
  import opened Text
  import opened Ordering
  import opened Platform

  /** One attribute: its name, its rendered value and the source it was read from. */
  datatype FileAttribute = FileAttribute(name: string, value: string, source: string)

  /** The value of the first attribute, in list order, with the given name (`FirstOrDefault`). */
  function Value(attributes: seq<FileAttribute>, name: string): (r: Option<string>)
    ensures r.Some? <==> exists i | 0 <= i < |attributes| :: attributes[i].name == name
    ensures r.Some? ==> exists i | 0 <= i < |attributes| ::
      attributes[i].name == name && attributes[i].value == r.value && forall j | 0 <= j < i :: attributes[j].name != name
  {
    if attributes == [] then Null
    else if attributes[0].name == name then Some(attributes[0].value)
    else
      var r := Value(attributes[1..], name);
      assert forall i | 1 <= i < |attributes| :: attributes[1..][i - 1] == attributes[i];
      r
  }

  /** The text `AddFileAttribute` makes of a raw value: arrays and generic enumerables joined
      with "; " (a null item gives an empty piece), anything else by `ToString()` with null as
      empty; Null when the conversion throws. */
  function Render(raw: RawValue): (r: Option<string>)
    ensures raw.ValueArray? || raw.NonEnumerableGeneric? <==> r.Null?
    ensures raw.NullValue? ==> r == Some("")
  {
    match raw
    case NullValue => Some("")
    case Scalar(text) => Some(text)
    case ObjectArray(items) => Some(JoinItems(items))
    case GenericEnumerable(items) => Some(JoinItems(items))
    case ValueArray => Null
    case NonEnumerableGeneric => Null
  }

  /** `string.Join("; ", items)`: a null item contributes an empty piece. */
  function JoinItems(items: seq<Option<string>>): (r: string)
    ensures |items| == 1 ==> r == items[0].OrElse("")
  {
    Join("; ", seq(|items|, i requires 0 <= i < |items| => items[i].OrElse("")))
  }

  /** `double.NaN.ToString()` */
  const NaNText: string := "NaN"

  /** A value worth keeping: not blank and not the text of NaN. */
  predicate Keeps(value: string) {
    !IsBlank(value) && value != NaNText
  }

  /** Every attribute in the list has a value worth keeping. */
  predicate WellFormed(attributes: seq<FileAttribute>) {
    forall i | 0 <= i < |attributes| :: Keeps(attributes[i].value)
  }

  /** `AddFileAttribute`: the list with at most one attribute appended at the end, and only
      when the rendered value is worth keeping; a throwing conversion leaves it unchanged. */
  function AddFileAttribute(attributes: seq<FileAttribute>, name: string, raw: RawValue, source: string): (r: seq<FileAttribute>)
    ensures |attributes| <= |r| <= |attributes| + 1 && r[..|attributes|] == attributes
    ensures |r| == |attributes| + 1 <==> Render(raw).Some? && Keeps(Render(raw).value)
    ensures |r| == |attributes| + 1 ==> r[|attributes|] == FileAttribute(name, Render(raw).value, source)
    ensures WellFormed(attributes) ==> WellFormed(r)
  {
    match Render(raw)
    case Null => attributes
    case Some(value) => if Keeps(value) then attributes + [FileAttribute(name, value, source)] else attributes
  }

  /** Each property added as an attribute of the given source, one at a time. */
  function AddAll(attributes: seq<FileAttribute>, properties: seq<Property>, source: string): (r: seq<FileAttribute>)
    decreases |properties|
  {
    if properties == [] then attributes
    else
      var last := properties[|properties| - 1];
      AddFileAttribute(AddAll(attributes, properties[..|properties| - 1], source), last.name, last.value, source)
  }

  /** The attributes a list of properties yields on its own: the kept ones, in order. */
  function Rendered(properties: seq<Property>, source: string): (r: seq<FileAttribute>)
    ensures WellFormed(r)
    ensures forall i | 0 <= i < |r| :: r[i].source == source
    decreases |properties|
  {
    if properties == [] then []
    else
      var last := properties[|properties| - 1];
      var value := Render(last.value);
      Rendered(properties[..|properties| - 1], source) +
        (if value.Some? && Keeps(value.value) then [FileAttribute(last.name, value.value, source)] else [])
  }

  /** Adding a list of properties appends exactly what they yield on their own. */
  lemma {:induction false} AddAllAppends(attributes: seq<FileAttribute>, properties: seq<Property>, source: string)
    ensures AddAll(attributes, properties, source) == attributes + Rendered(properties, source)
    decreases |properties|
  {
    if properties != [] {
      AddAllAppends(attributes, properties[..|properties| - 1], source);
    }
  }

  /** The appending loop of `GetFileAttributes` for one source. */
  method AddProperties(attributes: seq<FileAttribute>, properties: seq<Property>, source: string) returns (r: seq<FileAttribute>)
    ensures r == attributes + Rendered(properties, source)
  {
    r := attributes;
    for i := 0 to |properties|
      invariant r == AddAll(attributes, properties[..i], source)
    {
      assert properties[..i + 1][..i] == properties[..i];
      r := AddFileAttribute(r, properties[i].name, properties[i].value, source);
    }
    assert properties[..|properties|] == properties;
    AddAllAppends(attributes, properties, source);
  }

  /** The directories of one kind. */
  function OfKind(directories: seq<MetadataDirectory>, kind: DirectoryKind): (r: seq<MetadataDirectory>)
    ensures forall i | 0 <= i < |r| :: r[i].kind == kind
  {
    if directories == [] then []
    else if directories[0].kind == kind then [directories[0]] + OfKind(directories[1..], kind)
    else OfKind(directories[1..], kind)
  }

  /** `OfKind` keeps every directory of the kind, as often as it occurs, and no other. */
  lemma {:induction false} OfKindComplete(directories: seq<MetadataDirectory>, kind: DirectoryKind)
    ensures forall d :: d in OfKind(directories, kind) <==> d in directories && d.kind == kind
    ensures forall d :: multiset(OfKind(directories, kind))[d] == if d.kind == kind then multiset(directories)[d] else 0
  {
    if directories != [] {
      OfKindComplete(directories[1..], kind);
      assert directories == [directories[0]] + directories[1..];
    }
  }

  /** The tags of the only directory of a kind (`SingleOrDefault`); none when there is none,
      a failure when there are several. */
  function SingleDirectoryTags(directories: seq<MetadataDirectory>, kind: DirectoryKind): (r: Result<seq<FileAttribute>>)
    ensures r.Fail? <==> |OfKind(directories, kind)| > 1
    ensures |OfKind(directories, kind)| == 0 ==> r == Ok([])
  {
    var found := OfKind(directories, kind);
    if |found| == 0 then Ok([])
    else if |found| == 1 then Ok(Rendered(found[0].tags, found[0].name))
    else Fail("Sequence contains more than one matching element")
  }

  /** The TagLib part: the `Properties` object's properties then the `Tag` object's; the
      corrupt-file, unsupported-format and invalid-data errors contribute nothing, any
      other error propagates. */
  function TagLibPart(read: TagLibRead): (r: Result<seq<FileAttribute>>)
    ensures r.Fail? <==> read.TagLibFailure? && read.error == OtherTagError
  {
    match read
    case TagLibFailure(error, message) => if error == OtherTagError then Fail(message) else Ok([])
    case TagLibRead(properties, tag) =>
      Ok((if properties.Some? then Rendered(properties.value, "Properties") else []) + Rendered(tag, "Tag"))
  }

  /** The MetadataExtractor part: the QuickTime metadata header's tags then the Exif IFD0
      tags, each under its directory's name; an image-processing error contributes nothing. */
  function MetadataPart(read: MetadataRead): (r: Result<seq<FileAttribute>>)
    ensures r.Fail? <==> (read.MetadataFailure? ||
      (read.Directories? && (|OfKind(read.directories, QuickTimeMetadataHeader)| > 1 || |OfKind(read.directories, ExifIfd0)| > 1)))
  {
    match read
    case ImageProcessingFailure(_) => Ok([])
    case MetadataFailure(message) => Fail(message)
    case Directories(directories) =>
      match SingleDirectoryTags(directories, QuickTimeMetadataHeader)
      case Fail(message) => Fail(message)
      case Ok(quickTime) =>
        match SingleDirectoryTags(directories, ExifIfd0)
        case Fail(message) => Fail(message)
        case Ok(exif) => Ok(quickTime + exif)
  }

  /** The attributes in extraction order, before the sort: FileInfo, TagLib Properties, Tag,
      QuickTime header, Exif IFD0, DateAcquired. */
  function Extracted(sources: Sources): (r: Result<seq<FileAttribute>>)
    ensures r.Fail? <==> (sources.fileInfo.Fail? || TagLibPart(sources.tagLib).Fail? ||
      MetadataPart(sources.metadata).Fail? || sources.dateAcquired.Fail?)
    ensures r.Ok? ==> (r.value ==
      Rendered(sources.fileInfo.value, "FileInfo") + TagLibPart(sources.tagLib).value +
      MetadataPart(sources.metadata).value + Rendered([Property("DateAcquired", sources.dateAcquired.value)], "ShellObject"))
    ensures r.Ok? ==> WellFormed(r.value)
  {
    match sources.fileInfo
    case Fail(message) => Fail(message)
    case Ok(fileInfo) =>
      match TagLibPart(sources.tagLib)
      case Fail(message) => Fail(message)
      case Ok(tagLib) =>
        match MetadataPart(sources.metadata)
        case Fail(message) => Fail(message)
        case Ok(metadata) =>
          match sources.dateAcquired
          case Fail(message) => Fail(message)
          case Ok(dateAcquired) =>
            Ok(Rendered(fileInfo, "FileInfo") + tagLib + metadata + Rendered([Property("DateAcquired", dateAcquired)], "ShellObject"))
  }

  /** The sort key: the attribute's name. */
  function NameKey(attribute: FileAttribute): Option<string> {
    Some(attribute.name)
  }

  /** The attributes in a stable sort by name under the comparer `compare`. */
  function SortByName(attributes: seq<FileAttribute>, compare: Comparer): (r: seq<FileAttribute>)
  {
    SortByKey(attributes, NameKey, compare)
  }

  /** The TagLib block of `GetFileAttributes`, appending to `attributes`. */
  method AddTagLib(attributes: seq<FileAttribute>, read: TagLibRead) returns (r: Result<seq<FileAttribute>>)
    ensures r.Fail? <==> TagLibPart(read).Fail?
    ensures r.Ok? ==> r.value == attributes + TagLibPart(read).value
  {
    match read {
      case TagLibFailure(error, message) =>
        if error == OtherTagError {
          return Fail(message);
        }
        return Ok(attributes);
      case TagLibRead(properties, tag) =>
        var added := attributes;
        if properties.Some? {
          added := AddProperties(added, properties.value, "Properties");
        }
        added := AddProperties(added, tag, "Tag");
        return Ok(added);
    }
  }

  /** The MetadataExtractor block of `GetFileAttributes`, appending to `attributes`. */
  method AddMetadata(attributes: seq<FileAttribute>, read: MetadataRead) returns (r: Result<seq<FileAttribute>>)
    ensures r.Fail? <==> MetadataPart(read).Fail?
    ensures r.Ok? ==> r.value == attributes + MetadataPart(read).value
  {
    hide OfKind, Rendered;
    match read {
      case ImageProcessingFailure(_) =>
        return Ok(attributes);
      case MetadataFailure(message) =>
        return Fail(message);
      case Directories(directories) =>
        var added := attributes;
        var quickTime := OfKind(directories, QuickTimeMetadataHeader);
        if |quickTime| > 1 {
          return Fail("Sequence contains more than one matching element");
        }
        if |quickTime| == 1 {
          added := AddProperties(added, quickTime[0].tags, quickTime[0].name);
        }
        var exif := OfKind(directories, ExifIfd0);
        if |exif| > 1 {
          return Fail("Sequence contains more than one matching element");
        }
        if |exif| == 1 {
          added := AddProperties(added, exif[0].tags, exif[0].name);
        }
        return Ok(added);
    }
  }

  /** `GetFileAttributes`: appends the attributes of each source in extraction order, then
      sorts them by name under the culture's comparer `compare`. */
  method GetFileAttributes(sources: Sources, compare: Comparer) returns (r: Result<seq<FileAttribute>>)
    ensures r.Fail? <==> Extracted(sources).Fail?
    ensures r.Ok? ==> r.value == SortByName(Extracted(sources).value, compare)
  {
    var attributes: seq<FileAttribute> := [];
    if sources.fileInfo.Fail? {
      return Fail(sources.fileInfo.message);
    }
    attributes := AddProperties(attributes, sources.fileInfo.value, "FileInfo");
    assert attributes == Rendered(sources.fileInfo.value, "FileInfo");
    var withTags := AddTagLib(attributes, sources.tagLib);
    if withTags.Fail? {
      return Fail(withTags.message);
    }
    var withMetadata := AddMetadata(withTags.value, sources.metadata);
    if withMetadata.Fail? {
      return Fail(withMetadata.message);
    }
    if sources.dateAcquired.Fail? {
      return Fail(sources.dateAcquired.message);
    }
    attributes := AddProperties(withMetadata.value, [Property("DateAcquired", sources.dateAcquired.value)], "ShellObject");
    r := Ok(SortByName(attributes, compare));
  }

  // ---- what the sort guarantees ----

  /** Names in order: every name sorts no later than every later one. */
  predicate SortedByName(attributes: seq<FileAttribute>, compare: Comparer) {
    forall i, j | 0 <= i < j < |attributes| :: compare(attributes[i].name, attributes[j].name) <= 0
  }

  /** Under a collation the result is sorted by name and is a permutation of the input, and
      attributes whose names sort alike keep their extraction order. */
  lemma SortByNameProperties(attributes: seq<FileAttribute>, compare: Comparer)
    requires Collation(compare)
    ensures SortedByName(SortByName(attributes, compare), compare)
    ensures multiset(SortByName(attributes, compare)) == multiset(attributes)
    ensures forall name ::
      AlikeWith(SortByName(attributes, compare), NameKey, compare, Some(name)) == AlikeWith(attributes, NameKey, compare, Some(name))
  {
    var r := SortByName(attributes, compare);
    SortByKeyProperties(attributes, NameKey, compare);
    forall i, j | 0 <= i < j < |r| ensures compare(r[i].name, r[j].name) <= 0 {
      assert KeyLe(compare, NameKey(r[i]), NameKey(r[j]));
    }
  }

  /** `Value` reads the first entry with the name: the head of the entries with that key. */
  lemma {:induction false} ValueIsFirstWithKey(attributes: seq<FileAttribute>, name: string)
    ensures Value(attributes, name) ==
      if WithKey(attributes, NameKey, Some(name)) == [] then Null else Some(WithKey(attributes, NameKey, Some(name))[0].value)
  {
    if attributes != [] {
      ValueIsFirstWithKey(attributes[1..], name);
    }
  }

  /** Because the sort is stable, a lookup after the sort finds the attribute of that name
      that was extracted first. */
  lemma SortKeepsValue(attributes: seq<FileAttribute>, compare: Comparer, name: string)
    requires Collation(compare)
    ensures Value(SortByName(attributes, compare), name) == Value(attributes, name)
  {
    SortByKeyProperties(attributes, NameKey, compare);
    ValueIsFirstWithKey(attributes, name);
    ValueIsFirstWithKey(SortByName(attributes, compare), name);
  }
}
