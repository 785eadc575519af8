# CameraFileManagement core, modelled in Dafny

CameraFileManagement collects photos and videos from a camera's card, phone or folder.
It renames each file after its timestamp, its camera's alias and its original name.
Then it moves, copies or renames the files into each camera's destination folder.
This project models the library at the centre of that program:

- **File attributes** (`FileAttributes`): the name/value/source attribute list read from
  `FileInfo`, TagLib, MetadataExtractor and the shell.
  - Values are rendered and blank ones are skipped.
  - A lookup takes the first attribute with a name.
  - The list is sorted by name.
- **Device matching and naming** (`AttributeExtensions`):
  - the make and model, with their two fallbacks (an alias inside the full name, then the
    performers tag that an earlier copy wrote);
  - the single profile that matches a make and model;
  - the destination file name built from a timestamp, the alias and the original name.
    The timestamp comes from one of three file-name stamp formats (module `Timestamps`),
    else from the first attribute in the priority list that parses.
- **The file record** (`CameraFiles`): the `CameraFileInfo` class. Its setters recompute
  the destination and the selected state. Its constructor loads the attributes and
  assigns a camera.
- **The scanner** (`CameraLoading`):
  - enumerates a directory per extension;
  - loads one record per file, counting failures, and honours cancellation;
  - on a removable drive, gives the unknown records the one known camera;
  - sorts selected records first.
- **The transfer engine** (`CameraCopying`, properties in `CopyProperties`):
  - the per-record pass: the duplicate guard, the five copy types, ejection, the
    read-only flag and the performers tag;
  - the success, failure, skip and cancellation bookkeeping;
  - the final summary text;
  - opening the destination folders.
- **Configuration** (`CameraSettings`, `Configuration`, `SettingsExtensions`,
  `CameraSettingExtensions`):
  - camera profiles and the settings object;
  - factory defaults and the alias lists;
  - the re-ordering applied on import;
  - the persisted-camera hint file;
  - adding a profile from a sample file.

The file system is a value `Disk` (path to entry: read-only flag, text, performers tag)
that operations take and return. `Env` holds everything else the code asks the platform
for: the clock, culture-dependent parsing and formatting, user-supplied regular
expressions, metadata readers, directory enumeration, removable drives and process launch.
`Text`, `Paths`, `Ordering` and `Platform` model the .NET behaviour the core relies on:
string splitting and trimming, `Path` functions, the stable `OrderBy`, and file operations.

Some behaviours of the code that a reader might not expect, and that the model keeps:

- `TryAddCamera` creates the new profile enabled (Library/CameraSettingExtensions.cs:30).
- When no priority attribute parses, the timestamp is `DateTime`'s default value, not
  the current time. A failed `TryParse` overwrites its `out` argument.
- A cancelled scan is reported as `Failed` ("Loading failed: ..."), not `Canceled`.
  The exception's source is not TagLib, so it takes the first catch branch.
- The duplicate guard looks destinations up by `Destination` but records them by the
  resolved target.
  - A relative destination is never found again.
  - In `Rename` mode the recorded name is the renamed target, not the destination.
  - `LoopDuplicate` is therefore stated for rooted destinations outside `Rename`.
- The performers tag is written from the make and model after the fallbacks.

## Model

| member | source | states |
|---|---|---|
| FileAttributes.Value | Library/FileAttributeExtensions.cs:19-23 | present iff some attribute has the name, and then it is the value of the first such attribute |
| FileAttributes.Render | Library/FileAttributeExtensions.cs:36-50 | value arrays and non-enumerable generics throw (no value); null renders as the empty string |
| FileAttributes.JoinItems | Library/FileAttributeExtensions.cs:41-45 | a one-item list renders as that item, null as empty |
| FileAttributes.AddFileAttribute | Library/FileAttributeExtensions.cs:32-62 | the list grows by at most one at its end, exactly when the rendered value is kept (not blank, not NaN); the new entry carries the name, value and source; well-formedness is kept |
| FileAttributes.Rendered | Library/FileAttribute.cs:40-41 | rendering a property list gives well-formed attributes, all tagged with the given source |
| FileAttributes.AddAllAppends | Library/FileAttribute.cs:40-41 | adding the properties one by one appends exactly their rendered list |
| FileAttributes.AddProperties | Library/FileAttribute.cs:40-41 | the loop returns the input followed by the rendered properties |
| FileAttributes.OfKind | Library/FileAttribute.cs:68 | only directories of the requested type are kept |
| FileAttributes.OfKindComplete | Library/FileAttribute.cs:68 | every directory of the requested type is kept, as many times as it occurs, and no other |
| FileAttributes.SingleDirectoryTags | Library/FileAttribute.cs:68-73 | throws iff more than one directory of the type exists; no such directory contributes nothing |
| FileAttributes.TagLibPart | Library/FileAttribute.cs:43-60 | fails iff TagLib raises an error other than corrupt file, unsupported format or invalid data |
| FileAttributes.MetadataPart | Library/FileAttribute.cs:62-78 | fails iff the reader raises something other than an image-processing error or a directory type occurs twice |
| FileAttributes.Extracted | Library/FileAttribute.cs:34-100 | fails iff one of the four sources fails; otherwise the FileInfo, TagLib, metadata and DateAcquired attributes in that order, well-formed |
| FileAttributes.AddTagLib | Library/FileAttribute.cs:43-60 | appends the TagLib part or propagates its error |
| FileAttributes.AddMetadata | Library/FileAttribute.cs:62-78 | appends the metadata part or propagates its error |
| FileAttributes.GetFileAttributes | Library/FileAttribute.cs:34-103 | fails iff extraction fails; otherwise the extracted attributes in a stable sort by name under the culture's string comparer |
| FileAttributes.SortByNameProperties | Library/FileAttribute.cs:102 | under any comparer that is a total preorder (as the culture's comparer is), the sorted list is ordered by name, is a permutation of the input, and attributes whose names sort alike keep their extraction order |
| FileAttributes.ValueIsFirstWithKey | Library/FileAttributeExtensions.cs:22 | a lookup is the first attribute carrying the name |
| FileAttributes.SortKeepsValue | Library/FileAttribute.cs:102 | sorting by name changes no lookup, because the sort is stable |
| AttributeExtensions.AliasCamera | Library/FileAttributeExtensions.cs:82 | throws iff the full name is missing and some profile has an alias; otherwise the first profile whose alias occurs in the full name, or none |
| AttributeExtensions.GetMakeAndModel | Library/FileAttributeExtensions.cs:70-107 | the stock make/model unless fallback applies to two blanks; then the alias-matched profile's pair, else the performers tag; the tag's unexpected errors propagate |
| AttributeExtensions.FirstMatch | Library/FileAttributeExtensions.cs:119 | the first profile matching make (or a null make) and model |
| AttributeExtensions.SingleMatch | Library/FileAttributeExtensions.cs:119 | throws iff two profiles match; none iff no profile matches; otherwise the one matching profile |
| AttributeExtensions.GetCamera | Library/FileAttributeExtensions.cs:114-120 | the one profile matching the derived make and model; none iff none matches; throws iff two match or the derivation throws |
| AttributeExtensions.PriorityList | Library/FileAttributeExtensions.cs:166-178 | the camera's own list when not blank, else the global list, else empty |
| AttributeExtensions.FirstParsed | Library/FileAttributeExtensions.cs:181-187 | the first priority whose attribute parses, or none when none parses |
| AttributeExtensions.StampFallbacks | Library/FileAttributeExtensions.cs:132-188 | no stamp and no priorities keeps the current time; a failed priority list leaves DateTime's default; without a stamp the name is unchanged |
| AttributeExtensions.FindStamp | Library/FileAttributeExtensions.cs:132-188 | the method's time and name are the specified stamp |
| AttributeExtensions.PriorityLoop | Library/FileAttributeExtensions.cs:181-187 | the loop's result is the specified priority time |
| AttributeExtensions.FirstParsedIsFirst | Library/FileAttributeExtensions.cs:181-187 | the first index that parses is the one chosen |
| AttributeExtensions.FirstParsedNone | Library/FileAttributeExtensions.cs:181-187 | when nothing parses, nothing is chosen |
| AttributeExtensions.GetDestinationFileName | Library/FileAttributeExtensions.cs:128-211 | no camera gives the Name attribute; with a camera it fails iff Name is missing or a part throws (an invalid format pattern or an invalid date format) |
| AttributeExtensions.AssembleBlank | Library/FileAttributeExtensions.cs:202-208 | the name is just the extension iff every part is blank |
| AttributeExtensions.NonBlankEmpty | Library/FileAttributeExtensions.cs:208 | the non-blank filter is empty iff every part is blank |
| AttributeExtensions.JoinNotBlank | Library/FileAttributeExtensions.cs:208 | joining parts whose first is not blank is not blank |
| Timestamps.ParseFormatDash | Library/FileAttributeExtensions.cs:138-141 | a valid time written in the dash pattern parses back to itself (local kind) |
| Timestamps.FindDash | Library/FileAttributeExtensions.cs:138-139 | the leftmost dash-stamp match, or none anywhere |
| Timestamps.StripDashStampsEffect | Library/FileAttributeExtensions.cs:143 | without a match the name is unchanged; with one it loses at least the 19 stamp characters |
| Timestamps.FindRingNew | Library/FileAttributeExtensions.cs:147 | a newer Ring stamp at the end after an underscore, or none anywhere |
| Timestamps.FindRingOld | Library/FileAttributeExtensions.cs:155 | the leftmost older Ring stamp, or none |
| CameraFiles.NormalizeRoot | Library/CameraFileInfo.cs:21-22 | the root ends in exactly one separator and has no alternate separators |
| CameraFiles.NormalizeRootIdempotent | Library/CameraFileInfo.cs:21-22 | normalising a normalised root changes nothing |
| CameraFiles.Canonical | Library/CameraFileInfo.cs:168-193 | null stays null; otherwise same length with no alternate separators, unchanged if it had none |
| CameraFiles.JoinDestination | Library/CameraFileInfo.cs:40 | the combined destination path is the specified one |
| CameraFiles.SplitDestination | Library/CameraFileInfo.cs:44-45 | the file name is always present; both parts are free of alternate separators |
| CameraFiles.SplitDestinationRejoins | Library/CameraFileInfo.cs:44-45 | for a path naming a file, directory and name recombine to the path and the name holds no separator |
| CameraFiles.DestinationPlan | Library/CameraFileInfo.cs:37-50 | fails iff the destination path fails; otherwise its directory/name split |
| CameraFiles.FirstWithAlias | Library/CameraFileInfo.cs:140 | the first profile with the alias, or none |
| CameraFiles.SingleWithAlias | Library/CameraFileInfo.cs:140 | throws iff two profiles share the alias; none iff no profile has it; else a profile with it |
| CameraFiles.CameraFileInfo.constructor | Library/CameraFileInfo.cs:17-31 | the bare record: normalised root, directory and name of the source, attributes, Ready, no error, no camera |
| CameraFiles.CameraFileInfo.Source | Library/CameraFileInfo.cs:158 | with no directory the source is the file name |
| CameraFiles.CameraFileInfo.SourceNoRoot | Library/CameraFileInfo.cs:163 | removing the root never lengthens the path |
| CameraFiles.CameraFileInfo.SourceNoRootStripsRoot | Library/CameraFileInfo.cs:163 | a source of root plus a root-free rest yields exactly the rest |
| CameraFiles.CameraFileInfo.Destination | Library/CameraFileInfo.cs:198 | throws iff the file name is null; with no directory it is the file name |
| CameraFiles.CameraFileInfo.DestinationExists | Library/CameraFileInfo.cs:203 | throws iff Destination throws; otherwise whether the disk holds that file |
| CameraFiles.CameraFileInfo.Alias | Library/CameraFileInfo.cs:135-136 | the camera's alias, none without a camera |
| CameraFiles.CameraFileInfo.SetDestinationDirectory | Library/CameraFileInfo.cs:168-178 | stores the canonical directory |
| CameraFiles.CameraFileInfo.SetDestinationFileName | Library/CameraFileInfo.cs:183-193 | stores the canonical file name |
| CameraFiles.CameraFileInfo.SetSelected | Library/CameraFileInfo.cs:96-104 | stores the flag |
| CameraFiles.CameraFileInfo.SetStatus | Library/CameraFileInfo.cs:109-117 | stores the status |
| CameraFiles.CameraFileInfo.SetError | Library/CameraFileInfo.cs:122-130 | stores the error |
| CameraFiles.CameraFileInfo.CalculateSelectedState | Library/CameraFileInfo.cs:55-62 | selected iff both parts are set, the target is absent and the file is read-only or not a dashcam's; a selected record never overwrites |
| CameraFiles.CameraFileInfo.CalculateDestination | Library/CameraFileInfo.cs:37-50 | an exception leaves the placement as it was; otherwise directory, name, selection and Move follow the plan |
| CameraFiles.CameraFileInfo.Place | Library/CameraFileInfo.cs:44-49 | places the record at the split destination with its selection and Move flag |
| CameraFiles.CameraFileInfo.SetCamera | Library/CameraFileInfo.cs:80-91 | stores the camera, then recomputes the placement as CalculateDestination does |
| CameraFiles.CameraFileInfo.SetAlias | Library/CameraFileInfo.cs:135-143 | an ambiguous alias throws that exception and changes nothing; otherwise the camera becomes the single profile with the alias, or none, and the destination is recomputed as the Camera setter does: placed from the new plan, or the plan's exception with the placement unchanged |
| CameraFiles.AssignedCamera | Library/CameraFileInfo.cs:28 | the given camera if any, else the attributes' matching profile |
| CameraFiles.SortedAttributes | Library/CameraFileInfo.cs:27 | loads iff attribute extraction succeeds |
| CameraFiles.NewCameraFileInfo | Library/CameraFileInfo.cs:17-31 | fails exactly for the paths that cannot be loaded; otherwise a fresh record loaded from the path |
| CameraFiles.AssignCamera | Library/CameraFileInfo.cs:28 | the method's camera is the specified assignment |
| CameraFiles.Construct | Library/CameraFileInfo.cs:21-30 | succeeds iff the destination plan does, giving an initialised fresh record |
| CameraLoading.Failure | Library/CameraLoad.cs:101-108 | a failure report has status Failed |
| CameraLoading.FilesOf | Library/CameraLoad.cs:38-39 | succeeds iff every extension's enumeration succeeds |
| CameraLoading.FilesOfMembers | Library/CameraLoad.cs:38-39 | a path is a candidate iff some extension's enumeration lists it |
| CameraLoading.FilesOfStep | Library/CameraLoad.cs:38-39 | each extension's files come first, then the rest; its exception stops the collection |
| CameraLoading.CollectCandidates | Library/CameraLoad.cs:37-39 | the loop returns the specified candidates |
| CameraLoading.HintCamera | Library/CameraLoad.cs:49-53 | the single profile whose alias equals the hint file's text; no profiles means none |
| CameraLoading.Kept | Library/CameraLoad.cs:64 | the kept paths are among the inputs |
| CameraLoading.KeptStep | Library/CameraLoad.cs:64 | keeping one more path appends it iff flagged |
| CameraLoading.Reached | Library/CameraLoad.cs:59 | the files handled before cancellation; fewer than all iff the token is signalled inside the list |
| CameraLoading.LoadOne | Library/CameraLoad.cs:61-72 | one step appends a fresh record for the path exactly when it loads, and that record is the constructor's for the path (attributes, camera, status Ready, no error, derived destination); the given camera is kept |
| CameraLoading.LoadRecords | Library/CameraLoad.cs:56-74 | loaded plus failed equals the paths reached; the records are the constructor's records of the loadable reached paths, in order; cancellation iff not all were reached |
| CameraLoading.KnownCameras | Library/CameraLoad.cs:84 | exactly the cameras of the known records |
| CameraLoading.SingleKnownCamera | Library/CameraLoad.cs:84 | none iff no record is known; the shared camera when all known records agree; an exception iff two known records differ |
| CameraLoading.KnownCamerasDiffer | Library/CameraLoad.cs:84 | two distinct known cameras come from two known records |
| CameraLoading.Unknown | Library/CameraLoad.cs:80 | exactly the records without an alias |
| CameraLoading.GiveCamera | Library/CameraLoad.cs:87 | the record takes the camera; when the destination can be derived, the directory, file name, Selected and Move are re-derived from it; otherwise the exception is reported and those fields are unchanged |
| CameraLoading.GiveCameraAt | Library/CameraLoad.cs:87 | one unknown record takes the camera as the Camera setter gives it, and no other record changes |
| CameraLoading.InferCameras | Library/CameraLoad.cs:77-90 | conflicting cameras raise; no known camera changes nothing; otherwise every record gets the one camera; known records are untouched; a record whose camera changes has its destination re-derived (unchanged when that throws), and one whose camera stays is untouched; attributes, status and error never change; a raise comes from the conflict or from one record's re-derivation |
| CameraLoading.GiveCameraToAll | Library/CameraLoad.cs:87 | the records reached, in order, take the camera with their destination re-derived; only the last reached can throw, and then its destination is unchanged; the records after it are untouched; status and error never change; on success all take it |
| CameraLoading.SortSelectedFirst | Library/CameraLoad.cs:123 | the array is rearranged so every selected record precedes every unselected one |
| CameraLoading.Swap | Library/CameraLoad.cs:123 | exchanges two entries and keeps the multiset |
| CameraLoading.SortedSelectedFirst | Library/CameraLoad.cs:123 | selected first, same records, same length |
| CameraLoading.LoadablePaths | Library/CameraLoad.cs:56-72 | the paths whose record can be built, never more than the input |
| CameraLoading.LoadablePathsMembers | Library/CameraLoad.cs:56-72 | a path is listed iff it is an input and its record can be built |
| CameraLoading.KeptLoadable | Library/CameraLoad.cs:56-72 | the paths the loop kept are exactly the loadable ones |
| CameraLoading.ScanProperties | Library/CameraLoad.cs:35-53 | an empty path fails; an enumeration error fails with its message; the scanned candidates are the enumeration; a hint camera only on a removable drive |
| CameraLoading.Prepare | Library/CameraLoad.cs:35-53 | the method's scan is the specified one |
| CameraLoading.LoadAndInfer | Library/CameraLoad.cs:56-98 | each record is the constructor's record of a loadable reached path, in order, or on a removable drive such a record given another camera with its destination re-derived; cancellation reports Failure; success reports the counts; on a removable drive with a known record all share one camera |
| CameraLoading.InferLoaded | Library/CameraLoad.cs:77-98 | after the inference each constructor's record is unchanged or, on a removable drive, took another camera with its destination re-derived; failure only on a removable drive; success reports the counts |
| CameraLoading.InferAndReport | Library/CameraLoad.cs:77-107 | failure only on a removable drive, from conflicting cameras or from a destination exception while assigning the shared camera, reported with that exception's message; success reports the load counts; a record whose camera changes has its destination re-derived; no status or error changes |
| CameraLoading.LoadSorted | Library/CameraLoad.cs:56-123 | as LoadAndInfer (constructor's or re-assigned records of the loadable reached paths), with the records rearranged selected first |
| CameraLoading.GetCameraFilesFromDirectory | Library/CameraLoad.cs:18-126 | the removable flag; selected first; scan errors give no files and a failure; otherwise a permutation of the loadable reached records, cancellation and count reports, and one shared camera on a removable drive |
| CameraCopying.Sentence | Library/CameraCopy.cs:47-66 | one summary sentence is never empty |
| CameraCopying.FinalCopiedText | Library/CameraCopy.cs:45-69 | the summary is empty iff nothing was moved, copied, renamed, failed or skipped |
| CameraCopying.FinalCopiedTextLists | Library/CameraCopy.cs:45-69 | the summary is the non-zero sentences joined by spaces, with a trailing space unless the skipped sentence ends it |
| CameraCopying.Guard.Add | Library/CameraCopy.cs:184-185 | recording a name adds exactly that pair, keeps every earlier one and validity, and appends the folder at most once |
| CameraCopying.EmptyGuardValid | Library/CameraCopy.cs:73 | the empty guard is valid and holds nothing |
| CameraCopying.OpenFolder | Library/CameraCopy.cs:279-291 | one launch per folder; a too-long command line retries with the first name only; other errors escape |
| CameraCopying.LaunchesCoverFolders | Library/CameraCopy.cs:274-293 | every launch targets a recorded folder with its names or its first name; without an escape every folder is launched with all its names |
| CameraCopying.OpenFoldersAfter | Library/CameraCopy.cs:274-293 | the loop performs the specified launches |
| CameraCopying.TargetOf | Library/CameraCopy.cs:96 | a rooted destination is the target; a relative one fails iff there is no source directory |
| CameraCopying.Operate | Library/CameraCopy.cs:106-138 | one operation adds one to moved/copied/renamed when it writes; Demonstration leaves the disk alone; a rename may retarget; interruption needs cancellation |
| CameraCopying.Ejecting | Library/CameraCopy.cs:140-150 | the drives to eject only grow, and only by removable drives; with no removable drive nothing is ejected and nothing is raised |
| CameraCopying.FollowUp | Library/CameraCopy.cs:140-176 | ejection, read-only clearing and tagging change no counts or guard, only add removable drives, and keep the target |
| CameraCopying.PlaceOf | Library/CameraCopy.cs:99-176 | a write happens only for a destination not yet in the guard; counts of failures and skips stay; Demonstration changes no disk or drives |
| CameraCopying.TransferOf | Library/CameraCopy.cs:92-176 | as PlaceOf, and a non-rename write lands on the resolved target of the destination |
| CameraCopying.Observe | Library/CameraCopy.cs:219 | a progress observer either lets the pass go on or fails it |
| CameraCopying.Settle | Library/CameraCopy.cs:180-204 | concluding a record keeps the guard valid |
| CameraCopying.Handle | Library/CameraCopy.cs:85-219 | handling a record keeps the guard valid |
| CameraCopying.Loop | Library/CameraCopy.cs:82-220 | one snapshot per record; a pass that was not stopped reached every record; the guard stays valid |
| CameraCopying.Operation | Library/CameraCopy.cs:106-138 | the method performs the specified operation |
| CameraCopying.Finish | Library/CameraCopy.cs:140-176 | the method performs the specified follow-up |
| CameraCopying.Transfer | Library/CameraCopy.cs:92-176 | the method performs the specified transfer |
| CameraCopying.Place | Library/CameraCopy.cs:99-176 | the method performs the specified placement |
| CameraCopying.Conclude | Library/CameraCopy.cs:180-204 | the record's new flags and the state follow the specified settlement |
| CameraCopying.ProcessRecord | Library/CameraCopy.cs:85-219 | the record's new flags, the state and the halt follow the specified handling |
| CameraCopying.Pass | Library/CameraCopy.cs:82-220 | the loop over the records ends in the specified state and halt, and each record shows its specified snapshot |
| CameraCopying.Run | Library/CameraCopy.cs:30-253 | the records, status, text, disk, ejected drives and launched folders are those of the specified pass, endings and folder opening |
| CopyProperties.HandleHalt | Library/CameraCopy.cs:189-219 | a record stops the pass only through the observer or an in-flight cancellation of a selected record |
| CopyProperties.HandleFailed | Library/CameraCopy.cs:197-204 | the failed count rises by one exactly when the record ends Failed |
| CopyProperties.HandleUnselected | Library/CameraCopy.cs:88-216 | an unselected record changes no disk, guard or drives and becomes Skipped unless it had succeeded |
| CopyProperties.HandleGuardGrows | Library/CameraCopy.cs:184-185 | a recorded destination stays recorded |
| CopyProperties.HandleDuplicate | Library/CameraCopy.cs:99-103 | a selected record whose destination is already recorded fails |
| CopyProperties.HandleRecords | Library/CameraCopy.cs:180-185 | a successful non-rename transfer to a rooted destination records it in the guard |
| CopyProperties.HandleDemonstration | Library/CameraCopy.cs:106-111 | Demonstration touches no file and ejects nothing |
| CopyProperties.HandleEjects | Library/CameraCopy.cs:140-150 | only removable drives are scheduled for ejection |
| CopyProperties.LoopPrefix | Library/CameraCopy.cs:82-220 | the pass over a prefix agrees with the full pass on that prefix, and a stop is final |
| CopyProperties.LoopRecord | Library/CameraCopy.cs:82-220 | a reached record was handled on the state left by the records before it; an unreached record is untouched |
| CopyProperties.LoopGuardGrows | Library/CameraCopy.cs:184-185 | once recorded, a destination stays recorded for the rest of the pass |
| CopyProperties.LoopDuplicate | Library/CameraCopy.cs:96-103 | two selected records with the same rooted destination cannot both succeed outside Rename: the later one fails |
| CopyProperties.Failures | Library/CameraCopy.cs:200 | failures never exceed the records |
| CopyProperties.LoopFailures | Library/CameraCopy.cs:197-204 | the failed count equals the number of reached records that ended Failed |
| CopyProperties.LoopQuiet | Library/CameraCopy.cs:82-220 | before any interruption the pass keeps going |
| CopyProperties.LoopUninterrupted | Library/CameraCopy.cs:82-220 | without interruption every record is reached and the pass completes |
| CopyProperties.LoopCanceledAtTop | Library/CameraCopy.cs:85-233 | cancellation before record c stops there with the cancellation message and leaves the rest untouched |
| CopyProperties.LoopCanceledInFlight | Library/CameraCopy.cs:189-233 | cancellation during record c stops after it with a cancellation message |
| CopyProperties.LoopCanceledInLast | Library/CameraCopy.cs:189-233 | cancellation during the last record reaches every record and ends normally or with the operation's cancellation |
| CopyProperties.LoopObserverFault | Library/CameraCopy.cs:219-240 | an observer fault after record c fails the pass with its message |
| CopyProperties.LoopDemonstration | Library/CameraCopy.cs:106-111 | a Demonstration pass leaves the disk as it was and ejects nothing |
| CopyProperties.LoopEjects | Library/CameraCopy.cs:140-246 | only removable drives are ejected |
| CopyProperties.LoopUnselected | Library/CameraCopy.cs:88-216 | an unselected record ends Skipped when reached, unless it had succeeded before |
| CameraSettings.CameraSetting.constructor | Library/CameraSetting.cs:8-177 | a new profile is disabled, of type None, with every text field null and Move off |
| CameraSettings.CameraSetting.SetEnabled | Library/CameraSetting.cs:15-23 | stores the flag |
| CameraSettings.CameraSetting.SetType | Library/CameraSetting.cs:28-36 | stores the type |
| CameraSettings.CameraSetting.SetAlias | Library/CameraSetting.cs:41-49 | stores the alias |
| CameraSettings.CameraSetting.SetMake | Library/CameraSetting.cs:54-62 | stores the make |
| CameraSettings.CameraSetting.SetModel | Library/CameraSetting.cs:67-75 | stores the model |
| CameraSettings.CameraSetting.SetDestination | Library/CameraSetting.cs:80-88 | stores the destination |
| CameraSettings.CameraSetting.SetFormat | Library/CameraSetting.cs:93-101 | stores the format |
| CameraSettings.CameraSetting.SetDateTimePriority | Library/CameraSetting.cs:106-114 | stores the priority list |
| CameraSettings.CameraSetting.SetMove | Library/CameraSetting.cs:119-127 | stores the flag |
| CameraSettings.CameraTypes | Library/CameraSetting.cs:136 | the type names in declaration order |
| CameraSettings.CameraTypesNamesEachType | Library/CameraSetting.cs:136 | each type's name sits at its ordinal, and nowhere else |
| CameraSettings.HintFile | Library/CameraSetting.cs:145-157 | the hint file exists iff the directory has a root, and is CFM at that root |
| CameraSettings.SetPersistedCamera | Library/CameraSetting.cs:143-147 | writes the hint file and no other file; fails iff there is no root or the file is read-only |
| CameraSettings.GetPersistedCamera | Library/CameraSetting.cs:155-163 | fails iff there is no root; the hint file's text when it exists, else null |
| CameraSettings.PersistedCameraRoundTrip | Library/CameraSetting.cs:143-163 | reading back from any directory on the same root yields the alias written (empty for none) |
| Enumerations.CameraTypeOrdinal | Library/Enumerations.cs:11-20 | each type has its position in the declaration |
| Configuration.Settings.constructor | Library/Settings.cs:19-27 | version, format, priority and extensions take their defaults; no default source directory; no profiles |
| Configuration.Settings.SetVersion | Library/Settings.cs:32-40 | stores the version |
| Configuration.Settings.SetDateTimeFormat | Library/Settings.cs:45-53 | stores the format |
| Configuration.Settings.SetDateTimePriority | Library/Settings.cs:59-67 | stores the priority list |
| Configuration.Settings.SetExtensions | Library/Settings.cs:72-80 | stores the extensions |
| Configuration.Settings.SetDefaultSourceDirectory | Library/Settings.cs:85-93 | stores the directory |
| Configuration.Settings.ReorderOnImport | Library/SettingsExtensions.cs:52-55 | the profiles are permuted so enabled ones come first, and when the comparer is a total preorder each group is ordered by alias under it (null first) |
| SettingsExtensions.DefaultValue | Library/SettingsExtensions.cs:87-109 | each known setting's factory default; any other name throws with the argument message |
| SettingsExtensions.AllCameraAliases | Library/SettingsExtensions.cs:116-119 | every profile's alias, in order |
| SettingsExtensions.AvailableCameraAliasesProperties | Library/SettingsExtensions.cs:126-129 | an ordered sub-list of all aliases, one per enabled profile, each an enabled profile's |
| SettingsExtensions.ImportOrderPermutes | Library/SettingsExtensions.cs:55 | the import order is a permutation of the profiles |
| SettingsExtensions.ImportOrderSorted | Library/SettingsExtensions.cs:55 | disabled profiles follow enabled ones, and within each group aliases ascend under any total-preorder comparer, the culture's included |
| SettingsExtensions.ImportOrderEntries | Library/SettingsExtensions.cs:55 | each sort entry carries its profile's own alias and flag |
| CameraSettingExtensions.SxMatch | Library/CameraSettingExtensions.cs:61 | a match is SX followed by digits, and one exists iff the model contains one |
| CameraSettingExtensions.DigitWordMatches | Library/CameraSettingExtensions.cs:68 | every match is a digit run with a word character, taken from the model; none iff there is no such match |
| CameraSettingExtensions.StemGroups | Library/CameraSettingExtensions.cs:24 | groups exist iff the stem is non-digits then digits; they are that prefix and that digit run |
| CameraSettingExtensions.StemMatchIsGreedy | Library/CameraSettingExtensions.cs:24 | the greedy groups reach the end of any matching stem |
| CameraSettingExtensions.FormatFor | Library/CameraSettingExtensions.cs:36 | a format exists iff the stem matches; it captures the prefix and the digit count |
| CameraSettingExtensions.AliasFor | Library/CameraSettingExtensions.cs:52-81 | throws iff make or model is null |
| CameraSettingExtensions.AliasIsUpperCase | Library/CameraSettingExtensions.cs:53-81 | every alias made this way has no lower-case letters |
| CameraSettingExtensions.CreateCameraAlias | Library/CameraSettingExtensions.cs:49-82 | propagates the make/model exception; the alias is upper case |
| CameraSettingExtensions.PlanAdd | Library/CameraSettingExtensions.cs:21-40 | nothing to add for a null model or a known make/model; a new profile carries the derived make and model, absent before, and a format iff the stem matches; it throws only for a null make |
| CameraSettingExtensions.TryAddCamera | Library/CameraSettingExtensions.cs:19-41 | appends exactly the planned profile or nothing; an exception changes nothing; make/model uniqueness is kept |
| CameraSettingExtensions.AppendProfile | Library/CameraSettingExtensions.cs:28-39 | appends a fresh enabled profile of type None with the plan's values |
| CameraSettingExtensions.AppendKeepsUnique | Library/CameraSettingExtensions.cs:26 | appending a profile with a new make and model keeps make/model pairs unique |

## Left out

- Progress reporting. `ProgressUpdate` events, progress values and maxima, and the
  intermediate texts are left out. The run's final status and text are modelled.
  `MegabyteText` is taken as the parameter `megabytes`.
- File sizes (`double`) are left out, and so are the megabyte totals computed from them.
- JSON reading and writing: `Load`, `Save`, `Import`'s deserialisation, `Export` and
  `UserSettingsPath`. Only `Import`'s re-ordering is modelled.
- Asynchrony: `Thread.Sleep`, and running on a worker thread.
- The cancellation token is an input. During a copy it is an `Interrupt` (which record, and
  whether before or during its operation). During a scan it is the index of the first file
  it stops. A run sees at most one interruption.
- Observer exceptions are modelled only in the copy pass, for the event raised after each
  record. The copy pass's first and final progress events and `Eject`'s own exceptions are
  not modelled. Neither are the scanner's events: the first one, the one after each file and
  the final one can throw into the scanner's catch block, and the model's scan never fails
  that way. The event the catch block raises itself is left out too.
- Ejection mechanics: the volume lookup and the eject call. The model returns the set of
  drive names to eject.
- Culture-dependent behaviour: `DateTime.TryParse`, `DateTime.ToString(format)` (which may
  raise a `FormatException`), UTC-to-local conversion, string comparison
  (`Comparer<string>.Default`) and regular expressions with a user-supplied pattern are
  oracles in `Env`. Case folding covers ASCII letters only.
- The string comparer is only assumed to be a total preorder (`Ordering.Collation`). The
  sort lemmas hold for every such comparer. The culture's actual order, under which
  "apple" sorts before "Banana", is not modelled.
- The fixed patterns' `\d` and `\w` match ASCII digits, ASCII letters and `_` only. .NET
  also matches the other Unicode decimal digits and letters. This narrows the stamp
  patterns of Timestamps.FindDash, Timestamps.FindRingNew, Timestamps.FindRingOld and
  Timestamps.StripDashStampsEffect, and the suffix and stem patterns of
  CameraSettingExtensions.SxMatch, CameraSettingExtensions.DigitWordMatches,
  CameraSettingExtensions.StemGroups and CameraSettingExtensions.FormatFor.
- Paths are compared exactly. Windows' `File.Exists` ignores case, so a destination that
  differs only in case counts as absent here. This affects
  CameraFiles.CameraFileInfo.DestinationExists, CameraFiles.CameraFileInfo.CalculateSelectedState
  and the existence tests of Platform.MoveFile and Platform.CopyFile.
- `DateTime` has no arithmetic here. Its default value is a constant.
- CameraFiles.CameraFileInfo.constructor: takes the enumerated path as the source's
  `FileInfo.FullName`, a full path. `Path.GetFullPath` is not modelled: resolving a relative
  path against the current directory is left to the enumeration oracle. If that oracle
  returned a relative path, `SourceDirectory` would stay relative. `Paths.GetDirectoryRoot`
  would then give no root, and CameraCopying.Ejecting would eject nothing where .NET ejects
  the current drive.
- Platform.MoveFile and Platform.CopyFile do not check that the target's folder exists.
  .NET raises `DirectoryNotFoundException` there. Copy and Move create the folder first, so
  this does not show for them. In `Rename` mode CameraCopying.Operate moves to the source
  folder combined with the destination name. When that name holds a missing sub-folder,
  the model counts a successful rename where the source marks the record Failed.
- CameraCopying.Run: requires the records to be distinct objects. The source's list could
  hold one object twice.
- CameraCopying.Pass: requires the records to be distinct objects, for the same reason.
- `Union` in the scanner drops files repeated across extensions by reference. The model keeps
  the concatenated enumerations: each `FileInfo` the enumerations produce is a new object,
  so reference equality removes nothing.
- Lazy enumeration: `files.Any()` and `files.Count()` re-run the enumeration. The model
  enumerates once.
- CameraLoading.SortSelectedFirst: `List.Sort` is unstable. The model commits to one
  order and proves selected-first and permutation, not the exact order.
- CameraLoading.GetCameraFilesFromDirectory: each record is stated to be the constructor's
  record of its file or such a record given another camera with its destination re-derived.
  The contract does not say that this other camera is the one shared by the known records,
  except after a successful load, when all records share one camera. Nor does it give the
  destination of the one record whose re-derivation threw.
- CameraLoading.InferCameras: when a record's destination plan throws while the camera is
  being given, the remaining records may keep their old camera. The contract says each one
  keeps its own or takes the shared camera, not which.
- The dictionary and hash set of copied files keep insertion order here. .NET's enumeration
  order of folders and names is unspecified.
- `Path` functions follow Windows conventions only to the extent used here: drive roots,
  separators, and `GetDirectoryName`/`GetFileName`. UNC and device paths are left out.
