# FMCollectFromCamera in Dafny

FMCollectFromCamera is a small Windows tool. It moves photos and videos from cameras and memory cards into one destination folder. A worker thread does the job, in five stages:

1. It checks the destination folder named on the command line.
2. It visits every ready removable drive that has a `DCIM` folder. There it lists the camera folders (names eight UTF-16 code units long whose first three characters parse as 100 to 999). For each camera folder and each media extension that the folder holds, it builds one wildcard pattern `folder\*ext`.
3. It writes those patterns to the window.
4. It asks the Windows shell to move them all to the destination in one operation.
5. It cleans up each camera folder:
   - It deletes each `.thm` thumbnail unless the folder holds a file with the same stem whose extension is not `.thm`.
   - It deletes `Thumbs.db`.
   - It deletes the folder once it is empty.

The shell wrapper packs the source patterns into one NUL-delimited string that ends in an extra NUL. It sets a fixed flag word and turns a nonzero result into an error message. That message carries the result as eight hexadecimal digits.

The model is split into these modules:

- `Common`: `Option` and a filter on sequences.
- `Text`: UTF-16 lengths, ordinal case-insensitive comparison (case folded on ASCII letters only) and composite formatting (`{0}`).
- `Paths`: `Path.Combine`, extensions and stems, and the two wildcard shapes the program lists with.
- `Int32Parse`: `int.TryParse`.
- `FileStore`: a snapshot of the file system.
  - The snapshot maps each existing folder's full path to its file names and subfolder names, in listing order.
- `Dcf`: the camera-folder rule and the move patterns.
- `Cleanup`: the three clean-up steps, and the per-drive stop on the first deletion that throws.
- `WinShell`: the operation record, its encoding, the flags and the error message.
- `Collector`: the destination check, the one-shot `Start`, and the whole worker run.

The outside world enters `Collector` as an `Environment` value. It holds:

- the command line;
- `Directory.Exists` and `Path.GetFullPath`, as functions;
- the drives, as `DriveInfo` reports them;
- the file system;
- the set of paths whose deletion throws;
- the owner window handle;
- the shell, as a function from the operation record to its result.

A run yields:

- the lines written to the window;
- the final file system;
- how the run ended: the syntax line shown, an unhandled error, or the closing line.

Three behaviours of the code are modelled as written:

- A failed move raises its error outside the clean-up's `try` (CollectorThread.cs:118-121). The error is never caught, so it ends the whole run: no later drive is visited and the closing line is not written.
- The clean-up error line formats item `{0}` twice. It names the drive twice and never shows the error's message (`Collector.CleanupErrorLineText`).
- The error message keeps the spelling `SHFIleOperation` of the code.

## Model

| member | source | states |
|---|---|---|
| Dcf.IsCameraFolderName | CollectorThread.cs:90-93 | Defines the test: the name is eight UTF-16 code units long and its first three characters parse as 100 to 999. Its properties are the next three rows. |
| Dcf.CameraFolderNameRule | CollectorThread.cs:86-93 | A subfolder name passes the length, parse and range test exactly when it is eight UTF-16 code units long, the first character is `1`-`9` and the next two are digits. White space or a sign in front leaves at most two digits. The characters after the third are never checked, except for the length. |
| Dcf.CameraFolderNameExamples | CollectorThread.cs:90-93 | `100ABCDE` and `1000ABCD` are camera folders. `099ABCDE` and ` 99ABCDE` are not. |
| Dcf.CameraFolderNameWideExamples | CollectorThread.cs:90 | A character outside the Basic Multilingual Plane counts as two code units: `100ABC` followed by one such character is a camera folder, and `100ABCD` followed by one is not. |
| Dcf.HasMatch | CollectorThread.cs:99 | Defines "the listing `*ext` is not empty": some file name ends in the extension. |
| Dcf.CameraFolders | CollectorThread.cs:88-95 | Defines the camera-folder list, in listing order. It never has more entries than there are subfolders. |
| Dcf.FolderPatterns | CollectorThread.cs:97-103 | Defines one folder's patterns, in extension order. There are never more patterns than extensions. |
| Dcf.SourcePatterns | CollectorThread.cs:88-106 | Defines a drive's move job: the patterns of each camera folder in turn. Its properties are `SourcePatternsBound` and `SourcePatternsMembers`. |
| Dcf.CollectSources | CollectorThread.cs:83-106 | The discovery loop returns the camera folders of `DCIM` in listing order, and the patterns they contribute in folder order. |
| Dcf.AppendFolderPatterns | CollectorThread.cs:97-103 | The extension loop appends one folder's patterns, in the fixed extension order, to the list built so far. |
| Dcf.CameraFoldersMembers | CollectorThread.cs:88-95 | A path is a listed camera folder exactly when it is `DCIM` combined with an existing subfolder name that passes the rule. |
| Dcf.FolderPatternsMembers | CollectorThread.cs:97-103 | A pattern is among a folder's patterns exactly when it is the folder combined with a media extension that has a matching file. There are never more patterns than extensions. |
| Dcf.FolderPatternsInOrder | CollectorThread.cs:97-103 | A folder's patterns correspond one for one, and in order, to the extensions that have a matching file. The i-th pattern is the folder combined with the i-th such extension, so there is exactly one pattern per matched extension. |
| Dcf.SourcePatternsBound | CollectorThread.cs:97-103 | A drive's move job has at most nine patterns per camera folder. |
| Dcf.SourcePatternsMembers | CollectorThread.cs:88-106 | A pattern is in the move job exactly when its folder is a listed camera folder holding a file with its extension. |
| Int32Parse.TryParse | CollectorThread.cs:93 | A parsed value always fits a 32-bit signed integer. |
| Int32Parse.TryParseDigits | CollectorThread.cs:93 | A plain digit string within range parses to its decimal value. |
| Paths.Combine | CollectorThread.cs:80 | An empty second part gives the first part. An empty first part, or a rooted second part, gives the second part. Otherwise the result is the first part, then a `\` unless the first part already ends in a separator, then the second part. |
| Paths.CombineChars | CollectorThread.cs:101 | Combining keeps a non-empty name non-empty and brings in no NUL. |
| Paths.ExtensionPatternIsExtension | CollectorThread.cs:129-134 | A name is listed by `*.thm` exactly when its extension equals `.thm` ignoring case. |
| Cleanup.SiblingIsNotThumbnail | CollectorThread.cs:132-134 | A file that counts as a thumbnail's sibling is never itself a `.thm` file. |
| Cleanup.SiblingsSurvive | CollectorThread.cs:129-141 | Deleting thumbnails never changes whether another thumbnail has a sibling. |
| Cleanup.PruneThumbnails | CollectorThread.cs:129-141 | Defines the thumbnail pass in visiting order. Its file list is never longer than the original, and a path it reports as failing is one that cannot be deleted. |
| Cleanup.RemoveThumbsDb | CollectorThread.cs:143-147 | Defines the `Thumbs.db` step: no change when the file is absent, a failure when it cannot be deleted, and its removal otherwise. Its properties are in `CleanFilesResult` and `CleanFoldersNoThumbsDb`. |
| Cleanup.CleanFiles | CollectorThread.cs:127-147 | Defines the two file steps of a folder: the thumbnail pass, then the `Thumbs.db` step unless the pass threw. Its result is given by `CleanFilesResult`. |
| Cleanup.CleanFolder | CollectorThread.cs:125-150 | Defines the clean-up of one folder. It never creates a folder. A missing folder makes the listing throw. |
| Cleanup.CleanFolders | CollectorThread.cs:121-157 | Defines the clean-up of a drive's folders in order, ending at the first failure. It never creates a folder. |
| Cleanup.IsThumbnail | CollectorThread.cs:129 | Defines the names the `*.thm` listing yields. `ExtensionPatternIsExtension` shows they are exactly the names whose extension is `.thm` ignoring case. |
| Cleanup.IsSiblingOf | CollectorThread.cs:131-134 | Defines a sibling: listed by `stem.*` for the thumbnail's stem, with an extension other than `.thm`. `SiblingIsNotThumbnail` and `FindSibling` state its properties. |
| Cleanup.HasSibling | CollectorThread.cs:131-139 | Defines "some file of the folder is a sibling". `FindSibling` proves the inner loop computes it, and `SiblingsSurvive` shows the thumbnail pass never changes it. |
| Cleanup.IsThumbsDb | CollectorThread.cs:145-146 | Defines the names `File.Exists(folder\Thumbs.db)` finds. `CleanFoldersNoThumbsDb` states that none is left after a clean-up that does not throw. |
| FileStore.HasEntries | CollectorThread.cs:150 | Defines `EnumerateFileSystemInfos().Any()`: the folder holds a file or an existing subfolder. `CleanFolderResult` states that the folder is deleted exactly when this is false. |
| Cleanup.FindSibling | CollectorThread.cs:131-139 | The inner search loop returns true exactly when the folder holds a file with the thumbnail's stem whose extension is not `.thm`. |
| Cleanup.PruneThumbnailsKept | CollectorThread.cs:129-141 | A thumbnail pass that does not throw leaves exactly the files minus the visited thumbnails that had no sibling in the original folder, whatever the visiting order. |
| Cleanup.PruneThumbnailsFailure | CollectorThread.cs:129-141 | The thumbnail pass throws exactly when some thumbnail without a sibling cannot be deleted. |
| Cleanup.PruneThumbnailsSticky | CollectorThread.cs:129-141 | Once a deletion has thrown, later thumbnails change nothing. |
| Cleanup.CleanFilesResult | CollectorThread.cs:127-147 | File steps that do not throw leave exactly the `Remaining` files. |
| Cleanup.RemainingMembers | CollectorThread.cs:127-147 | A file remains exactly when it is not `Thumbs.db` and is not a thumbnail without a sibling. |
| Cleanup.CleanFolderResult | CollectorThread.cs:125-150 | A folder clean-up that does not throw leaves the folder in place with the `Remaining` files. Exactly when no file and no subfolder is left, it deletes the folder instead. |
| Cleanup.CleanFolderFrame | CollectorThread.cs:125-150 | Cleaning one folder neither creates, deletes nor changes any other folder. |
| Cleanup.PruneLoop | CollectorThread.cs:129-141 | The thumbnail loop, which returns at the first deletion that throws, ends as `PruneThumbnails` specifies. |
| Cleanup.CleanFolderSteps | CollectorThread.cs:125-150 | The step-by-step clean-up of one folder (thumbnail loop, `Thumbs.db`, empty check) ends in the state and failure that `CleanFolder` specifies. |
| Cleanup.RemainingIdempotent | CollectorThread.cs:127-147 | Unless a thumbnail's only sibling is `Thumbs.db`, a second round of the file steps keeps all that the first round left. |
| Cleanup.CleanFilesIdempotent | CollectorThread.cs:127-147 | Under the same condition, the file steps on already cleaned files delete nothing and do not throw. |
| Cleanup.CleanFolderIdempotent | CollectorThread.cs:125-150 | Under the same condition, cleaning a folder that survived a clean-up changes nothing. |
| Cleanup.RemainingNotIdempotentExample | CollectorThread.cs:131-147 | In a folder holding `Thumbs.thm` and `Thumbs.db`, the first round keeps the thumbnail and the second deletes it. |
| Cleanup.CleanFoldersSticky | CollectorThread.cs:121-157 | After the first deletion that throws, the later folders of the drive are not touched. |
| Cleanup.CleanFoldersFrame | CollectorThread.cs:123-151 | A drive's clean-up leaves every folder outside its list as it was. |
| Cleanup.CleanFoldersNoThumbsDb | CollectorThread.cs:143-147 | A drive clean-up that does not throw leaves no `Thumbs.db` in any of its folders that remain. |
| Cleanup.CleanFoldersShrink | CollectorThread.cs:123-151 | A drive clean-up that does not throw only removes files and folders. Every folder left existed before, and every file left was in that folder before. |
| Cleanup.CleanDrive | CollectorThread.cs:121-157 | The folder loop of the clean-up, which leaves at the first failure, ends as `CleanFolders` specifies. |
| WinShell.OperationFlags | WinShell.cs:46 | The flag word is `0x1A88`: rename on collision, files only, no recursion. No silent mode, no suppression of confirmations or error UI, no undo. |
| WinShell.BuildFrom | WinShell.cs:33-41 | The builder loop yields each path followed by a NUL, then one more NUL. |
| WinShell.EncodePaths | WinShell.cs:33-41 | Defines `pFrom`: each path followed by a NUL, then one more NUL. Its properties are `EncodeLength`, `DecodeEncode` and `EmptyPathEndsList`. |
| WinShell.EncodeLength | WinShell.cs:33-41 | The encoded list is one character per path character plus one per path plus one. An empty list encodes as a single NUL. |
| WinShell.DecodeEncode | WinShell.cs:33-41 | The shell reads the list back as it was exactly when no path is empty or holds a NUL. |
| WinShell.EmptyPathEndsList | WinShell.cs:35-40 | An empty path in the list ends the shell's reading at that point. |
| WinShell.HexRoundTrip | WinShell.cs:52 | The `k`-digit hexadecimal text of a number consists of lower-case hex digits and reads back as the number modulo 16 to the `k`. |
| WinShell.Hex8 | WinShell.cs:52 | Defines `{0:x8}` on the 32-bit result: its two's complement bits as eight hex digits. Its property is `Hex8RoundTrip`. |
| WinShell.Hex8RoundTrip | WinShell.cs:52 | `{0:x8}` of a 32-bit result is eight lower-case hex digits that read back, as two's complement, to the result. |
| WinShell.Outcome | WinShell.cs:51-52 | Defines the call's outcome: normal for a zero result, otherwise an error with the fixed prefix and the result in eight hex digits. Its properties are `OutcomeMessage`. |
| WinShell.OutcomeMessage | WinShell.cs:51-52 | The operation fails exactly when the result is nonzero. The message is the fixed prefix followed by the result's eight hex digits. |
| WinShell.Record | WinShell.cs:29-49 | Defines the record the call fills: the window, the operation code, the encoded sources, the destination plus a NUL, the flag word, no abort, no name mappings, and the title. Its properties are `RecordReadBack`. |
| WinShell.RecordReadBack | WinShell.cs:29-49 | The record carries the operation code, the source list and the destination so that the shell reads them back. It also says that nothing was aborted and asks for no name mappings. |
| WinShell.FileOperation | WinShell.cs:27-53 | The record handed to the shell is `Record(...)`, and the outcome is the one `Outcome` gives for the shell's result. |
| WinShell.MoveFiles | WinShell.cs:17-20 | `FileOperation` with the move code and the same arguments. |
| WinShell.CopyFiles | WinShell.cs:22-25 | `FileOperation` with the copy code and the same arguments. |
| Collector.CheckDestination | CollectorThread.cs:41-67 | The destination is accepted exactly when there is one argument that is not empty, not `-h` or `/h` (any case) and names an existing folder. It is then the full path, and nothing is written. Otherwise, for one argument that is not a syntax request (so it names no folder), the lines are `Destination folder '<argument>' does not exist.` and then the syntax line. For anything else, the syntax line is the only line. |
| Collector.SyntaxShownIffRefused | CollectorThread.cs:47-67 | A run ends with the syntax line exactly when the destination is refused. Then no file is touched, and the lines written are exactly those `CheckDestination` gives for a refusal. |
| Collector.AsksForSyntax | CollectorThread.cs:48-50 | Defines a syntax request: an empty argument, or `-h` or `/h` in either case. `CheckDestination` and `SyntaxShownIffRefused` state what it leads to. |
| Collector.MissingLineText | CollectorThread.cs:54-56 | The line for a missing destination is the literal text with the argument between the quotes. |
| Collector.RunLines | CollectorThread.cs:69-164 | A run past the check starts with the line naming the destination's full path. A run not ended by a failed move ends with the closing line. |
| Collector.MovedAway | CollectorThread.cs:117-118 | A successful move changes no folder's existence. |
| Collector.CollectorThread.constructor | CollectorThread.cs:21-25 | A new worker is not yet started. |
| Collector.CollectorThread.Start | CollectorThread.cs:27-34 | The flag turns from 0 to 1 and the thread is launched only when the flag was 0. Any number of calls launch it exactly once. |
| Collector.ThreadMainRun | CollectorThread.cs:36-167 | Defines a whole run: the destination check, then the drive loop, then the closing line unless a move failed. Its properties are `SyntaxShownIffRefused` and `RunLines`. |
| Collector.RunDrives | CollectorThread.cs:74-162 | Defines the drive loop: the drives in order, stopping at the first failed move. Its properties are `RunDrivesSticky` and `RunDrivesExtends`. |
| Collector.ProcessDrive | CollectorThread.cs:76-158 | Defines one drive: skipped unless ready, removable, with `DCIM` and with a pattern; otherwise the move job. Its properties are `DriveWritesIffPatterns` and `CrashIffMoveFails`. |
| Collector.MoveJob | CollectorThread.cs:108-157 | Defines the part after discovery: the echo, the move, and the clean-up on success, with its error line when it fails. |
| Collector.EchoLines | CollectorThread.cs:111-115 | Defines the echo of the patterns. Its shape is `EchoLinesShape`. |
| Collector.CleanupErrorLine | CollectorThread.cs:156 | Defines the clean-up error line as the format applied to the drive name and the message. Its text is `CleanupErrorLineText`. |
| Collector.CollectorThread.ThreadMain | CollectorThread.cs:36-167 | The worker's run is the one `ThreadMainRun` specifies. |
| Collector.DriveLoop | CollectorThread.cs:74-162 | The drive loop, which leaves at a failed move, ends as `RunDrives` specifies. |
| Collector.DriveSteps | CollectorThread.cs:76-158 | One drive (test, list, write, move, clean up) ends as `ProcessDrive` specifies. |
| Collector.MoveJobSteps | CollectorThread.cs:108-157 | The echo, the move and the clean-up of one drive end as `MoveJob` specifies. |
| Collector.WritePaths | CollectorThread.cs:111-115 | The echo loop appends each pattern and a line break. |
| Collector.EchoLinesShape | CollectorThread.cs:111-115 | The echo holds two lines per pattern: the pattern, then a line break, in order. |
| Collector.RunDrivesSticky | CollectorThread.cs:118 | After a failed move, no later drive is visited. |
| Collector.RunDrivesExtends | CollectorThread.cs:74-162 | Lines already written are never taken back. |
| Collector.DriveWritesIffPatterns | CollectorThread.cs:76-108 | A drive writes a line exactly when it is ready, removable, has `DCIM` and yields a pattern. A drive passed over changes nothing. |
| Collector.CrashIffMoveFails | CollectorThread.cs:108-157 | A drive ends the run exactly when it yields patterns and the shell returns nonzero for its move. A failed clean-up never ends the run. A failed move is modelled as moving nothing, so the file system is then as it was. |
| Collector.CleanupErrorLineText | CollectorThread.cs:153-157 | The clean-up error line is the fixed text with the drive name in both places. The error's message is not in it. |
| Collector.MovedAndCleaned | CollectorThread.cs:117-151 | Given the assumed effect of a successful move (`MovedAway`), a clean-up that does not throw leaves no remaining camera folder with a media file or a `Thumbs.db`. The media half follows from that assumption; the `Thumbs.db` half and "no new files" are proved about the clean-up. |
| Collector.CameraFolderNulFree | CollectorThread.cs:95 | A camera folder's path holds no NUL when the `DCIM` path and the subfolder names hold none. |
| Collector.PatternNulFree | CollectorThread.cs:101 | A pattern is non-empty and holds no NUL when its folder path holds none. |
| Collector.MoveJobReadBack | CollectorThread.cs:117-118 | The shell reads back exactly the drive's pattern list, in order, and the destination. |

## Left out

- Window output. `OutputWrite` is modelled as appending its text to a list of lines; MainWindow.cs is not part of this model. A pattern is echoed as the text passed in, and how `OutputWrite` treats a single argument containing `{` is not modelled.
- Timing and shutdown. `GC.KeepAlive`, the five-second `Thread.Sleep` and the dispatcher shutdown are UI or timing effects. The `Completed` ending stands for them.
- Collector.CollectorThread.Start: the compare-and-exchange is modelled as one sequential step. Thread scheduling and the worker running concurrently with the window are not modelled.
- Native calls. The P/Invoke call, the record's marshalling and its packing are left out. The shell is a function parameter, so what it does with the record beyond the returned code is not modelled.
- Collector.CrashIffMoveFails: a move for which the shell returns nonzero is modelled as moving nothing. `SHFileOperationW` is not transactional and may have moved some files before it failed; the files it moved then are not modelled.
- Collector.MovedAway: it states only that folders keep existing. It does not state what the shell does. The model assumes that a zero result means every file a pattern selects has left its camera folder. The destination folder's contents, renames on collision and a user cancelling the dialog (`fAnyOperationsAborted`) are not modelled.
- Wildcard matching. Short 8.3 names, `?`, and the quirk where a three-character extension pattern also matches longer extensions are not modelled. `*ext` is a suffix test, and `stem.*` matches the stem itself or the stem followed by a dot.
- Text.EqualsIgnoreCase: case is folded on ASCII letters only. .NET's ordinal ignore-case comparison and Windows listings also fold other letters, such as `É` and `é`. For names with such letters, the model can find no sibling where the source finds one, and then it deletes a thumbnail that the source keeps.
- Environment oracles. `DriveInfo.GetDrives`, `Directory.Exists` and `Path.GetFullPath` are inputs, not computed.
- Errors other than deletions. An exception from a listing, or from a path the runtime refuses, is not modelled. The only exception inside the clean-up comes from a deletion of a path in the `locked` set, or from listing a camera folder that no longer exists.
- Exception messages. The clean-up error's message is represented by the path that failed, and it never appears in the output anyway.
- Int32Parse.TryParse: the sign symbols and the white-space set are those of the invariant culture; culture-specific number formats are not modelled.
- Dcf.SourcePatternsBound: it bounds the number of patterns per folder. It does not prove the pattern strings distinct, because `Path.Combine` is not injective for arbitrary folder names.
- WinShell constants. `FO_DELETE` and `FO_RENAME` are declared as in the source; no operation here uses them. `CopyFiles` is modelled but the collector never calls it.
- Cleanup.RemainingIdempotent: idempotence is proved only when no thumbnail's only sibling is `Thumbs.db`. `Cleanup.RemainingNotIdempotentExample` shows that without this condition a second round deletes more.
