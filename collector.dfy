/**
 * The collector's worker: it checks the destination given on the command line,
 * then visits every drive in order. On a ready removable drive with a `DCIM`
 * folder it lists the camera folders and their media patterns, writes the
 * patterns, moves the matching files to the destination through the shell, and
 * cleans up the camera folders. A move that fails ends the whole run (the error
 * is raised outside the clean-up's handler); a clean-up that fails writes an
 * error line and the run goes on with the next drive.
 *
 * The outside world is an `Environment`: the command line, the directory test
 * and full-path function for the destination, the drives, the file system, the
 * paths whose deletion throws, the owner window and the shell.
 */
module Collector {
  import opened Common
  import opened Text
  import opened Paths
  import opened FileStore
  import opened Dcf
  import opened Cleanup
  import opened WinShell

  const SyntaxLine: string := "Command-Line Syntax: FMCollectFromCamera <destination folder path>\r\n"
  const MissingFormat: string := "Destination folder '{0}' does not exist.\r\n"
  const CollectingFormat: string := "Collecting images from cameras and cards to '{0}'.\r\n"
  const CleanupErrorFormat: string := "Error cleaning up folders on drive '{0}'.\r\n{0}\r\n"
  const CompleteLine: string := "Transfer complete. Exiting in 5 seconds."
  const ProgressTitle: string := "Collecting Photos from Camera"
  const NewLine: string := "\r\n"

  /** The outcome of the destination check: the destination when accepted, and the lines written. */
  datatype Checked = Checked(dest: Option<string>, lines: seq<string>)

  /** `-h`, `/h` (in either case) or nothing at all asks for the syntax line. */
  predicate AsksForSyntax(d: string) {
    |d| == 0 || EqualsIgnoreCase(d, "-h") || EqualsIgnoreCase(d, "/h")
  }

  /**
   * What a refused command line writes: the syntax line alone for anything but a
   * single argument that is not a request for the syntax; for such an argument,
   * which names no existing folder, first a line saying so, then the syntax line.
   */
  function RefusalLines(args: seq<string>): seq<string> {
    if |args| == 2 && !AsksForSyntax(args[1])
    then ["Destination folder '" + args[1] + "' does not exist.\r\n", SyntaxLine]
    else [SyntaxLine]
  }

  /** The line for a missing destination names the argument between quotes. */
  lemma MissingLineText(d: string)
    ensures Format(MissingFormat, [d]) == "Destination folder '" + d + "' does not exist.\r\n"
  {
    assert MissingFormat == "Destination folder '" + "{0}" + "' does not exist.\r\n";
    FormatSingle("Destination folder '", "' does not exist.\r\n", [d]);
  }

  /**
   * The destination check on the command line `args` (the program name first):
   * exactly one argument, not a request for the syntax, naming an existing folder.
   */
  function CheckDestination(args: seq<string>, dirExists: string -> bool, fullPath: string -> string): (r: Checked)
    ensures r.dest.Some? <==> |args| == 2 && !AsksForSyntax(args[1]) && dirExists(args[1])
    ensures r.dest.Some? ==> r.dest.value == fullPath(args[1]) && r.lines == []
    ensures r.dest.None? ==> r.lines == RefusalLines(args)
  {
    var d := if |args| == 2 then args[1] else "";
    if AsksForSyntax(d) then Checked(None, [SyntaxLine])
    else if !dirExists(d) then
      MissingLineText(d);
      Checked(None, [Format(MissingFormat, [d]), SyntaxLine])
    else Checked(Some(fullPath(d)), [])
  }

  /** A drive as `DriveInfo` reports it. */
  datatype Drive = Drive(name: string, rootDirectory: string, isReady: bool, isRemovable: bool)

  datatype Environment = Environment(
    args: seq<string>,
    dirExists: string -> bool,
    fullPath: string -> string,
    drives: seq<Drive>,
    fs: FileSystem,
    locked: set<string>,
    hwnd: int,
    shell: ShFileOpStruct -> int32)

  /** A file one of the move's patterns selects: its name ends with a media extension. */
  predicate IsMedia(name: string) {
    exists e :: e in MediaExtensions && MatchesExtensionPattern(name, e)
  }

  predicate IsNotMedia(name: string) {
    !IsMedia(name)
  }

  /** The file system after a move that succeeds: the media files have left the camera folders. */
  function MovedAway(fs: FileSystem, folders: seq<string>): (r: FileSystem)
    ensures r.Keys == fs.Keys
  {
    map f | f in fs :: if f in folders then Dir(Filter(fs[f].files, IsNotMedia), fs[f].subdirs) else fs[f]
  }

  /** Each pattern written on a line of its own. */
  function EchoLines(paths: seq<string>): seq<string> {
    if paths == [] then [] else EchoLines(paths[..|paths| - 1]) + [paths[|paths| - 1], NewLine]
  }

  /** The clean-up error line; the message is passed but the format never uses it. */
  function CleanupErrorLine(driveName: string, message: string): string {
    Format(CleanupErrorFormat, [driveName, message])
  }

  function DcimPath(drv: Drive): string {
    Combine(drv.rootDirectory, "DCIM")
  }

  /** The run so far: the lines written, the file system, and the failure that ended the run, if any. */
  datatype RunState = RunState(lines: seq<string>, fs: FileSystem, crash: Option<string>)

  /** One drive of the drive loop. */
  function ProcessDrive(st: RunState, drv: Drive, env: Environment, dest: string): RunState {
    var dcim := DcimPath(drv);
    if !(drv.isReady && drv.isRemovable) || dcim !in st.fs then st
    else
      var folders := CameraFolders(dcim, Subdirectories(st.fs, dcim));
      var paths := SourcePatterns(st.fs, folders);
      if paths == [] then st
      else MoveJob(st, drv, folders, paths, env, dest)
  }

  /** The part of a drive after discovery: write the patterns, move, clean up. */
  function MoveJob(st: RunState, drv: Drive, folders: seq<string>, paths: seq<string>, env: Environment, dest: string): RunState {
    var lines := st.lines + EchoLines(paths);
    var outcome := Outcome(env.shell(Record(FO_MOVE, env.hwnd, ProgressTitle, paths, dest)));
    if outcome.Some? then RunState(lines, st.fs, outcome)
    else
      var c := CleanFolders(MovedAway(st.fs, folders), folders, env.locked);
      if c.failed.Some? then RunState(lines + [CleanupErrorLine(drv.name, c.failed.value)], c.fs, None)
      else RunState(lines, c.fs, None)
  }

  /** The drive loop; a failed move ends it. */
  function RunDrives(st: RunState, drives: seq<Drive>, env: Environment, dest: string): RunState {
    if drives == [] then st
    else
      var prev := RunDrives(st, drives[..|drives| - 1], env, dest);
      if prev.crash.Some? then prev else ProcessDrive(prev, drives[|drives| - 1], env, dest)
  }

  datatype Ending = SyntaxShown | Crashed(message: string) | Completed

  /** A whole run: the lines written, the final file system, and how it ended. */
  datatype Run = Run(lines: seq<string>, fs: FileSystem, ending: Ending)

  function StartState(env: Environment, dest: string): RunState {
    RunState([Format(CollectingFormat, [dest])], env.fs, None)
  }

  function ThreadMainRun(env: Environment): Run {
    var chk := CheckDestination(env.args, env.dirExists, env.fullPath);
    if chk.dest.None? then Run(chk.lines, env.fs, SyntaxShown)
    else
      var st := RunDrives(StartState(env, chk.dest.value), env.drives, env, chk.dest.value);
      if st.crash.Some? then Run(st.lines, st.fs, Crashed(st.crash.value))
      else Run(st.lines + [CompleteLine], st.fs, Completed)
  }

  /** The worker object: `started` is the one-shot flag, `launches` counts how often the thread was started. */
  class CollectorThread {
    var started: int
    var launches: nat

    predicate Valid()
      reads this
    {
      (started == 0 && launches == 0) || (started == 1 && launches == 1)
    }

    constructor ()
      ensures Valid() && launches == 0
    {
      started := 0;
      launches := 0;
    }

    /** Sets the flag from 0 to 1 in one step and starts the thread only when it was 0. */
    method Start()
      requires Valid()
      modifies this
      ensures Valid() && launches == 1
      ensures launches == old(launches) + (if old(started) == 0 then 1 else 0)
    {
      var original := started;
      if started == 0 {
        started := 1;
      }
      if original == 0 {
        launches := launches + 1;
      }
    }

    /** The worker's body. */
    method ThreadMain(env: Environment) returns (run: Run)
      ensures run == ThreadMainRun(env)
    {
      var chk := CheckDestination(env.args, env.dirExists, env.fullPath);
      if chk.dest.None? {
        return Run(chk.lines, env.fs, SyntaxShown);
      }
      var dest := chk.dest.value;
      var st := DriveLoop(StartState(env, dest), env.drives, env, dest);
      if st.crash.Some? {
        return Run(st.lines, st.fs, Crashed(st.crash.value));
      }
      return Run(st.lines + [CompleteLine], st.fs, Completed);
    }
  }

  /** The loop over the drives; a failed move leaves it. */
  method DriveLoop(start: RunState, drives: seq<Drive>, env: Environment, dest: string) returns (st: RunState)
    requires start.crash == None
    ensures st == RunDrives(start, drives, env, dest)
  {
    st := start;
    var i := 0;
    while i < |drives|
      invariant 0 <= i <= |drives|
      invariant st.crash == None
      invariant RunDrives(start, drives[..i], env, dest) == st
    {
      assert drives[..i + 1][..i] == drives[..i];
      var lines, fs, crash := DriveSteps(st.lines, st.fs, drives[i], env, dest);
      st := RunState(lines, fs, crash);
      if crash.Some? {
        RunDrivesSticky(start, drives, i + 1, env, dest);
        return;
      }
      i := i + 1;
    }
    assert drives[..i] == drives;
  }

  /** One drive, step by step: list, write, move, clean up. */
  method DriveSteps(lines: seq<string>, fs: FileSystem, drv: Drive, env: Environment, dest: string)
    returns (lines': seq<string>, fs': FileSystem, crash: Option<string>)
    ensures RunState(lines', fs', crash) == ProcessDrive(RunState(lines, fs, None), drv, env, dest)
  {
    lines', fs', crash := lines, fs, None;
    if drv.isReady && drv.isRemovable {
      var dcim := Combine(drv.rootDirectory, "DCIM");
      if dcim in fs {
        var sourceFolders, sourcePaths := CollectSources(fs, dcim);
        if |sourcePaths| > 0 {
          lines', fs', crash := MoveJobSteps(lines, fs, drv, sourceFolders, sourcePaths, env, dest);
        }
      }
    }
  }

  /** Writes the patterns, moves them, and cleans up the camera folders unless the move failed. */
  method MoveJobSteps(lines: seq<string>, fs: FileSystem, drv: Drive, sourceFolders: seq<string>, sourcePaths: seq<string>,
                      env: Environment, dest: string)
    returns (lines': seq<string>, fs': FileSystem, crash: Option<string>)
    ensures RunState(lines', fs', crash) == MoveJob(RunState(lines, fs, None), drv, sourceFolders, sourcePaths, env, dest)
  {
    lines', fs', crash := lines, fs, None;
    lines' := WritePaths(lines', sourcePaths);
    var fos, outcome := MoveFiles(env.hwnd, ProgressTitle, sourcePaths, dest, env.shell);
    if outcome.Some? {
      crash := outcome;
      return;
    }
    var failed;
    fs', failed := CleanDrive(MovedAway(fs, sourceFolders), sourceFolders, env.locked);
    if failed.Some? {
      lines' := lines' + [CleanupErrorLine(drv.name, failed.value)];
    }
  }

  /** The loop that writes each pattern and a line break. */
  method WritePaths(lines: seq<string>, paths: seq<string>) returns (r: seq<string>)
    ensures r == lines + EchoLines(paths)
  {
    r := lines;
    var i := 0;
    while i < |paths|
      invariant 0 <= i <= |paths|
      invariant r == lines + EchoLines(paths[..i])
    {
      assert paths[..i + 1][..i] == paths[..i];
      r := r + [paths[i]];
      r := r + [NewLine];
      i := i + 1;
    }
    assert paths[..i] == paths;
  }

  /** Once a move has failed, the drives after it change nothing. */
  lemma {:induction false} RunDrivesSticky(st: RunState, drives: seq<Drive>, k: nat, env: Environment, dest: string)
    requires k <= |drives| && RunDrives(st, drives[..k], env, dest).crash.Some?
    ensures RunDrives(st, drives, env, dest) == RunDrives(st, drives[..k], env, dest)
    decreases |drives| - k
  {
    if k < |drives| {
      var init := drives[..|drives| - 1];
      assert init[..k] == drives[..k];
      RunDrivesSticky(st, init, k, env, dest);
    } else {
      assert drives[..k] == drives;
    }
  }

  /** Each pattern on one line, followed by a line break. */
  lemma {:induction false} EchoLinesShape(paths: seq<string>)
    ensures |EchoLines(paths)| == 2 * |paths|
    ensures forall i :: 0 <= i < |paths| ==> EchoLines(paths)[2 * i] == paths[i] && EchoLines(paths)[2 * i + 1] == NewLine
  {
    if paths != [] {
      EchoLinesShape(paths[..|paths| - 1]);
    }
  }

  /** The clean-up error line names the drive twice and never shows the error's message. */
  lemma CleanupErrorLineText(driveName: string, message: string)
    ensures CleanupErrorLine(driveName, message) ==
      "Error cleaning up folders on drive '" + driveName + "'.\r\n" + driveName + "\r\n"
  {
    var pre, mid, post := "Error cleaning up folders on drive '", "'.\r\n", "\r\n";
    assert CleanupErrorFormat == pre + ("{0}" + (mid + "{0}" + post));
    FormatTwice(pre, mid, post, [driveName, message]);
    Regroup(pre, driveName, mid, post);
  }

  /** Regrouping a concatenation, stated apart so the solver is not asked to find it in a context full of `Format` terms. */
  lemma Regroup(a: string, b: string, c: string, d: string)
    ensures a + (b + (c + b + d)) == a + b + c + b + d
  {
  }

  /** A drive the loop passes over: not ready, not removable, no `DCIM` folder, or no media pattern. */
  predicate Skipped(st: RunState, drv: Drive) {
    var dcim := DcimPath(drv);
    !(drv.isReady && drv.isRemovable) || dcim !in st.fs
    || SourcePatterns(st.fs, CameraFolders(dcim, Subdirectories(st.fs, dcim))) == []
  }

  /**
   * A drive writes a line exactly when it is not passed over, and one that is
   * passed over changes nothing at all: no line, no move, no clean-up.
   */
  lemma DriveWritesIffPatterns(st: RunState, drv: Drive, env: Environment, dest: string)
    ensures ProcessDrive(st, drv, env, dest).lines == st.lines <==> Skipped(st, drv)
    ensures Skipped(st, drv) ==> ProcessDrive(st, drv, env, dest) == st
  {
    if !Skipped(st, drv) {
      var dcim := DcimPath(drv);
      var paths := SourcePatterns(st.fs, CameraFolders(dcim, Subdirectories(st.fs, dcim)));
      EchoLinesShape(paths);
      var r := ProcessDrive(st, drv, env, dest);
      assert |r.lines| > |st.lines|;
    }
  }

  /**
   * Only a failed move ends the run; a failed clean-up does not. A move fails
   * exactly when the shell returns nonzero, and then the file system is untouched.
   */
  lemma CrashIffMoveFails(st: RunState, drv: Drive, env: Environment, dest: string)
    requires st.crash == None
    ensures var dcim := DcimPath(drv);
      var paths := SourcePatterns(st.fs, CameraFolders(dcim, Subdirectories(st.fs, dcim)));
      ProcessDrive(st, drv, env, dest).crash.Some? <==>
        !Skipped(st, drv) && env.shell(Record(FO_MOVE, env.hwnd, ProgressTitle, paths, dest)) != 0
    ensures ProcessDrive(st, drv, env, dest).crash.Some? ==> ProcessDrive(st, drv, env, dest).fs == st.fs
  {
    var dcim := DcimPath(drv);
    var paths := SourcePatterns(st.fs, CameraFolders(dcim, Subdirectories(st.fs, dcim)));
    OutcomeMessage(env.shell(Record(FO_MOVE, env.hwnd, ProgressTitle, paths, dest)));
  }

  /** Lines are only ever appended. */
  lemma {:induction false} RunDrivesExtends(st: RunState, drives: seq<Drive>, env: Environment, dest: string)
    ensures st.lines <= RunDrives(st, drives, env, dest).lines
  {
    if drives != [] {
      var prev := RunDrives(st, drives[..|drives| - 1], env, dest);
      RunDrivesExtends(st, drives[..|drives| - 1], env, dest);
      var r := ProcessDrive(prev, drives[|drives| - 1], env, dest);
      assert prev.lines <= r.lines;
    }
  }

  /**
   * The syntax line ends a run exactly when the destination is refused, and then
   * it comes before any drive is looked at: the file system is untouched.
   */
  lemma SyntaxShownIffRefused(env: Environment)
    ensures var run := ThreadMainRun(env);
      && (run.ending == SyntaxShown <==>
          !(|env.args| == 2 && !AsksForSyntax(env.args[1]) && env.dirExists(env.args[1])))
      && (run.ending == SyntaxShown ==>
          run.fs == env.fs && run.lines == RefusalLines(env.args))
  {
  }

  /**
   * A run that gets past the check starts with the line naming the destination's
   * full path, whatever the drives write after it, and a run that no failed move
   * ended has the closing line last.
   */
  lemma RunLines(env: Environment)
    ensures var run := ThreadMainRun(env);
      && (run.ending != SyntaxShown ==>
          |run.lines| > 0 && run.lines[0] == Format(CollectingFormat, [env.fullPath(env.args[1])]))
      && (run.ending == Completed ==> run.lines[|run.lines| - 1] == CompleteLine)
  {
    var chk := CheckDestination(env.args, env.dirExists, env.fullPath);
    if chk.dest.Some? {
      var dest := chk.dest.value;
      RunDrivesExtends(StartState(env, dest), env.drives, env, dest);
    }
  }

  /**
   * After a move and a clean-up that both succeed, no camera folder that is left
   * holds a media file or a `Thumbs.db` file.
   */
  lemma MovedAndCleaned(fs: FileSystem, folders: seq<string>, locked: set<string>)
    requires CleanFolders(MovedAway(fs, folders), folders, locked).failed == None
    ensures var r := CleanFolders(MovedAway(fs, folders), folders, locked);
      forall f, n :: f in folders && f in r.fs && n in r.fs[f].files ==> !IsMedia(n) && !IsThumbsDb(n)
  {
    var moved := MovedAway(fs, folders);
    var r := CleanFolders(moved, folders, locked);
    CleanFoldersShrink(moved, folders, locked);
    CleanFoldersNoThumbsDb(moved, folders, locked);
    forall f, n | f in folders && f in r.fs && n in r.fs[f].files
      ensures !IsMedia(n)
    {
      FilterMembers(fs[f].files, IsNotMedia);
    }
  }

  /** A camera folder's path holds no NUL when `DCIM`'s path and its subfolder names hold none. */
  lemma CameraFolderNulFree(fs: FileSystem, dcim: string, f: string)
    requires dcim in fs && NulFree(dcim)
    requires forall n :: n in fs[dcim].subdirs ==> NulFree(n)
    requires f in CameraFolders(dcim, Subdirectories(fs, dcim))
    ensures NulFree(f)
  {
    var names := Subdirectories(fs, dcim);
    FilterMembers(fs[dcim].subdirs, ExistsUnder(fs, dcim));
    CameraFoldersMembers(dcim, names, f);
    var n :| n in names && IsCameraFolderName(n) && f == Combine(dcim, n);
    CombineChars(dcim, n);
  }

  lemma PatternNulFree(f: string, e: string)
    requires NulFree(f) && e in MediaExtensions
    ensures |Pattern(f, e)| > 0 && NulFree(Pattern(f, e))
  {
    assert NulFree("*" + e);
    CombineChars(f, "*" + e);
  }

  /**
   * When the drive's paths hold no NUL, the shell reads back exactly the pattern
   * list the collector built, in its order, and the destination.
   */
  lemma MoveJobReadBack(fs: FileSystem, dcim: string, dest: string, hwnd: int)
    requires dcim in fs && NulFree(dcim) && |dest| > 0 && NulFree(dest)
    requires forall n :: n in fs[dcim].subdirs ==> NulFree(n)
    ensures var paths := SourcePatterns(fs, CameraFolders(dcim, Subdirectories(fs, dcim)));
      var fos := Record(FO_MOVE, hwnd, ProgressTitle, paths, dest);
      DecodePaths(fos.pFrom) == paths && DecodePaths(fos.pTo) == [dest]
  {
    var folders := CameraFolders(dcim, Subdirectories(fs, dcim));
    var paths := SourcePatterns(fs, folders);
    forall p | p in paths
      ensures |p| > 0 && NulFree(p)
    {
      SourcePatternsMembers(fs, folders, p);
      var f, e :| f in folders && e in MediaExtensions && HasMatch(Files(fs, f), e) && p == Pattern(f, e);
      CameraFolderNulFree(fs, dcim, f);
      PatternNulFree(f, e);
    }
    RecordReadBack(FO_MOVE, hwnd, ProgressTitle, paths, dest);
  }
}
