/**
 * The clean-up that follows a successful move, folder by folder:
 *  1. every `.thm` thumbnail is deleted unless the folder still holds a file of
 *     the same stem whose extension is not `.thm`;
 *  2. a `Thumbs.db` file is deleted;
 *  3. the folder is deleted when nothing is left in it.
 * A deletion that throws ends the clean-up of the drive: the folders after it
 * are left as they are. Which deletions throw is given by `locked`, the set of
 * full paths (as the collector spells them) that cannot be deleted.
 */
module Cleanup {
  import opened Common
  import opened Text
  import opened Paths
  import opened FileStore

  const ThumbsDb: string := "Thumbs.db"

  /** Listed by `GetFiles("*.thm")`. */
  predicate IsThumbnail(name: string) {
    MatchesExtensionPattern(name, ".thm")
  }

  /** Listed by `GetFiles(stem + ".*")` for the stem of `thumb`, and not itself a `.thm` file. */
  predicate IsSiblingOf(g: string, thumb: string) {
    MatchesStemPattern(g, Stem(thumb)) && !EqualsIgnoreCase(Extension(g), ".thm")
  }

  predicate HasSibling(files: seq<string>, thumb: string) {
    exists g :: g in files && IsSiblingOf(g, thumb)
  }

  /** `File.Exists(folder\Thumbs.db)` finds this name (file names compare without case). */
  predicate IsThumbsDb(name: string) {
    EqualsIgnoreCase(name, ThumbsDb)
  }

  /** A folder's files after a clean-up step, and the path whose deletion threw, if one did. */
  datatype Step = Step(files: seq<string>, failed: Option<string>)

  /** The thumbnail pass over the thumbnails `visit`, in that order, each tested against the current files. */
  function PruneThumbnails(folder: string, files: seq<string>, visit: seq<string>, locked: set<string>): (r: Step)
    ensures |r.files| <= |files|
    ensures r.failed.Some? ==> r.failed.value in locked
  {
    if visit == [] then Step(files, None)
    else
      var prev := PruneThumbnails(folder, files, visit[..|visit| - 1], locked);
      var thumb := visit[|visit| - 1];
      if prev.failed.Some? || HasSibling(prev.files, thumb) then prev
      else if Combine(folder, thumb) in locked then Step(prev.files, Some(Combine(folder, thumb)))
      else Step(Without(prev.files, thumb), None)
  }

  /** The files the thumbnail pass keeps: all but the thumbnails in `visit` that have no sibling. */
  function Kept(files: seq<string>, visit: seq<string>): seq<string> {
    Filter(files, KeepTest(files, visit))
  }

  function KeepTest(files: seq<string>, visit: seq<string>): string -> bool {
    g => g !in visit || HasSibling(files, g)
  }

  predicate IsNotThumbsDb(name: string) {
    !IsThumbsDb(name)
  }

  function RemoveThumbsDb(folder: string, files: seq<string>, locked: set<string>): Step {
    var path := Combine(folder, ThumbsDb);
    if !exists n :: n in files && IsThumbsDb(n) then Step(files, None)
    else if path in locked then Step(files, Some(path))
    else Step(Filter(files, IsNotThumbsDb), None)
  }

  /** The file system after cleaning up, and the path whose deletion threw, if one did. */
  datatype Cleaned = Cleaned(fs: FileSystem, failed: Option<string>)

  /** The thumbnail pass over the folder's `.thm` files, then the `Thumbs.db` step. */
  function CleanFiles(folder: string, files: seq<string>, locked: set<string>): Step {
    var thumbs := PruneThumbnails(folder, files, Filter(files, IsThumbnail), locked);
    if thumbs.failed.Some? then thumbs else RemoveThumbsDb(folder, thumbs.files, locked)
  }

  /** The three clean-up steps on one folder (a missing folder makes the listing throw). */
  function CleanFolder(fs: FileSystem, folder: string, locked: set<string>): (r: Cleaned)
    ensures r.fs.Keys <= fs.Keys
  {
    if folder !in fs then Cleaned(fs, Some(folder))
    else
      var d := fs[folder];
      var c := CleanFiles(folder, d.files, locked);
      var fs2 := fs[folder := Dir(c.files, d.subdirs)];
      if c.failed.Some? then Cleaned(fs2, c.failed)
      else if HasEntries(fs2, folder) then Cleaned(fs2, None)
      else if folder in locked then Cleaned(fs2, Some(folder))
      else Cleaned(fs2 - {folder}, None)
  }

  /** The clean-up of a drive's folders in order; the first failure ends it. */
  function CleanFolders(fs: FileSystem, folders: seq<string>, locked: set<string>): (r: Cleaned)
    ensures r.fs.Keys <= fs.Keys
  {
    if folders == [] then Cleaned(fs, None)
    else
      var prev := CleanFolders(fs, folders[..|folders| - 1], locked);
      if prev.failed.Some? then prev else CleanFolder(prev.fs, folders[|folders| - 1], locked)
  }

  /** A sibling is not a `.thm` file, so the thumbnail pass never deletes one. */
  lemma SiblingIsNotThumbnail(g: string, thumb: string)
    requires IsSiblingOf(g, thumb)
    ensures !IsThumbnail(g)
  {
    ExtensionPatternIsExtension(g);
  }

  /** Deleting thumbnails leaves every sibling in place, so whether a thumbnail has one does not change. */
  lemma SiblingsSurvive(files: seq<string>, visit: seq<string>, thumb: string)
    requires forall t :: t in visit ==> IsThumbnail(t)
    ensures HasSibling(Kept(files, visit), thumb) == HasSibling(files, thumb)
  {
    FilterMembers(files, KeepTest(files, visit));
    if HasSibling(files, thumb) {
      var g :| g in files && IsSiblingOf(g, thumb);
      SiblingIsNotThumbnail(g, thumb);
      assert g in Kept(files, visit);
    }
  }

  /**
   * A thumbnail pass that does not throw, in any visiting order, keeps every file
   * but the thumbnails in `visit` that have no sibling among the ORIGINAL files.
   */
  lemma {:induction false} PruneThumbnailsKept(folder: string, files: seq<string>, visit: seq<string>, locked: set<string>)
    requires forall t :: t in visit ==> IsThumbnail(t)
    ensures var r := PruneThumbnails(folder, files, visit, locked);
      r.failed == None ==> r.files == Kept(files, visit)
  {
    if visit != [] {
      var init, thumb := visit[..|visit| - 1], visit[|visit| - 1];
      assert visit == init + [thumb];
      assert forall t :: t in init ==> t in visit;
      PruneThumbnailsKept(folder, files, init, locked);
      var prev := PruneThumbnails(folder, files, init, locked);
      if prev.failed == None {
        SiblingsSurvive(files, init, thumb);
        if HasSibling(files, thumb) {
          FilterPointwise(files, KeepTest(files, init), KeepTest(files, visit));
        } else if Combine(folder, thumb) !in locked {
          FilterThenFilter(files, KeepTest(files, init), Other(thumb), KeepTest(files, visit));
        }
      }
    } else {
      FilterKeepsAll(files, KeepTest(files, visit));
    }
  }

  /**
   * The thumbnail pass, in any visiting order, throws exactly when some thumbnail
   * without a sibling cannot be deleted.
   */
  lemma {:induction false} PruneThumbnailsFailure(folder: string, files: seq<string>, visit: seq<string>, locked: set<string>)
    requires forall t :: t in visit ==> IsThumbnail(t)
    ensures PruneThumbnails(folder, files, visit, locked).failed == None <==>
      forall t :: t in visit && !HasSibling(files, t) ==> Combine(folder, t) !in locked
  {
    if visit != [] {
      var init, thumb := visit[..|visit| - 1], visit[|visit| - 1];
      assert visit == init + [thumb];
      assert forall t :: t in init ==> t in visit;
      PruneThumbnailsFailure(folder, files, init, locked);
      PruneThumbnailsKept(folder, files, init, locked);
      if PruneThumbnails(folder, files, init, locked).failed == None {
        SiblingsSurvive(files, init, thumb);
      }
    }
  }

  /** The files of a folder once its thumbnails without a sibling and its `Thumbs.db` are gone. */
  function Remaining(files: seq<string>): seq<string> {
    Filter(Kept(files, Filter(files, IsThumbnail)), IsNotThumbsDb)
  }

  /** Cleaning up one folder changes no other folder. */
  lemma CleanFolderFrame(fs: FileSystem, folder: string, locked: set<string>, q: string)
    requires q != folder
    ensures var r := CleanFolder(fs, folder, locked);
      (q in r.fs <==> q in fs) && (q in fs ==> r.fs[q] == fs[q])
  {
  }

  /** File steps that do not throw leave exactly the `Remaining` files. */
  lemma CleanFilesResult(folder: string, files: seq<string>, locked: set<string>)
    requires CleanFiles(folder, files, locked).failed == None
    ensures CleanFiles(folder, files, locked).files == Remaining(files)
  {
    var visit := Filter(files, IsThumbnail);
    FilterMembers(files, IsThumbnail);
    PruneThumbnailsKept(folder, files, visit, locked);
    var kept := Kept(files, visit);
    if !exists n :: n in kept && IsThumbsDb(n) {
      FilterKeepsAll(kept, IsNotThumbsDb);
    }
  }

  /**
   * A clean-up of one folder that does not throw leaves the `Remaining` files, and
   * deletes the folder exactly when neither a file nor a subfolder is left.
   */
  lemma CleanFolderResult(fs: FileSystem, folder: string, locked: set<string>)
    requires CleanFolder(fs, folder, locked).failed == None
    ensures folder in fs
    ensures var r := CleanFolder(fs, folder, locked);
      && (folder in r.fs <==> Remaining(fs[folder].files) != [] || Subdirectories(fs, folder) != [])
      && (folder in r.fs ==> r.fs[folder] == Dir(Remaining(fs[folder].files), fs[folder].subdirs))
  {
    var d := fs[folder];
    CleanFilesResult(folder, d.files, locked);
    var fs2 := fs[folder := Dir(Remaining(d.files), d.subdirs)];
    SubdirectoriesSameKeys(fs2, fs, folder);
  }

  /** A file is left exactly when it is not `Thumbs.db` and is no thumbnail without a sibling. */
  lemma RemainingMembers(files: seq<string>, x: string)
    ensures x in Remaining(files) <==>
      x in files && !IsThumbsDb(x) && (!IsThumbnail(x) || HasSibling(files, x))
  {
    var visit := Filter(files, IsThumbnail);
    FilterMembers(files, IsThumbnail);
    FilterMembers(files, KeepTest(files, visit));
    FilterMembers(Kept(files, visit), IsNotThumbsDb);
  }

  /** No thumbnail of `files` depends on a `Thumbs.db` file as its only sibling. */
  predicate NoThumbsDbOnlySibling(files: seq<string>) {
    forall t :: t in files && IsThumbnail(t) && HasSibling(files, t) ==>
      HasSibling(Filter(files, IsNotThumbsDb), t)
  }

  /** Under that condition, a second round of the file steps keeps everything the first left. */
  lemma RemainingIdempotent(files: seq<string>)
    requires NoThumbsDbOnlySibling(files)
    ensures Remaining(Remaining(files)) == Remaining(files)
  {
    var r := Remaining(files);
    forall x | x in r
      ensures !IsThumbsDb(x) && (!IsThumbnail(x) || HasSibling(r, x))
    {
      RemainingMembers(files, x);
      if IsThumbnail(x) {
        FilterMembers(files, IsNotThumbsDb);
        var g :| g in Filter(files, IsNotThumbsDb) && IsSiblingOf(g, x);
        SiblingIsNotThumbnail(g, x);
        RemainingMembers(files, g);
      }
    }
    var visit := Filter(r, IsThumbnail);
    FilterMembers(r, IsThumbnail);
    FilterKeepsAll(r, KeepTest(r, visit));
    FilterKeepsAll(r, IsNotThumbsDb);
  }

  /** The file steps do nothing and do not throw on what a first round left, under the same condition. */
  lemma CleanFilesIdempotent(folder: string, files: seq<string>, locked: set<string>)
    requires NoThumbsDbOnlySibling(files)
    ensures CleanFiles(folder, Remaining(files), locked) == Step(Remaining(files), None)
  {
    var r := Remaining(files);
    RemainingIdempotent(files);
    var visit := Filter(r, IsThumbnail);
    FilterMembers(r, IsThumbnail);
    forall t | t in visit
      ensures HasSibling(r, t)
    {
      RemainingMembers(r, t);
    }
    PruneThumbnailsFailure(folder, r, visit, locked);
    PruneThumbnailsKept(folder, r, visit, locked);
    FilterKeepsAll(r, KeepTest(r, visit));
    forall n | n in r
      ensures !IsThumbsDb(n)
    {
      RemainingMembers(files, n);
    }
  }

  /** Cleaning up a folder that a first clean-up kept changes nothing and does not throw. */
  lemma CleanFolderIdempotent(fs: FileSystem, folder: string, locked: set<string>)
    requires folder in fs && NoThumbsDbOnlySibling(fs[folder].files)
    requires CleanFolder(fs, folder, locked).failed == None
    requires folder in CleanFolder(fs, folder, locked).fs
    ensures var r := CleanFolder(fs, folder, locked);
      CleanFolder(r.fs, folder, locked) == Cleaned(r.fs, None)
  {
    var d := fs[folder];
    var r := CleanFolder(fs, folder, locked);
    CleanFolderResult(fs, folder, locked);
    CleanFilesIdempotent(folder, d.files, locked);
    assert r.fs == fs[folder := Dir(Remaining(d.files), d.subdirs)];
    assert r.fs[folder := Dir(Remaining(d.files), d.subdirs)] == r.fs;
    SubdirectoriesSameKeys(r.fs, fs, folder);
  }

  /** A thumbnail whose only sibling is `Thumbs.db` survives the first round and not the second. */
  lemma RemainingNotIdempotentExample()
    ensures "Thumbs.thm" in Remaining(["Thumbs.thm", "Thumbs.db"])
    ensures "Thumbs.thm" !in Remaining(Remaining(["Thumbs.thm", "Thumbs.db"]))
  {
    var thm, db := "Thumbs.thm", "Thumbs.db";
    var files := [thm, db];
    assert thm[6] == '.' && db[6] == '.';
    assert LastDot(thm) == 6 && LastDot(db) == 6;
    assert Extension(thm) == ".thm" && Stem(thm) == "Thumbs" && Extension(db) == ".db";
    assert IsThumbnail(thm) by {
      assert thm[|thm| - 4..] == ".thm";
    }
    assert !IsThumbsDb(thm);
    assert IsThumbsDb(db);
    assert !IsThumbnail(db) by {
      FoldDiffers(db[|db| - 4..], ".thm", 0);
    }
    assert IsSiblingOf(db, thm) by {
      assert db[..|Stem(thm) + "."|] == Stem(thm) + ".";
    }
    assert !IsSiblingOf(thm, thm);
    RemainingMembers(files, thm);
    var r := Remaining(files);
    forall g | g in r
      ensures g == thm
    {
      RemainingMembers(files, g);
    }
    RemainingMembers(r, thm);
  }

  /** Once a clean-up has thrown, the folders after it change nothing. */
  lemma {:induction false} CleanFoldersSticky(fs: FileSystem, folders: seq<string>, k: nat, locked: set<string>)
    requires k <= |folders| && CleanFolders(fs, folders[..k], locked).failed.Some?
    ensures CleanFolders(fs, folders, locked) == CleanFolders(fs, folders[..k], locked)
    decreases |folders| - k
  {
    if k < |folders| {
      var init := folders[..|folders| - 1];
      assert init[..k] == folders[..k];
      CleanFoldersSticky(fs, init, k, locked);
    } else {
      assert folders[..k] == folders;
    }
  }

  /** The clean-up of a drive touches no folder outside its list. */
  lemma {:induction false} CleanFoldersFrame(fs: FileSystem, folders: seq<string>, locked: set<string>, q: string)
    requires q !in folders
    ensures var r := CleanFolders(fs, folders, locked);
      (q in r.fs <==> q in fs) && (q in fs ==> r.fs[q] == fs[q])
  {
    if folders != [] {
      var init := folders[..|folders| - 1];
      assert forall f :: f in init ==> f in folders;
      CleanFoldersFrame(fs, init, locked, q);
      CleanFolderFrame(CleanFolders(fs, init, locked).fs, folders[|folders| - 1], locked, q);
    }
  }

  /** A clean-up of a drive that does not throw leaves no `Thumbs.db` file in any of its folders. */
  lemma {:induction false} CleanFoldersNoThumbsDb(fs: FileSystem, folders: seq<string>, locked: set<string>)
    requires CleanFolders(fs, folders, locked).failed == None
    ensures var r := CleanFolders(fs, folders, locked);
      forall f, n :: f in folders && f in r.fs && n in r.fs[f].files ==> !IsThumbsDb(n)
  {
    if folders != [] {
      var init, last := folders[..|folders| - 1], folders[|folders| - 1];
      var prev := CleanFolders(fs, init, locked);
      CleanFoldersNoThumbsDb(fs, init, locked);
      CleanFolderResult(prev.fs, last, locked);
      var r := CleanFolder(prev.fs, last, locked);
      forall f, n | f in folders && f in r.fs && n in r.fs[f].files
        ensures !IsThumbsDb(n)
      {
        if f == last {
          RemainingMembers(prev.fs[last].files, n);
        } else {
          CleanFolderFrame(prev.fs, last, locked, f);
          assert f in init;
        }
      }
    }
  }

  /** A clean-up of a drive that does not throw only ever removes files and folders. */
  lemma {:induction false} CleanFoldersShrink(fs: FileSystem, folders: seq<string>, locked: set<string>)
    requires CleanFolders(fs, folders, locked).failed == None
    ensures var r := CleanFolders(fs, folders, locked);
      && r.fs.Keys <= fs.Keys
      && forall f, n :: f in r.fs && n in r.fs[f].files ==> n in fs[f].files
  {
    if folders != [] {
      var init, last := folders[..|folders| - 1], folders[|folders| - 1];
      var prev := CleanFolders(fs, init, locked);
      CleanFoldersShrink(fs, init, locked);
      CleanFolderResult(prev.fs, last, locked);
      var r := CleanFolder(prev.fs, last, locked);
      forall f | f in r.fs
        ensures f in prev.fs && forall n :: n in r.fs[f].files ==> n in prev.fs[f].files
      {
        if f == last {
          forall n | n in r.fs[f].files
            ensures n in prev.fs[f].files
          {
            RemainingMembers(prev.fs[last].files, n);
          }
        } else {
          CleanFolderFrame(prev.fs, last, locked, f);
        }
      }
    }
  }

  /** Once the thumbnail pass has thrown, the thumbnails after it change nothing. */
  lemma {:induction false} PruneThumbnailsSticky(folder: string, files: seq<string>, visit: seq<string>, k: nat, locked: set<string>)
    requires k <= |visit| && PruneThumbnails(folder, files, visit[..k], locked).failed.Some?
    ensures PruneThumbnails(folder, files, visit, locked) == PruneThumbnails(folder, files, visit[..k], locked)
    decreases |visit| - k
  {
    if k < |visit| {
      var init := visit[..|visit| - 1];
      assert init[..k] == visit[..k];
      PruneThumbnailsSticky(folder, files, init, k, locked);
    } else {
      assert visit[..k] == visit;
    }
  }

  /** The test "listed by `GetFiles(stem + ".*")`". */
  function StemTest(stem: string): string -> bool {
    g => MatchesStemPattern(g, stem)
  }

  /** The inner loop: does the `stem.*` listing of a thumbnail hold a file that is not a `.thm` file? */
  method FindSibling(files: seq<string>, thumb: string) returns (hasMatch: bool)
    ensures hasMatch == HasSibling(files, thumb)
  {
    var listing := Filter(files, StemTest(Stem(thumb)));
    FilterMembers(files, StemTest(Stem(thumb)));
    hasMatch := false;
    var i := 0;
    while i < |listing|
      invariant 0 <= i <= |listing|
      invariant forall j :: 0 <= j < i ==> EqualsIgnoreCase(Extension(listing[j]), ".thm")
    {
      if !EqualsIgnoreCase(Extension(listing[i]), ".thm") {
        assert listing[i] in listing;
        assert IsSiblingOf(listing[i], thumb);
        hasMatch := true;
        break;
      }
      i := i + 1;
    }
    if !hasMatch {
      forall g | g in files
        ensures !IsSiblingOf(g, thumb)
      {
        if MatchesStemPattern(g, Stem(thumb)) {
          var j :| 0 <= j < |listing| && listing[j] == g;
        }
      }
    }
  }

  /** One more thumbnail visited: the pass over the first `k`, then the step for the next one. */
  lemma PruneThumbnailsNext(folder: string, files: seq<string>, visit: seq<string>, k: nat, locked: set<string>)
    requires k < |visit|
    ensures var prev := PruneThumbnails(folder, files, visit[..k], locked);
      var thumb := visit[k];
      PruneThumbnails(folder, files, visit[..k + 1], locked) ==
        if prev.failed.Some? || HasSibling(prev.files, thumb) then prev
        else if Combine(folder, thumb) in locked then Step(prev.files, Some(Combine(folder, thumb)))
        else Step(Without(prev.files, thumb), None)
  {
    assert visit[..k + 1][..k] == visit[..k];
  }

  /** The thumbnail loop of one folder, returning at the first deletion that throws. */
  method PruneLoop(folder: string, files0: seq<string>, locked: set<string>) returns (r: Step)
    ensures r == PruneThumbnails(folder, files0, Filter(files0, IsThumbnail), locked)
  {
    var files := files0;
    var thumbs := Filter(files0, IsThumbnail);
    var i := 0;
    while i < |thumbs|
      invariant 0 <= i <= |thumbs|
      invariant PruneThumbnails(folder, files0, thumbs[..i], locked) == Step(files, None)
    {
      var thumb := thumbs[i];
      PruneThumbnailsNext(folder, files0, thumbs, i, locked);
      ghost var next := PruneThumbnails(folder, files0, thumbs[..i + 1], locked);
      var hasMatch := FindSibling(files, thumb);
      if !hasMatch {
        var path := Combine(folder, thumb);
        if path in locked {
          assert next == Step(files, Some(path));
          PruneThumbnailsSticky(folder, files0, thumbs, i + 1, locked);
          return Step(files, Some(path));
        }
        files := Without(files, thumb);
      }
      assert next == Step(files, None);
      i := i + 1;
    }
    assert thumbs[..i] == thumbs;
    r := Step(files, None);
  }

  /** The clean-up of one folder, deletion by deletion, returning at the first deletion that throws. */
  method CleanFolderSteps(fs: FileSystem, folder: string, locked: set<string>) returns (fs': FileSystem, failed: Option<string>)
    ensures Cleaned(fs', failed) == CleanFolder(fs, folder, locked)
  {
    if folder !in fs {
      return fs, Some(folder);
    }
    var d := fs[folder];
    var pruned := PruneLoop(folder, d.files, locked);
    if pruned.failed.Some? {
      return fs[folder := Dir(pruned.files, d.subdirs)], pruned.failed;
    }
    var files := pruned.files;
    var thumbName := Combine(folder, ThumbsDb);
    if exists n :: n in files && IsThumbsDb(n) {
      if thumbName in locked {
        return fs[folder := Dir(files, d.subdirs)], Some(thumbName);
      }
      files := Filter(files, IsNotThumbsDb);
    }
    fs' := fs[folder := Dir(files, d.subdirs)];
    if HasEntries(fs', folder) {
      failed := None;
    } else if folder in locked {
      failed := Some(folder);
    } else {
      fs' := fs' - {folder};
      failed := None;
    }
  }

  /** The clean-up of a drive's folders in order, leaving the loop at the first failure. */
  method CleanDrive(fs: FileSystem, folders: seq<string>, locked: set<string>) returns (fs': FileSystem, failed: Option<string>)
    ensures Cleaned(fs', failed) == CleanFolders(fs, folders, locked)
  {
    fs', failed := fs, None;
    var i := 0;
    while i < |folders|
      invariant 0 <= i <= |folders|
      invariant failed == None
      invariant CleanFolders(fs, folders[..i], locked) == Cleaned(fs', None)
    {
      assert folders[..i + 1][..i] == folders[..i];
      fs', failed := CleanFolderSteps(fs', folders[i], locked);
      if failed.Some? {
        CleanFoldersSticky(fs, folders, i + 1, locked);
        return;
      }
      i := i + 1;
    }
    assert folders[..i] == folders;
  }
}
