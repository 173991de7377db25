/**
 * Discovery of camera folders and of the move patterns they contribute.
 * A folder directly under `DCIM` is a camera folder when its name has eight
 * UTF-16 code units and its first three parse as an integer from 100 to 999 (the
 * storage-folder rule of the Design rule for Camera File System, JEITA CP-3461).
 * Each camera folder contributes one `folder\*ext` pattern per media extension,
 * in the fixed extension order, for every extension that has a matching file.
 */
module Dcf {
  import opened Common
  import opened Text
  import opened Paths
  import opened Int32Parse
  import opened FileStore

  /** The media extensions, in the order in which they are looked for. */
  const MediaExtensions: seq<string> :=
    [".jpg", ".mp4", ".avi", ".mpg", ".mov", ".wav", ".mp3", ".jpeg", ".mpeg"]

  /**
   * The name is eight UTF-16 code units long and its first three characters parse
   * as 100 to 999. When one of those three lies outside the Basic Multilingual
   * Plane, `Substring(0, 3)` cuts it in half; that substring and `name[..3]` then
   * both hold a character the parser refuses, so both fail.
   */
  predicate IsCameraFolderName(name: string) {
    Utf16Length(name) == 8 && var n := TryParse(name[..3]); n.Some? && 100 <= n.value <= 999
  }

  /**
   * The parse-and-range test is the same as "three decimal digits, the first not `0`":
   * white space or a sign leaves at most two digits, so a value of at most 99.
   * The last five characters are never looked at.
   */
  lemma CameraFolderNameRule(name: string)
    ensures IsCameraFolderName(name) <==>
      Utf16Length(name) == 8 && '1' <= name[0] <= '9' && IsDigit(name[1]) && IsDigit(name[2])
  {
    if Utf16Length(name) == 8 {
      assert |name| >= 4;
      var s := name[..3];
      var t := DropWhite(s);
      var signed := |t| > 0 && (t[0] == '-' || t[0] == '+');
      var u := if signed then t[1..] else t;
      var n := DigitRun(u);
      DropWhiteSuffix(s);
      DigitRunDigits(u);
      if IsCameraFolderName(name) {
        assert n > 0 && AllDigits(u[..n]);
        var magnitude := DigitsValue(u[..n]);
        assert !(|t| > 0 && t[0] == '-');
        assert magnitude >= 100;
        assert n >= 3;
        assert |u| == 3 && |t| == 3 && !signed && u == s;
        assert u[..n] == s;
        ThreeDigitsValue(s);
      }
      if '1' <= name[0] <= '9' && IsDigit(name[1]) && IsDigit(name[2]) {
        assert AllDigits(s);
        ThreeDigitsValue(s);
        TryParseDigits(s);
      }
    }
  }

  lemma ThreeDigitsValue(s: string)
    requires |s| == 3 && AllDigits(s)
    ensures DigitsValue(s) == 100 * DigitValue(s[0]) + 10 * DigitValue(s[1]) + DigitValue(s[2])
  {
    assert s[..2][..1] == s[..1] && s[..1][..0] == [];
    assert DigitsValue(s[..1]) == DigitValue(s[0]);
    assert DigitsValue(s[..2]) == 10 * DigitValue(s[0]) + DigitValue(s[1]);
  }

  /** The boundary cases: the rule reads exactly the first three characters. */
  lemma CameraFolderNameExamples()
    ensures IsCameraFolderName("100ABCDE") && IsCameraFolderName("1000ABCD")
    ensures !IsCameraFolderName("099ABCDE") && !IsCameraFolderName(" 99ABCDE")
  {
    var a, b, c, d := "100ABCDE", "1000ABCD", "099ABCDE", " 99ABCDE";
    assert a[0] == '1' && a[1] == '0' && a[2] == '0';
    assert b[0] == '1' && b[1] == '0' && b[2] == '0';
    assert c[0] == '0' && d[0] == ' ';
    Utf16LengthNarrow(a);
    Utf16LengthNarrow(b);
    Utf16LengthNarrow(c);
    Utf16LengthNarrow(d);
    CameraFolderNameRule(a);
    CameraFolderNameRule(b);
    CameraFolderNameRule(c);
    CameraFolderNameRule(d);
  }

  /**
   * Length is counted in UTF-16 code units: a character outside the Basic
   * Multilingual Plane counts twice.
   */
  lemma CameraFolderNameWideExamples()
    ensures IsCameraFolderName("100ABC\U{1F600}")
    ensures !IsCameraFolderName("100ABCD\U{1F600}")
  {
    var a, b := "100ABC\U{1F600}", "100ABCD\U{1F600}";
    assert a[..6] == "100ABC" && b[..7] == "100ABCD";
    Utf16LengthNarrow("100ABC");
    Utf16LengthNarrow("100ABCD");
    assert Utf16Length(a) == 8;
    assert Utf16Length(b) == 9;
    assert a[0] == '1' && a[1] == '0' && a[2] == '0';
    CameraFolderNameRule(a);
    CameraFolderNameRule(b);
  }

  /** `EnumerateFiles("*" + ext).Any()`: some file of the listing matches `*ext`. */
  predicate HasMatch(files: seq<string>, ext: string) {
    exists i :: 0 <= i < |files| && MatchesExtensionPattern(files[i], ext)
  }

  /** The move pattern `folder\*ext`. */
  function Pattern(folder: string, ext: string): string {
    Combine(folder, "*" + ext)
  }

  /** The patterns folder `folder` contributes for the extensions `exts`, in their order. */
  function FolderPatterns(folder: string, files: seq<string>, exts: seq<string>): (r: seq<string>)
    ensures |r| <= |exts|
  {
    if exts == [] then []
    else
      var ext := exts[|exts| - 1];
      FolderPatterns(folder, files, exts[..|exts| - 1]) + (if HasMatch(files, ext) then [Pattern(folder, ext)] else [])
  }

  /** Full paths of the camera folders among the subfolder names `names` of `dcim`, in listing order. */
  function CameraFolders(dcim: string, names: seq<string>): (r: seq<string>)
    ensures |r| <= |names|
  {
    if names == [] then []
    else
      var name := names[|names| - 1];
      CameraFolders(dcim, names[..|names| - 1]) + (if IsCameraFolderName(name) then [Combine(dcim, name)] else [])
  }

  /** The move job of a drive: the patterns of each folder in turn, in folder order. */
  function SourcePatterns(fs: FileSystem, folders: seq<string>): seq<string> {
    if folders == [] then []
    else
      var folder := folders[|folders| - 1];
      SourcePatterns(fs, folders[..|folders| - 1]) + FolderPatterns(folder, Files(fs, folder), MediaExtensions)
  }

  /**
   * The discovery loop of one drive: walks the subfolders of `dcim`, keeps each
   * camera folder, and appends its patterns extension by extension.
   */
  method CollectSources(fs: FileSystem, dcim: string) returns (sourceFolders: seq<string>, sourcePaths: seq<string>)
    ensures sourceFolders == CameraFolders(dcim, Subdirectories(fs, dcim))
    ensures sourcePaths == SourcePatterns(fs, sourceFolders)
  {
    var names := Subdirectories(fs, dcim);
    sourceFolders, sourcePaths := [], [];
    for i := 0 to |names|
      invariant sourceFolders == CameraFolders(dcim, names[..i])
      invariant sourcePaths == SourcePatterns(fs, sourceFolders)
    {
      var name := names[i];
      CameraFoldersNext(dcim, names, i);
      if IsCameraFolderName(name) {
        var folder := Combine(dcim, name);
        var before := sourceFolders;
        sourceFolders := sourceFolders + [folder];
        assert sourceFolders[..|sourceFolders| - 1] == before;
        sourcePaths := AppendFolderPatterns(sourcePaths, folder, Files(fs, folder));
      }
    }
    assert names[..|names|] == names;
  }

  /** One more subfolder name: the camera folders of the first `k` names, then the next one if it qualifies. */
  lemma CameraFoldersNext(dcim: string, names: seq<string>, k: nat)
    requires k < |names|
    ensures CameraFolders(dcim, names[..k + 1]) ==
      CameraFolders(dcim, names[..k]) + (if IsCameraFolderName(names[k]) then [Combine(dcim, names[k])] else [])
  {
    assert names[..k + 1][..k] == names[..k];
  }

  /** The inner loop: appends the patterns of one folder, extension by extension. */
  method AppendFolderPatterns(paths: seq<string>, folder: string, files: seq<string>) returns (r: seq<string>)
    ensures r == paths + FolderPatterns(folder, files, MediaExtensions)
  {
    r := paths;
    for j := 0 to |MediaExtensions|
      invariant r == paths + FolderPatterns(folder, files, MediaExtensions[..j])
    {
      var ext := MediaExtensions[j];
      assert MediaExtensions[..j + 1] == MediaExtensions[..j] + [ext];
      if HasMatch(files, ext) {
        r := r + [Pattern(folder, ext)];
      }
    }
    assert MediaExtensions[..|MediaExtensions|] == MediaExtensions;
  }

  lemma {:induction false} CameraFoldersMembers(dcim: string, names: seq<string>, f: string)
    ensures f in CameraFolders(dcim, names) <==>
      exists n :: n in names && IsCameraFolderName(n) && f == Combine(dcim, n)
  {
    if names != [] {
      var init := names[..|names| - 1];
      CameraFoldersMembers(dcim, init, f);
      assert names == init + [names[|names| - 1]];
    }
  }

  lemma {:induction false} FolderPatternsMembers(folder: string, files: seq<string>, exts: seq<string>, p: string)
    ensures |FolderPatterns(folder, files, exts)| <= |exts|
    ensures p in FolderPatterns(folder, files, exts) <==>
      exists e :: e in exts && HasMatch(files, e) && p == Pattern(folder, e)
  {
    if exts != [] {
      var init := exts[..|exts| - 1];
      FolderPatternsMembers(folder, files, init, p);
      assert exts == init + [exts[|exts| - 1]];
    }
  }

  /** The test "some file of `files` matches `*ext`". */
  function MatchIn(files: seq<string>): string -> bool {
    e => HasMatch(files, e)
  }

  /**
   * The folder's patterns are, one for one and in order, the extensions that have
   * a matching file, each combined with the folder.
   */
  lemma {:induction false} FolderPatternsInOrder(folder: string, files: seq<string>, exts: seq<string>)
    ensures var m := Filter(exts, MatchIn(files));
      && |FolderPatterns(folder, files, exts)| == |m|
      && forall i :: 0 <= i < |m| ==> FolderPatterns(folder, files, exts)[i] == Pattern(folder, m[i])
  {
    if exts != [] {
      FolderPatternsInOrder(folder, files, exts[..|exts| - 1]);
    }
  }

  /** At most one pattern per folder and media extension. */
  lemma {:induction false} SourcePatternsBound(fs: FileSystem, folders: seq<string>)
    ensures |SourcePatterns(fs, folders)| <= |MediaExtensions| * |folders|
  {
    if folders != [] {
      var folder := folders[|folders| - 1];
      SourcePatternsBound(fs, folders[..|folders| - 1]);
      FolderPatternsMembers(folder, Files(fs, folder), MediaExtensions, "");
    }
  }

  /** A pattern is in the job exactly when its folder is listed and holds a file of its extension. */
  lemma {:induction false} SourcePatternsMembers(fs: FileSystem, folders: seq<string>, p: string)
    ensures p in SourcePatterns(fs, folders) <==>
      exists f, e :: f in folders && e in MediaExtensions && HasMatch(Files(fs, f), e) && p == Pattern(f, e)
  {
    if folders != [] {
      var init := folders[..|folders| - 1];
      var folder := folders[|folders| - 1];
      var mine := FolderPatterns(folder, Files(fs, folder), MediaExtensions);
      assert SourcePatterns(fs, folders) == SourcePatterns(fs, init) + mine;
      assert folders == init + [folder];
      SourcePatternsMembers(fs, init, p);
      FolderPatternsMembers(folder, Files(fs, folder), MediaExtensions, p);
      if p in mine {
        var e :| e in MediaExtensions && HasMatch(Files(fs, folder), e) && p == Pattern(folder, e);
        assert folder in folders;
      }
      if exists f, e :: f in folders && e in MediaExtensions && HasMatch(Files(fs, f), e) && p == Pattern(f, e) {
        var f, e :| f in folders && e in MediaExtensions && HasMatch(Files(fs, f), e) && p == Pattern(f, e);
        if f != folder {
          assert f in init;
        }
      }
    }
  }
}
