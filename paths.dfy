/**
 * The path helpers of the Windows runtime that the collector relies on:
 * `Path.Combine`, `Path.GetExtension`, `Path.GetFileNameWithoutExtension`,
 * and the two wildcard shapes it passes to directory listings.
 * File names here are single path components (they hold no separator).
 */
module Paths {
  import opened Text

  predicate IsSeparator(c: char) {
    c == '\\' || c == '/' || c == ':'
  }

  predicate IsRooted(p: string) {
    (|p| >= 1 && (p[0] == '\\' || p[0] == '/')) || (|p| >= 2 && p[1] == ':')
  }

  /**
   * `Path.Combine(a, b)`: an empty part gives the other one, a rooted `b` replaces
   * `a`, and otherwise the parts are joined with one `\` unless `a` already ends
   * with a separator.
   */
  function Combine(a: string, b: string): (r: string)
    ensures |b| == 0 ==> r == a
    ensures |a| == 0 || IsRooted(b) ==> r == b
    ensures |b| > 0 && |a| > 0 && !IsRooted(b) ==>
      |r| == |a| + |b| + (if IsSeparator(a[|a| - 1]) then 0 else 1)
      && r[..|a|] == a && r[|r| - |b|..] == b
      && (!IsSeparator(a[|a| - 1]) ==> r[|a|] == '\\')
  {
    if |b| == 0 then a
    else if |a| == 0 then b
    else if IsRooted(b) then b
    else if IsSeparator(a[|a| - 1]) then a + b
    else a + "\\" + b
  }

  /** Joining adds no character but a `\`, and keeps a non-empty second part non-empty. */
  lemma CombineChars(a: string, b: string)
    ensures |b| > 0 ==> |Combine(a, b)| > 0
    ensures NulFree(a) && NulFree(b) ==> NulFree(Combine(a, b))
  {
    var r := Combine(a, b);
    if |b| > 0 && |a| > 0 && !IsRooted(b) && !IsSeparator(a[|a| - 1]) {
      assert r == a + "\\" + b;
      assert forall i :: |a| < i < |r| ==> r[i] == b[i - |a| - 1];
    }
  }

  /** Index of the last `.` in `s`, or -1 when there is none. */
  function LastDot(s: string): (r: int)
    ensures -1 <= r < |s|
    ensures r >= 0 ==> s[r] == '.'
    ensures forall j :: r < j < |s| ==> s[j] != '.'
  {
    if |s| == 0 then -1
    else if s[|s| - 1] == '.' then |s| - 1
    else LastDot(s[..|s| - 1])
  }

  /** `Path.GetExtension(name)`: from the last dot on, or empty when the dot is missing or final. */
  function Extension(name: string): string {
    var i := LastDot(name);
    if i < 0 || i == |name| - 1 then "" else name[i..]
  }

  /** `Path.GetFileNameWithoutExtension(name)`: everything before the last dot. */
  function Stem(name: string): string {
    var i := LastDot(name);
    if i < 0 then name else name[..i]
  }

  /** The listing pattern `*` + `ext` (with `ext` a literal such as `.jpg`), case-insensitive. */
  predicate MatchesExtensionPattern(name: string, ext: string) {
    EndsWithIgnoreCase(name, ext)
  }

  /**
   * The listing pattern `stem` + `.*`: under the DOS wildcard rules a trailing `.*`
   * also matches a name with no dot at all, so `IMG1.*` matches `IMG1` and `img1.x.y`.
   */
  predicate MatchesStemPattern(name: string, stem: string) {
    EqualsIgnoreCase(name, stem) || StartsWithIgnoreCase(name, stem + ".")
  }

  /**
   * Listing `*.thm` and testing `Extension == ".thm"` select the same names, so the
   * files the thumbnail pass deletes are exactly those whose extension is `.thm`.
   */
  lemma ExtensionPatternIsExtension(name: string)
    ensures MatchesExtensionPattern(name, ".thm") <==> EqualsIgnoreCase(Extension(name), ".thm")
  {
    var i := LastDot(name);
    var n := |name|;
    if MatchesExtensionPattern(name, ".thm") {
      var suffix := name[n - 4..];
      FoldAt(suffix, 0); FoldAt(suffix, 1); FoldAt(suffix, 2); FoldAt(suffix, 3);
      FoldAt(".thm", 0); FoldAt(".thm", 1); FoldAt(".thm", 2); FoldAt(".thm", 3);
      assert FoldCase(name[n - 4]) == '.';
      assert name[n - 4] == '.';
      assert FoldCase(name[n - 3]) == 't' && FoldCase(name[n - 2]) == 'h' && FoldCase(name[n - 1]) == 'm';
      assert i == n - 4;
    }
    if EqualsIgnoreCase(Extension(name), ".thm") {
      assert i >= 0 && i != n - 1 && |name[i..]| == 4;
      assert name[n - 4..] == name[i..];
    }
  }
}
