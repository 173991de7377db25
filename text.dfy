/**
 * Character and string helpers: ordinal case-insensitive comparison and the
 * composite formatting (`{0}`, `{1}`, ...) that the collector's status lines use.
 */
module Text {

  predicate IsDigit(c: char) {
    '0' <= c <= '9'
  }

  function DigitValue(c: char): (d: nat)
    requires IsDigit(c)
    ensures d < 10
  {
    c as int - '0' as int
  }

  /** The string holds no NUL character. */
  predicate NulFree(s: string) {
    '\0' !in s
  }

  /**
   * The length of `s` in UTF-16 code units, the unit of .NET's `string.Length`
   * and `Substring`: a character outside the Basic Multilingual Plane takes two.
   */
  function Utf16Length(s: string): (r: nat)
    ensures |s| <= r <= 2 * |s|
  {
    if s == [] then 0
    else Utf16Length(s[..|s| - 1]) + (if s[|s| - 1] as int >= 0x1_0000 then 2 else 1)
  }

  /** A string of characters inside the Basic Multilingual Plane has one code unit per character. */
  lemma {:induction false} Utf16LengthNarrow(s: string)
    requires forall c :: c in s ==> c as int < 0x1_0000
    ensures Utf16Length(s) == |s|
  {
    if s != [] {
      var init := s[..|s| - 1];
      forall c | c in init
        ensures c as int < 0x1_0000
      {
        var i :| 0 <= i < |init| && init[i] == c;
        assert s[i] == c;
        assert c in s;
      }
      Utf16LengthNarrow(init);
      assert s[|s| - 1] in s;
    }
  }

  /**
   * Case folding on the ASCII letters only (upper case maps to lower case). Other
   * letters are left as they are, although .NET's ordinal ignore-case comparison
   * and the Windows file system also fold them.
   */
  function FoldCase(c: char): char {
    if 'A' <= c <= 'Z' then (c as int + 32) as char else c
  }

  /** `s` with every character case-folded. */
  function Fold(s: string): (r: string)
    ensures |r| == |s|
  {
    if s == [] then [] else Fold(s[..|s| - 1]) + [FoldCase(s[|s| - 1])]
  }

  lemma {:induction false} FoldAt(s: string, i: nat)
    requires i < |s|
    ensures Fold(s)[i] == FoldCase(s[i])
  {
    if i < |s| - 1 {
      FoldAt(s[..|s| - 1], i);
    }
  }

  /** Two strings of the same length whose characters differ after folding at `i` are not equal ignoring case. */
  lemma FoldDiffers(a: string, b: string, i: nat)
    requires |a| == |b| && i < |a| && FoldCase(a[i]) != FoldCase(b[i])
    ensures Fold(a) != Fold(b)
  {
    FoldAt(a, i);
    FoldAt(b, i);
  }

  /** `string.Equals(a, b, StringComparison.OrdinalIgnoreCase)`, with case folded on ASCII letters only. */
  predicate EqualsIgnoreCase(a: string, b: string) {
    Fold(a) == Fold(b)
  }

  predicate StartsWithIgnoreCase(s: string, prefix: string) {
    |prefix| <= |s| && EqualsIgnoreCase(s[..|prefix|], prefix)
  }

  predicate EndsWithIgnoreCase(s: string, suffix: string) {
    |suffix| <= |s| && EqualsIgnoreCase(s[|s| - |suffix|..], suffix)
  }

  /**
   * `string.Format(fmt, args)` for the format items used here: `{n}` with a
   * single decimal digit `n` below `|args|` is replaced by `args[n]`; every
   * other character is copied.
   */
  function Format(fmt: string, args: seq<string>): string
    decreases |fmt|
  {
    if |fmt| == 0 then ""
    else if IsItem(fmt, args) then args[DigitValue(fmt[1])] + Format(fmt[3..], args)
    else [fmt[0]] + Format(fmt[1..], args)
  }

  predicate IsItem(fmt: string, args: seq<string>) {
    |fmt| >= 3 && fmt[0] == '{' && IsDigit(fmt[1]) && fmt[2] == '}' && DigitValue(fmt[1]) < |args|
  }

  /** Text without a `{` is copied unchanged in front of whatever follows it. */
  lemma {:induction false} FormatLiteralPrefix(lit: string, rest: string, args: seq<string>)
    requires '{' !in lit
    ensures Format(lit + rest, args) == lit + Format(rest, args)
    decreases |lit|
  {
    if |lit| > 0 {
      var s := lit + rest;
      assert s[0] == lit[0] && s[0] != '{';
      assert s[1..] == lit[1..] + rest;
      FormatLiteralPrefix(lit[1..], rest, args);
      assert lit == [lit[0]] + lit[1..];
    } else {
      assert lit + rest == rest;
    }
  }

  /** A format item `{n}` is replaced by the n-th argument. */
  lemma FormatItemPrefix(n: nat, rest: string, args: seq<string>)
    requires n < 10 && n < |args|
    ensures Format(['{', ('0' as int + n) as char, '}'] + rest, args) == args[n] + Format(rest, args)
  {
    var s := ['{', ('0' as int + n) as char, '}'] + rest;
    assert IsItem(s, args) && DigitValue(s[1]) == n;
    assert s[3..] == rest;
  }

  /** The item `{0}` followed by a literal: the first argument, then the literal. */
  lemma FormatItemThenLiteral(post: string, args: seq<string>)
    requires |args| >= 1
    requires '{' !in post
    ensures Format("{0}" + post, args) == args[0] + post
  {
    assert ['{', ('0' as int + 0) as char, '}'] == "{0}";
    FormatItemPrefix(0, post, args);
    assert post + "" == post;
    FormatLiteralPrefix(post, "", args);
  }

  /** A format with one item `{0}` between two literals puts the first argument between them. */
  lemma FormatSingle(pre: string, post: string, args: seq<string>)
    requires |args| >= 1
    requires '{' !in pre
    requires '{' !in post
    ensures Format(pre + "{0}" + post, args) == pre + args[0] + post
  {
    var rest := "{0}" + post;
    assert pre + "{0}" + post == pre + rest;
    FormatLiteralPrefix(pre, rest, args);
    FormatItemThenLiteral(post, args);
    assert Format(pre + rest, args) == pre + (args[0] + post);
    Associate(pre, args[0], post);
  }

  /** Regrouping a concatenation, stated apart so the solver is not asked to find it in a context full of `Format` terms. */
  lemma Associate(a: string, b: string, c: string)
    ensures a + (b + c) == a + b + c
  {
  }

  /** A format `pre{0}mid{0}post` puts the first argument in both places. */
  lemma FormatTwice(pre: string, mid: string, post: string, args: seq<string>)
    requires |args| >= 1
    requires '{' !in pre
    requires '{' !in mid
    requires '{' !in post
    ensures Format(pre + ("{0}" + (mid + "{0}" + post)), args) == pre + (args[0] + (mid + args[0] + post))
  {
    FormatLiteralPrefix(pre, "{0}" + (mid + "{0}" + post), args);
    FormatItemThenRest(mid + "{0}" + post, args);
    FormatSingle(mid, post, args);
  }

  /** The item `{0}` in front: the first argument, then the rest formatted. */
  lemma FormatItemThenRest(rest: string, args: seq<string>)
    requires |args| >= 1
    ensures Format("{0}" + rest, args) == args[0] + Format(rest, args)
  {
    assert ['{', ('0' as int + 0) as char, '}'] == "{0}";
    FormatItemPrefix(0, rest, args);
  }
}
