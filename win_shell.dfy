/**
 * The wrapper around the shell's `SHFileOperationW`: it fills an operation
 * record (the source list as one NUL-delimited string ending in an extra NUL,
 * the destination with a NUL appended, a fixed flag word), hands it to the
 * shell, and turns a nonzero result into an error whose message carries the
 * result as eight lower-case hexadecimal digits.
 * The shell itself is a parameter: a function from the record to its result.
 */
module WinShell {
  import opened Common
  import opened Text

  newtype int32 = x: int | -0x8000_0000 <= x < 0x8000_0000
  newtype uint32 = x: int | 0 <= x < 0x1_0000_0000

  // The operation codes (`FileFuncFlags`).
  const FO_MOVE: uint32 := 0x1
  const FO_COPY: uint32 := 0x2
  const FO_DELETE: uint32 := 0x3
  const FO_RENAME: uint32 := 0x4

  // The option bits (`FILEOP_FLAGS`), a 16-bit word.
  const FOF_MULTIDESTFILES: bv16 := 0x1
  const FOF_CONFIRMMOUSE: bv16 := 0x2
  const FOF_SILENT: bv16 := 0x4
  const FOF_RENAMEONCOLLISION: bv16 := 0x8
  const FOF_NOCONFIRMATION: bv16 := 0x10
  const FOF_WANTMAPPINGHANDLE: bv16 := 0x20
  const FOF_ALLOWUNDO: bv16 := 0x40
  const FOF_FILESONLY: bv16 := 0x80
  const FOF_SIMPLEPROGRESS: bv16 := 0x100
  const FOF_NOCONFIRMMKDIR: bv16 := 0x200
  const FOF_NOERRORUI: bv16 := 0x400
  const FOF_NOCOPYSECURITYATTRIBS: bv16 := 0x800
  const FOF_NORECURSION: bv16 := 0x1000
  const FOF_NO_CONNECTED_ELEMENTS: bv16 := 0x2000
  const FOF_WANTNUKEWARNING: bv16 := 0x4000
  const FOF_NORECURSEREPARSE: bv16 := 0x8000

  /**
   * The flag word of every operation: only files, no confirmation for new folders,
   * no security attributes, no recursion, rename on collision. The shell may still
   * ask the user (NOCONFIRMATION is clear), shows progress and errors, and the
   * operation cannot be undone.
   */
  function OperationFlags(): (f: bv16)
    ensures f == 0x1A88
    ensures f & (FOF_NOCONFIRMATION | FOF_SILENT | FOF_NOERRORUI | FOF_ALLOWUNDO) == 0
    ensures f & FOF_RENAMEONCOLLISION != 0 && f & FOF_FILESONLY != 0 && f & FOF_NORECURSION != 0
  {
    FOF_FILESONLY | FOF_NOCONFIRMMKDIR | FOF_NOCOPYSECURITYATTRIBS | FOF_NORECURSION | FOF_RENAMEONCOLLISION
  }

  /** The operation record (`SHFILEOPSTRUCT`); window handles and native addresses are plain integers. */
  datatype ShFileOpStruct = ShFileOpStruct(
    hwnd: int,
    wFunc: uint32,
    pFrom: string,
    pTo: string,
    fFlags: bv16,
    fAnyOperationsAborted: bool,
    hNameMappings: int,
    lpszProgressTitle: string)

  /** Each path followed by one NUL, in order. */
  function Joined(paths: seq<string>): string {
    if paths == [] then "" else paths[0] + "\0" + Joined(paths[1..])
  }

  /** `pFrom`: the joined paths and one more NUL, so the list ends in a double NUL. */
  function EncodePaths(paths: seq<string>): string {
    Joined(paths) + "\0"
  }

  /** The sum over `paths` of each length plus one. */
  function EncodedLength(paths: seq<string>): nat {
    if paths == [] then 0 else |paths[0]| + 1 + EncodedLength(paths[1..])
  }

  lemma {:induction false} JoinedSnoc(paths: seq<string>, p: string)
    ensures Joined(paths + [p]) == Joined(paths) + p + "\0"
  {
    if paths != [] {
      assert (paths + [p])[1..] == paths[1..] + [p];
      JoinedSnoc(paths[1..], p);
    } else {
      assert [p][1..] == [];
    }
  }

  /** The encoding is one character per path character, one NUL per path and one final NUL. */
  lemma {:induction false} EncodeLength(paths: seq<string>)
    ensures |EncodePaths(paths)| == EncodedLength(paths) + 1
    ensures paths == [] ==> EncodePaths(paths) == "\0"
  {
    if paths != [] {
      EncodeLength(paths[1..]);
    }
  }

  /** Index of the first NUL of `s`, or `|s|` when there is none. */
  function FirstNul(s: string): (i: nat)
    ensures i <= |s|
    ensures i < |s| ==> s[i] == '\0'
    ensures forall j :: 0 <= j < i ==> s[j] != '\0'
  {
    if |s| == 0 || s[0] == '\0' then 0 else 1 + FirstNul(s[1..])
  }

  /**
   * How the shell reads `pFrom`: the segments between NULs, up to the first empty
   * segment (a final segment without a NUL is taken as it is).
   */
  function DecodePaths(s: string): seq<string>
    decreases |s|
  {
    var i := FirstNul(s);
    if i == 0 then []
    else if i == |s| then [s]
    else [s[..i]] + DecodePaths(s[i + 1..])
  }

  lemma DecodeCons(p: string, rest: string)
    requires |p| > 0 && NulFree(p)
    ensures DecodePaths(p + "\0" + rest) == [p] + DecodePaths(rest)
  {
    var s := p + "\0" + rest;
    assert s[|p|] == '\0';
    assert FirstNul(s) == |p|;
    assert s[..|p|] == p && s[|p| + 1..] == rest;
  }

  /** Reading back `pFrom` gives the source list exactly when no path is empty or holds a NUL. */
  lemma DecodeEncode(paths: seq<string>)
    ensures DecodePaths(EncodePaths(paths)) == paths <==> forall p :: p in paths ==> |p| > 0 && NulFree(p)
  {
    if forall p :: p in paths ==> |p| > 0 && NulFree(p) {
      assert FirstNul("\0") == 0;
      DecodeJoinedPrefix(paths, "\0");
    } else {
      DecodeJoinedBad(paths, "\0");
    }
  }

  /** A list with an empty path or a path holding a NUL never reads back as itself. */
  lemma {:induction false} DecodeJoinedBad(paths: seq<string>, tail: string)
    requires exists p :: p in paths && !(|p| > 0 && NulFree(p))
    ensures DecodePaths(Joined(paths) + tail) != paths
  {
    var p0, rest := paths[0], Joined(paths[1..]);
    assert Joined(paths) == p0 + "\0" + rest;
    NulRegroup(p0, rest, tail);
    var s := p0 + "\0" + (rest + tail);
    if |p0| > 0 && NulFree(p0) {
      DecodeCons(p0, rest + tail);
      var p :| p in paths && !(|p| > 0 && NulFree(p));
      assert paths == [p0] + paths[1..];
      assert p in paths[1..];
      DecodeJoinedBad(paths[1..], tail);
    } else {
      var j := FirstNul(s);
      assert s[|p0|] == '\0';
      if j > 0 {
        var k :| 0 <= k < |p0| && p0[k] == '\0';
        assert s[k] == p0[k];
        assert DecodePaths(s)[0] == s[..j];
      }
    }
  }

  /** An empty path in the list cuts off the shell's reading of it there. */
  lemma EmptyPathEndsList(paths: seq<string>, rest: seq<string>)
    requires forall p :: p in paths ==> |p| > 0 && NulFree(p)
    ensures DecodePaths(EncodePaths(paths + [""] + rest)) == paths
  {
    var all := paths + [""] + rest;
    assert EncodePaths(all) == Joined(paths) + EncodePaths([""] + rest) by {
      JoinedAppend(paths, [""] + rest);
      assert all == paths + ([""] + rest);
    }
    assert FirstNul(EncodePaths([""] + rest)) == 0;
    DecodeJoinedPrefix(paths, EncodePaths([""] + rest));
  }

  lemma {:induction false} JoinedAppend(a: seq<string>, b: seq<string>)
    ensures Joined(a + b) == Joined(a) + Joined(b)
  {
    if a != [] {
      assert (a + b)[1..] == a[1..] + b;
      JoinedAppend(a[1..], b);
    } else {
      assert a + b == b;
    }
  }

  lemma {:induction false} DecodeJoinedPrefix(paths: seq<string>, tail: string)
    requires forall p :: p in paths ==> |p| > 0 && NulFree(p)
    requires DecodePaths(tail) == []
    ensures DecodePaths(Joined(paths) + tail) == paths
  {
    if paths != [] {
      assert forall p :: p in paths[1..] ==> p in paths;
      DecodeJoinedPrefix(paths[1..], tail);
      var rest := Joined(paths[1..]);
      assert Joined(paths) == paths[0] + "\0" + rest;
      NulRegroup(paths[0], rest, tail);
      DecodeCons(paths[0], rest + tail);
    }
  }

  /** Regrouping a concatenation, stated apart so the solver is not asked to find it in a context full of `Decode` terms. */
  lemma NulRegroup(p: string, rest: string, tail: string)
    ensures p + "\0" + rest + tail == p + "\0" + (rest + tail)
  {
  }

  /** The loop that appends each path and a NUL to a string builder, then the final NUL. */
  method BuildFrom(paths: seq<string>) returns (pFrom: string)
    ensures pFrom == EncodePaths(paths)
  {
    var sb := "";
    var i := 0;
    while i < |paths|
      invariant 0 <= i <= |paths|
      invariant sb == Joined(paths[..i])
    {
      assert paths[..i + 1] == paths[..i] + [paths[i]];
      JoinedSnoc(paths[..i], paths[i]);
      sb := sb + paths[i];
      sb := sb + "\0";
      i := i + 1;
    }
    assert paths[..i] == paths;
    pFrom := sb + "\0";
  }

  // Hexadecimal formatting of the result (`{0:x8}`).

  function HexDigit(d: nat): char
    requires d < 16
  {
    if d < 10 then ('0' as int + d) as char else ('a' as int + d - 10) as char
  }

  predicate IsLowerHex(c: char) {
    '0' <= c <= '9' || 'a' <= c <= 'f'
  }

  function HexDigitValue(c: char): (d: nat)
    requires IsLowerHex(c)
    ensures d < 16
  {
    if c <= '9' then c as int - '0' as int else c as int - 'a' as int + 10
  }

  function Pow16(k: nat): (r: nat)
    ensures r >= 1
  {
    if k == 0 then 1 else 16 * Pow16(k - 1)
  }

  /** The low `k` hexadecimal digits of `n`, most significant first, padded with zeros. */
  function Hex(n: nat, k: nat): (r: string)
    ensures |r| == k
  {
    if k == 0 then "" else Hex(n / 16, k - 1) + [HexDigit(n % 16)]
  }

  predicate AllLowerHex(s: string) {
    forall i :: 0 <= i < |s| ==> IsLowerHex(s[i])
  }

  /** The value of a string of lower-case hexadecimal digits. */
  function HexValue(s: string): nat
    requires AllLowerHex(s)
  {
    if s == [] then 0 else 16 * HexValue(s[..|s| - 1]) + HexDigitValue(s[|s| - 1])
  }

  /** The remainder is the only `c` in `[0, m)` with `n == m * a + c`. */
  lemma ModUnique(n: int, m: int, a: int, c: int)
    requires m > 0 && n == m * a + c && 0 <= c < m
    ensures n % m == c
  {
    var d := a - n / m;
    assert m * d == m * a - m * (n / m);
    assert m * d == n % m - c;
  }

  lemma ModOfSum(n: nat, q: nat, r: nat, p: nat)
    requires p >= 1 && n == 16 * q + r && r < 16
    ensures (q % p) * 16 + r == n % (16 * p)
  {
    var a, b := q / p, q % p;
    assert q == p * a + b;
    assert 16 * q == (16 * p) * a + 16 * b;
    ModUnique(n, 16 * p, a, 16 * b + r);
  }

  /** Reading back the `k` digits gives `n` modulo 16 to the `k`. */
  lemma {:induction false} HexRoundTrip(n: nat, k: nat)
    ensures AllLowerHex(Hex(n, k))
    ensures HexValue(Hex(n, k)) == n % Pow16(k)
  {
    if k > 0 {
      HexRoundTrip(n / 16, k - 1);
      var h := Hex(n, k);
      assert h[..k - 1] == Hex(n / 16, k - 1);
      ModOfSum(n, n / 16, n % 16, Pow16(k - 1));
    }
  }

  /** `{0:x8}` of a 32-bit signed value: its two's complement bits as eight digits. */
  function Hex8(v: int32): string {
    Hex((v as int) % 0x1_0000_0000, 8)
  }

  /** Reading eight digits back as a two's complement 32-bit value. */
  function FromHex8(s: string): int
    requires AllLowerHex(s)
  {
    var u := HexValue(s);
    if u >= 0x8000_0000 then u - 0x1_0000_0000 else u
  }

  lemma Hex8RoundTrip(v: int32)
    ensures |Hex8(v)| == 8 && AllLowerHex(Hex8(v))
    ensures FromHex8(Hex8(v)) == v as int
  {
    var u := (v as int) % 0x1_0000_0000;
    HexRoundTrip(u, 8);
    Pow16Eight();
    if v >= 0 {
      ModUnique(v as int, 0x1_0000_0000, 0, v as int);
    } else {
      ModUnique(v as int, 0x1_0000_0000, -1, v as int + 0x1_0000_0000);
    }
  }

  lemma Pow16Eight()
    ensures Pow16(8) == 0x1_0000_0000
  {
    assert Pow16(2) == 0x100;
    assert Pow16(4) == 0x1_0000;
    assert Pow16(6) == 0x100_0000;
  }

  const FailurePrefix: string := "SHFIleOperation failed with code 0x"

  /** What the call ends in: normally (`None`) or with an error carrying this message. */
  function Outcome(result: int32): Option<string> {
    if result == 0 then None else Some(FailurePrefix + Hex8(result))
  }

  /** A zero result returns normally; any other result fails with a message that gives the result back. */
  lemma OutcomeMessage(result: int32)
    ensures Outcome(result) == None <==> result == 0
    ensures Outcome(result).Some? ==>
      var m := Outcome(result).value;
      && |m| == |FailurePrefix| + 8
      && m[..|FailurePrefix|] == FailurePrefix
      && AllLowerHex(m[|FailurePrefix|..])
      && FromHex8(m[|FailurePrefix|..]) == result as int
  {
    Hex8RoundTrip(result);
    if result != 0 {
      var m := Outcome(result).value;
      assert m[|FailurePrefix|..] == Hex8(result);
    }
  }

  /** The record the call hands to the shell for operation `op`. */
  function Record(op: uint32, hwnd: int, title: string, paths: seq<string>, dest: string): ShFileOpStruct {
    ShFileOpStruct(hwnd, op, EncodePaths(paths), dest + "\0", OperationFlags(), false, 0, title)
  }

  /**
   * What the shell reads from the record: the operation, the source list exactly
   * (when no path is empty or holds a NUL) and the destination as the one entry of
   * `pTo` (when it is not empty and holds no NUL); no name mappings are asked for.
   */
  lemma RecordReadBack(op: uint32, hwnd: int, title: string, paths: seq<string>, dest: string)
    requires forall p :: p in paths ==> |p| > 0 && NulFree(p)
    requires |dest| > 0 && NulFree(dest)
    ensures var fos := Record(op, hwnd, title, paths, dest);
      && fos.wFunc == op
      && DecodePaths(fos.pFrom) == paths
      && DecodePaths(fos.pTo) == [dest]
      && !fos.fAnyOperationsAborted && fos.hNameMappings == 0
  {
    DecodeEncode(paths);
    assert dest + "\0" == dest + "\0" + "";
    DecodeCons(dest, "");
  }

  /** Fills the record field by field, calls the shell, and maps its result. */
  method FileOperation(op: uint32, hwnd: int, title: string, paths: seq<string>, dest: string,
                       shell: ShFileOpStruct -> int32)
    returns (fos: ShFileOpStruct, outcome: Option<string>)
    ensures fos == Record(op, hwnd, title, paths, dest)
    ensures outcome == Outcome(shell(fos))
  {
    var pFrom := BuildFrom(paths);
    var pTo := dest + "\0";
    fos := ShFileOpStruct(hwnd, op, pFrom, pTo, OperationFlags(), false, 0, title);
    var result := shell(fos);
    if result != 0 {
      outcome := Some(FailurePrefix + Hex8(result));
    } else {
      outcome := None;
    }
  }

  /** `MoveFiles`: the operation with the move code, every other argument passed on. */
  method MoveFiles(hwnd: int, title: string, paths: seq<string>, dest: string, shell: ShFileOpStruct -> int32)
    returns (fos: ShFileOpStruct, outcome: Option<string>)
    ensures fos == Record(FO_MOVE, hwnd, title, paths, dest)
    ensures outcome == Outcome(shell(fos))
  {
    fos, outcome := FileOperation(FO_MOVE, hwnd, title, paths, dest, shell);
  }

  /** `CopyFiles`: the operation with the copy code, every other argument passed on. */
  method CopyFiles(hwnd: int, title: string, paths: seq<string>, dest: string, shell: ShFileOpStruct -> int32)
    returns (fos: ShFileOpStruct, outcome: Option<string>)
    ensures fos == Record(FO_COPY, hwnd, title, paths, dest)
    ensures outcome == Outcome(shell(fos))
  {
    fos, outcome := FileOperation(FO_COPY, hwnd, title, paths, dest, shell);
  }
}
