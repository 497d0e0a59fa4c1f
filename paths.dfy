/**
 * Rust's `Path::file_name`, `extension`, `file_stem` and `with_extension` on
 * '/'-separated paths, which is how the library derives the `.json`, `.c`,
 * `.h`, `.py` and `.mli` file names from the ones it is given. As
 * `Path::components` does, trailing separators and a trailing "." component
 * are not part of the last component.
 */
module Paths {
  import opened Wrappers
  import Strings

  /** No `c` in `s` after position `r`. */
  predicate NoneAfter(s: string, r: int, c: char) {
    forall j :: 0 <= j < |s| && r < j ==> s[j] != c
  }

  /** Index of the last `c` in `s`, or -1 when there is none. */
  function LastIndexOf(s: string, c: char): (r: int)
    ensures -1 <= r < |s|
    ensures r >= 0 ==> s[r] == c
    ensures NoneAfter(s, r, c)
    decreases |s|
  {
    if |s| == 0 then -1
    else if s[|s| - 1] == c then |s| - 1
    else LastIndexOf(s[..|s| - 1], c)
  }

  /**
   * The path without trailing '/' separators and trailing "." components,
   * which `Path::components` skips; a lone "/" or "." is kept.
   */
  function Trimmed(p: string): (t: string)
    ensures |t| <= |p| && t == p[..|t|]
    decreases |p|
  {
    if |p| > 1 && p[|p| - 1] == '/' then Trimmed(p[..|p| - 1])
    else if |p| > 2 && p[|p| - 2] == '/' && p[|p| - 1] == '.' then Trimmed(p[..|p| - 2])
    else p
  }

  /** Everything up to and including the last '/' of `s`. */
  function DirPart(s: string): string {
    s[..LastIndexOf(s, '/') + 1]
  }

  /** What follows the last '/' of `s`. */
  function LastPart(s: string): string {
    s[LastIndexOf(s, '/') + 1..]
  }

  /** The directory part in front of the last component. */
  function Dir(p: string): string {
    DirPart(Trimmed(p))
  }

  /** The last component. */
  function Name(p: string): string {
    LastPart(Trimmed(p))
  }

  /** `Path::file_name`: none for an empty last component, "." or "..". */
  function FileName(p: string): (r: Option<string>)
    ensures r.Some? ==> r.value == Name(p) && |r.value| > 0
  {
    var n := Name(p);
    if n == "" || n == "." || n == ".." then None else Some(n)
  }

  /**
   * `rsplit_file_at_dot` as used by `file_stem` and `extension`: ".." and a
   * name whose only dot is its first character have no extension.
   */
  function SplitAtDot(name: string): (r: (string, Option<string>))
    ensures r.1.None? ==> r.0 == name
    ensures r.1.Some? ==> |r.0| > 0 && name == r.0 + "." + r.1.value && '.' !in r.1.value
  {
    var d := LastIndexOf(name, '.');
    if name == ".." || d <= 0 then (name, None)
    else
      NoneInSuffix(name, d, '.');
      assert name == name[..d] + "." + name[d + 1..];
      (name[..d], Some(name[d + 1..]))
  }

  /** `Path::file_stem`. */
  function Stem(p: string): Option<string> {
    match FileName(p)
    case None => None
    case Some(n) => Some(SplitAtDot(n).0)
  }

  /** `Path::extension`. */
  function Extension(p: string): Option<string> {
    match FileName(p)
    case None => None
    case Some(n) => SplitAtDot(n).1
  }

  /**
   * `Path::with_extension`: cut the path right after the stem, dropping
   * whatever trails it, and append "." + `ext` unless `ext` is empty; a path
   * without a file name is kept.
   */
  function WithExtension(p: string, ext: string): (r: string)
    ensures FileName(p).None? ==> r == p
  {
    match Stem(p)
    case None => p
    case Some(stem) => Dir(p) + stem + (if ext == "" then "" else "." + ext)
  }

  lemma SplitAt(s: string, k: nat)
    requires k <= |s|
    ensures s == s[..k] + s[k..]
  {
  }

  lemma NoneInSuffix(s: string, r: int, c: char)
    requires -1 <= r < |s| && NoneAfter(s, r, c)
    ensures c !in s[r + 1..]
  {
    var n := s[r + 1..];
    assert forall j :: 0 <= j < |n| ==> n[j] == s[r + 1 + j];
  }

  /** A string is its directory part followed by what trails it, which holds no '/'. */
  lemma DirName(s: string)
    ensures s == DirPart(s) + LastPart(s)
    ensures '/' !in LastPart(s)
  {
    var i := LastIndexOf(s, '/');
    SplitAt(s, i + 1);
    NoneInSuffix(s, i, '/');
  }

  /** A path ending in neither '/' nor '.' has nothing to trim. */
  lemma TrimmedKeeps(s: string)
    requires |s| > 0 && s[|s| - 1] != '/' && s[|s| - 1] != '.'
    ensures Trimmed(s) == s
  {
  }

  /** A suffix without '/' leaves the last '/' where it was. */
  lemma {:induction false} LastSlashAfterAppend(d: string, n: string)
    requires '/' !in n
    ensures LastIndexOf(d + n, '/') == LastIndexOf(d, '/')
    decreases |n|
  {
    if |n| == 0 {
      assert d + n == d;
    } else {
      assert (d + n)[..|d + n| - 1] == d + n[..|n| - 1];
      assert (d + n)[|d + n| - 1] == n[|n| - 1];
      LastSlashAfterAppend(d, n[..|n| - 1]);
    }
  }

  /** A directory part (empty or ending in '/') followed by a component without '/'. */
  lemma JoinAfterDir(d: string, n: string)
    requires d == [] || d[|d| - 1] == '/'
    requires '/' !in n
    ensures DirPart(d + n) == d && LastPart(d + n) == n
  {
    assert LastIndexOf(d + n, '/') == |d| - 1 by {
      LastSlashAfterAppend(d, n);
      if d != [] {
        LastIndexAt(d, '/', |d| - 1);
      }
    }
    assert (d + n)[..|d|] == d;
    assert (d + n)[|d|..] == n;
  }

  /** A directory part is empty or ends in '/'. */
  lemma DirEndsInSlash(s: string)
    ensures DirPart(s) == [] || DirPart(s)[|DirPart(s)| - 1] == '/'
  {
    var i := LastIndexOf(s, '/');
    if i >= 0 {
      assert DirPart(s)[i] == s[i];
    }
  }

  /** An occurrence with none after it is the last one. */
  lemma LastIndexAt(s: string, c: char, k: nat)
    requires k < |s| && s[k] == c && c !in s[k + 1..]
    ensures LastIndexOf(s, c) == k
  {
    forall j | k < j < |s|
      ensures s[j] != c
    {
      assert s[j] == s[k + 1..][j - k - 1];
    }
    var r := LastIndexOf(s, c);
    assert NoneAfter(s, r, c);
  }

  lemma LastDotAfter(stem: string, ext: string)
    requires '.' !in ext
    ensures LastIndexOf(stem + "." + ext, '.') == |stem|
  {
    var name := stem + "." + ext;
    assert name[|stem| + 1..] == ext;
    LastIndexAt(name, '.', |stem|);
  }

  /** A name made of a non-empty stem, a dot and an extension without dots splits back into them. */
  lemma SplitAtDotJoin(stem: string, ext: string)
    requires |stem| > 0 && |ext| > 0 && '.' !in ext
    ensures SplitAtDot(stem + "." + ext) == (stem, Some(ext))
  {
    var name := stem + "." + ext;
    LastDotAfter(stem, ext);
    assert name[..|stem|] == stem;
    assert name[|stem| + 1..] == ext;
  }

  /** A directory part followed by the name `stem.ext` has that directory, stem and extension. */
  lemma JoinedName(d: string, stem: string, ext: string)
    requires d == [] || d[|d| - 1] == '/'
    requires |stem| > 0 && '/' !in stem
    requires |ext| > 0 && '.' !in ext && '/' !in ext
    ensures Dir(d + (stem + "." + ext)) == d
    ensures Extension(d + (stem + "." + ext)) == Some(ext)
    ensures Stem(d + (stem + "." + ext)) == Some(stem)
  {
    var n := stem + "." + ext;
    assert (d + n)[|d + n| - 1] == ext[|ext| - 1];
    TrimmedKeeps(d + n);
    JoinAfterDir(d, n);
    SplitAtDotJoin(stem, ext);
    assert |n| >= 3;
    assert FileName(d + n) == Some(n);
  }

  /** The same, grouped as `with_extension` builds the path. */
  lemma JoinedParts(d: string, stem: string, ext: string)
    requires d == [] || d[|d| - 1] == '/'
    requires |stem| > 0 && '/' !in stem
    requires |ext| > 0 && '.' !in ext && '/' !in ext
    ensures Dir(d + stem + ("." + ext)) == d
    ensures Extension(d + stem + ("." + ext)) == Some(ext)
    ensures Stem(d + stem + ("." + ext)) == Some(stem)
  {
    Strings.AppendAssoc(stem, ".", ext);
    Strings.AppendAssoc(d, stem, "." + ext);
    JoinedName(d, stem, ext);
  }

  /**
   * After `with_extension(ext)`, for an `ext` without '.' or '/', the path
   * has that extension, the same directory and the same stem.
   */
  lemma WithExtensionSetsExtension(p: string, ext: string)
    requires FileName(p).Some?
    requires |ext| > 0 && '.' !in ext && '/' !in ext
    ensures Extension(WithExtension(p, ext)) == Some(ext)
    ensures Stem(WithExtension(p, ext)) == Stem(p)
    ensures Dir(WithExtension(p, ext)) == Dir(p)
  {
    var stem := SplitAtDot(Name(p)).0;
    assert Stem(p) == Some(stem);
    assert '/' !in stem && |stem| > 0 by {
      DirName(Trimmed(p));
      StemHasNoSlash(Name(p));
    }
    DirEndsInSlash(Trimmed(p));
    JoinedParts(Dir(p), stem, ext);
  }

  /** The stem is a non-empty prefix of the name, so it has no '/' when the name has none. */
  lemma StemHasNoSlash(name: string)
    requires '/' !in name && |name| > 0
    ensures '/' !in SplitAtDot(name).0 && |SplitAtDot(name).0| > 0
  {
    var r := SplitAtDot(name);
    if r.1.Some? {
      assert forall i :: 0 <= i < |r.0| ==> r.0[i] == name[i];
    }
  }

  /**
   * A trailing separator or "." component changes neither the file name nor
   * the path `with_extension` gives: `a.fut/` and `a.fut/.` both become `a.json`.
   */
  lemma TrailingComponentsIgnored(p: string, ext: string)
    requires |p| > 0
    ensures FileName(p + "/") == FileName(p) && FileName(p + "/.") == FileName(p)
    ensures FileName(p).Some? ==>
      WithExtension(p + "/", ext) == WithExtension(p, ext) &&
      WithExtension(p + "/.", ext) == WithExtension(p, ext)
  {
    TrimmedAppend(p);
  }

  /** Trimming removes an appended "/" or "/.". */
  lemma TrimmedAppend(p: string)
    requires |p| > 0
    ensures Trimmed(p + "/") == Trimmed(p) && Trimmed(p + "/.") == Trimmed(p)
  {
    assert (p + "/")[..|p|] == p;
    assert (p + "/.")[..|p|] == p;
  }

  // ---------------------------------------------------------------- components

  /** `str::split('/')`: the pieces between separators, empty ones included. */
  function Split(s: string): (segs: seq<string>)
    ensures |segs| >= 1
    ensures |segs| == 1 ==> segs[0] == s
    ensures forall i :: 0 <= i < |segs| ==> '/' !in segs[i]
    decreases |s|
  {
    if '/' !in s then [s]
    else
      var i := FirstIndexOf(s, '/');
      [s[..i]] + Split(s[i + 1..])
  }

  /** Index of the first `c` in `s`, which holds one. */
  function FirstIndexOf(s: string, c: char): (i: nat)
    requires c in s
    ensures i < |s| && s[i] == c && c !in s[..i]
  {
    if s[0] == c then 0
    else
      assert c in s[1..] by {
        var k :| 0 <= k < |s| && s[k] == c;
        assert s[1..][k - 1] == c;
      }
      var j := FirstIndexOf(s[1..], c);
      assert s[..j + 1] == [s[0]] + s[1..][..j];
      j + 1
  }

  /** The pieces that are named components: empty pieces and "." are skipped. */
  function Kept(segs: seq<string>): (ns: seq<string>)
    requires forall i :: 0 <= i < |segs| ==> '/' !in segs[i]
    ensures forall i :: 0 <= i < |ns| ==> ns[i] != "" && ns[i] != "." && '/' !in ns[i]
  {
    if segs == [] then []
    else (if segs[0] == "" || segs[0] == "." then [] else [segs[0]]) + Kept(segs[1..])
  }

  /** The root for a path starting with '/', or the leading `.` of a relative path that starts with one. */
  function Lead(segs: seq<string>): seq<string>
    requires |segs| >= 1
  {
    if |segs| > 1 && segs[0] == "" then ["/"]
    else if segs[0] == "." then ["."]
    else []
  }

  /**
   * `Path::components`, by which `PathBuf`s compare equal: the root or a
   * leading ".", then the named components, without empty and "." pieces.
   */
  function Components(p: string): (c: seq<string>)
    ensures forall i :: 0 < i < |c| ==> c[i] != "" && c[i] != "." && '/' !in c[i]
  {
    Lead(Split(p)) + Kept(Split(p))
  }

  /** Splitting a joined path splits each side. */
  lemma {:induction false} SplitJoin(a: string, b: string)
    ensures Split(a + "/" + b) == Split(a) + Split(b)
    decreases |a|
  {
    var s := a + "/" + b;
    if '/' !in a {
      assert s[|a|] == '/';
      assert s[..|a|] == a;
      assert '/' !in s[..|a|];
      FirstIndexAt(s, '/', |a|);
      assert s[|a| + 1..] == b;
    } else {
      var i := FirstIndexOf(a, '/');
      assert s[..i] == a[..i];
      FirstIndexAt(s, '/', i);
      assert s[i + 1..] == a[i + 1..] + "/" + b;
      SplitJoin(a[i + 1..], b);
    }
  }

  /** An occurrence with none before it is the first one. */
  lemma FirstIndexAt(s: string, c: char, k: nat)
    requires k < |s| && s[k] == c && c !in s[..k]
    ensures c in s && FirstIndexOf(s, c) == k
  {
    var i := FirstIndexOf(s, c);
  }

  lemma {:induction false} KeptAppend(x: seq<string>, y: seq<string>)
    requires forall i :: 0 <= i < |x| ==> '/' !in x[i]
    requires forall i :: 0 <= i < |y| ==> '/' !in y[i]
    ensures Kept(x + y) == Kept(x) + Kept(y)
    decreases |x|
  {
    if x != [] {
      assert (x + y)[1..] == x[1..] + y;
      KeptAppend(x[1..], y);
    } else {
      assert x + y == y;
    }
  }

  /** Splitting a path with a piece inserted between two separators. */
  lemma SplitInsert(a: string, piece: string, b: string)
    requires '/' !in piece
    ensures Split(a + "/" + piece + "/" + b) == Split(a) + ([piece] + Split(b))
  {
    assert a + "/" + piece + "/" + b == a + "/" + (piece + "/" + b);
    SplitJoin(a, piece + "/" + b);
    SplitJoin(piece, b);
  }

  /** A skipped piece between two lists of pieces changes neither the lead nor the kept pieces. */
  lemma SkipBetween(x: seq<string>, piece: string, y: seq<string>)
    requires |x| >= 1 && |y| >= 1 && (piece == "" || piece == ".")
    requires forall i :: 0 <= i < |x| ==> '/' !in x[i]
    requires forall i :: 0 <= i < |y| ==> '/' !in y[i]
    ensures Lead(x + ([piece] + y)) == Lead(x + y)
    ensures Kept(x + ([piece] + y)) == Kept(x + y)
  {
    assert (x + ([piece] + y))[0] == x[0] && (x + y)[0] == x[0];
    KeptAppend(x, y);
    KeptAppend(x, [piece] + y);
    KeptSkips(piece, y);
  }

  /** A skipped piece in front contributes nothing. */
  lemma KeptSkips(piece: string, y: seq<string>)
    requires piece == "" || piece == "."
    requires forall i :: 0 <= i < |y| ==> '/' !in y[i]
    ensures Kept([piece] + y) == Kept(y)
  {
    assert ([piece] + y)[1..] == y;
  }

  /** Inserting a separator-free piece that `Kept` skips leaves the components alone. */
  lemma SkippedPiece(a: string, piece: string, b: string)
    requires piece == "" || piece == "."
    ensures Components(a + "/" + piece + "/" + b) == Components(a + "/" + b)
  {
    SplitJoin(a, b);
    SplitInsert(a, piece, b);
    SkipBetween(Split(a), piece, Split(b));
  }

  /** A trailing separator or "." piece leaves the components of a non-empty path alone. */
  lemma TrailingPiece(a: string, piece: string)
    requires a != "" && (piece == "" || piece == ".")
    ensures Components(a + "/" + piece) == Components(a)
  {
    var x := Split(a);
    SplitJoin(a, piece);
    assert Split(piece) == [piece];
    KeptAppend(x, [piece]);
    assert Kept([piece]) == [];
    assert (x + [piece])[0] == x[0];
  }

  /**
   * `PathBuf` equality ignores repeated separators, "." pieces after the
   * start and trailing separators: `out//lib.py`, `out/./lib.py` and
   * `out/lib.py/` are all the path `out/lib.py`.
   */
  lemma ComponentsNormalise(a: string, b: string)
    ensures Components(a + "//" + b) == Components(a + "/" + b)
    ensures Components(a + "/./" + b) == Components(a + "/" + b)
    ensures a != "" ==> Components(a + "/") == Components(a) && Components(a + "/.") == Components(a)
  {
    SkippedPiece(a, "", b);
    assert a + "//" + b == a + "/" + "" + "/" + b;
    SkippedPiece(a, ".", b);
    assert a + "/./" + b == a + "/" + "." + "/" + b;
    if a != "" {
      TrailingPiece(a, "");
      assert a + "/" == a + "/" + "";
      TrailingPiece(a, ".");
      assert a + "/." == a + "/" + ".";
    }
  }

  /** Replacing the extension twice is the same as replacing it once with the second. */
  lemma WithExtensionTwice(p: string, a: string, b: string)
    requires |a| > 0 && '.' !in a && '/' !in a
    ensures WithExtension(WithExtension(p, a), b) == WithExtension(p, b)
  {
    if FileName(p).Some? {
      WithExtensionSetsExtension(p, a);
    }
  }
}
