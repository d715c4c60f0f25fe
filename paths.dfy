// The POSIX path and string helpers that nodes.py relies on:
// `os.path.basename`, `os.path.splitext`, `os.path.join` (two arguments),
// `str.lower` on ASCII, `str.endswith` with a tuple and `in` on strings.

module Paths {
  /** The last index below `n` holding `c`, or -1. */
  function LastBefore(s: string, c: char, n: int): (r: int)
    requires 0 <= n <= |s|
    ensures -1 <= r < n
    ensures r >= 0 ==> s[r] == c
    ensures forall k | r < k < n :: s[k] != c
    decreases n
  {
    if n == 0 then -1
    else if s[n - 1] == c then n - 1
    else LastBefore(s, c, n - 1)
  }

  /** Index of the last occurrence of `c` (`str.rfind`), or -1. */
  function RFind(s: string, c: char): (r: int)
    ensures -1 <= r < |s|
    ensures r >= 0 ==> s[r] == c
    ensures forall k | r < k < |s| :: s[k] != c
  {
    LastBefore(s, c, |s|)
  }

  /** `LastBefore` is the only index with its two properties. */
  lemma {:induction false} LastBeforeIs(s: string, c: char, n: int, i: int)
    requires 0 <= n <= |s| && -1 <= i < n && (i >= 0 ==> s[i] == c)
    requires forall k | i < k < n :: s[k] != c
    ensures LastBefore(s, c, n) == i
    decreases n
  {
    if i < n - 1 {
      LastBeforeIs(s, c, n - 1, i);
    }
  }

  /** So is `RFind`. */
  lemma RFindIs(s: string, c: char, i: int)
    requires -1 <= i < |s| && (i >= 0 ==> s[i] == c)
    requires forall k | i < k < |s| :: s[k] != c
    ensures RFind(s, c) == i
  {
    LastBeforeIs(s, c, |s|, i);
  }

  predicate NoSeparator(s: string) {
    forall k | 0 <= k < |s| :: s[k] != '/'
  }

  /**
   * `os.path.basename`: everything after the last '/', i.e. the longest
   * suffix without a separator.
   */
  function Basename(p: string): (b: string)
    ensures NoSeparator(b)
    ensures |b| <= |p| && b == p[|p| - |b|..]
    ensures |b| == |p| || p[|p| - |b| - 1] == '/'
  {
    var i := RFind(p, '/') + 1;
    assert forall k | 0 <= k < |p| - i :: p[i..][k] == p[i + k];
    p[i..]
  }

  /** Some character of `s[lo..hi]` is not a dot. */
  predicate NonDotIn(s: string, lo: int, hi: int) {
    exists j | lo <= j < hi :: 0 <= j < |s| && s[j] != '.'
  }

  /** A dot followed by characters that are neither dots nor separators. */
  predicate IsExtension(e: string) {
    |e| > 0 && e[0] == '.' && forall k | 1 <= k < |e| :: e[k] != '.' && e[k] != '/'
  }

  /** `p[i..]` is an extension. */
  predicate ExtensionAt(p: string, i: int) {
    0 <= i < |p| && p[i] == '.' && forall k | i < k < |p| :: p[k] != '.' && p[k] != '/'
  }

  /** The dot at `k` follows something other than dots in the name starting at `lo`. */
  predicate DotAfterNameIn(p: string, lo: int, k: int) {
    0 <= lo <= k < |p| && p[k] == '.' && NonDotIn(p, lo, k)
  }

  /** The name starting at `lo` has a dot that follows something other than dots. */
  predicate HasExtensionFrom(p: string, lo: int) {
    exists k | lo <= k < |p| :: DotAfterNameIn(p, lo, k)
  }

  /**
   * A file name has an extension when one of its dots follows something
   * other than dots: `.rc` and `..` have none, `a.` and `.a.b` have one.
   */
  predicate HasExtension(name: string) {
    HasExtensionFrom(name, 0)
  }

  /**
   * `os.path.splitext`: the extension is the part of the last path
   * component from its last dot on, unless only dots precede that dot.
   */
  function SplitExt(p: string): (r: (string, string))
    ensures r.0 + r.1 == p
    ensures r.1 == "" || IsExtension(r.1)
    ensures r.1 != "" <==> HasExtension(Basename(p))
  {
    var i := ExtensionStart(p);
    var lo := RFind(p, '/') + 1;
    assert p[..i] + p[i..] == p;
    assert Basename(p) == p[lo..];
    ExtensionSuffix(p, i);
    NameSuffix(p, lo);
    (p[..i], p[i..])
  }

  /** Where the extension of `p` starts; `|p|` when it has none. */
  function ExtensionStart(p: string): (i: int)
    ensures 0 <= i <= |p|
    ensures i < |p| <==> HasExtensionFrom(p, RFind(p, '/') + 1)
    ensures i < |p| ==> ExtensionAt(p, i)
  {
    var sepIndex := RFind(p, '/');
    var dotIndex := RFind(p, '.');
    if dotIndex > sepIndex && NonDotIn(p, sepIndex + 1, dotIndex) then
      assert DotAfterNameIn(p, sepIndex + 1, dotIndex);
      dotIndex
    else
      LastDotLeads(p, sepIndex, dotIndex);
      |p|
  }

  /** Otherwise only dots precede every dot of the last component. */
  lemma LastDotLeads(p: string, sepIndex: int, dotIndex: int)
    requires sepIndex == RFind(p, '/') && dotIndex == RFind(p, '.')
    requires !(dotIndex > sepIndex && NonDotIn(p, sepIndex + 1, dotIndex))
    ensures !HasExtensionFrom(p, sepIndex + 1)
  {
    var lo := sepIndex + 1;
    forall k | lo <= k < |p|
      ensures !DotAfterNameIn(p, lo, k)
    {
      if p[k] == '.' {
        assert k <= dotIndex;
      }
    }
  }

  /** The index predicate agrees with the extension of the suffix. */
  lemma ExtensionSuffix(p: string, i: int)
    requires 0 <= i <= |p|
    ensures i < |p| ==> (ExtensionAt(p, i) <==> IsExtension(p[i..]))
  {
    assert forall k | 0 <= k < |p| - i :: p[i..][k] == p[i + k];
  }

  /** The index predicate agrees with the extension test on the suffix name. */
  lemma NameSuffix(p: string, lo: int)
    requires 0 <= lo <= |p|
    ensures HasExtensionFrom(p, lo) <==> HasExtension(p[lo..])
  {
    if HasExtensionFrom(p, lo) {
      var k :| lo <= k < |p| && DotAfterNameIn(p, lo, k);
      DotInSuffix(p, lo, k);
    }
    if HasExtension(p[lo..]) {
      var k :| 0 <= k < |p| - lo && DotAfterNameIn(p[lo..], 0, k);
      DotFromSuffix(p, lo, k);
    }
  }

  lemma DotInSuffix(p: string, lo: int, k: int)
    requires 0 <= lo <= k < |p| && DotAfterNameIn(p, lo, k)
    ensures DotAfterNameIn(p[lo..], 0, k - lo)
  {
    var j :| lo <= j < k && p[j] != '.';
    assert p[lo..][j - lo] == p[j];
  }

  lemma DotFromSuffix(p: string, lo: int, k: int)
    requires 0 <= lo <= |p| && 0 <= k < |p| - lo && DotAfterNameIn(p[lo..], 0, k)
    ensures DotAfterNameIn(p, lo, lo + k)
  {
    var j :| 0 <= j < k && p[lo..][j] != '.';
    assert p[lo + j] == p[lo..][j];
  }

  /** The dot of an appended extension is the last dot. */
  lemma AppendedLastDot(root: string, ext: string)
    requires IsExtension(ext)
    ensures RFind(root + ext, '.') == |root|
  {
    var p := root + ext;
    forall k | |root| < k < |p|
      ensures p[k] != '.'
    {
      assert p[k] == ext[k - |root|];
    }
    RFindIs(p, '.', |root|);
  }

  /** An appended extension adds no separator. */
  lemma AppendedLastSeparator(root: string, ext: string)
    requires NoSeparator(ext)
    ensures RFind(root + ext, '/') == RFind(root, '/')
  {
    var p := root + ext;
    var j := RFind(root, '/');
    forall k | j < k < |p|
      ensures p[k] != '/'
    {
      if k >= |root| {
        assert p[k] == ext[k - |root|];
      }
    }
    RFindIs(p, '/', j);
  }

  /** Appending an extension to a name with a non-dot character is undone by `SplitExt`. */
  lemma SplitExtAppended(root: string, ext: string)
    requires IsExtension(ext) && NonDotIn(root, RFind(root, '/') + 1, |root|)
    ensures SplitExt(root + ext) == (root, ext)
  {
    var p := root + ext;
    var j := RFind(root, '/');
    AppendedLastDot(root, ext);
    AppendedLastSeparator(root, ext);
    var m :| j + 1 <= m < |root| && root[m] != '.';
    assert p[m] == root[m];
    assert NonDotIn(p, j + 1, |root|);
    assert ExtensionStart(p) == |root|;
    assert p[..|root|] == root && p[|root|..] == ext;
  }

  /** A name made of leading dots and one further dot-free part keeps its dots. */
  lemma SplitExtLeadingDot(name: string)
    requires |name| > 0 && name[0] == '.' && NoSeparator(name)
    requires forall k | 1 <= k < |name| :: name[k] != '.'
    ensures SplitExt(name) == (name, "")
  {
    RFindIs(name, '/', -1);
    assert !HasExtensionFrom(name, 0);
    var r := SplitExt(name);
    assert r.0 == r.0 + r.1;
  }

  /**
   * `get_filename_without_extension_os_path`: the base name with its last
   * extension removed.
   */
  function FilenameWithoutExtension(path: string): (stem: string)
    ensures NoSeparator(stem)
    ensures |stem| <= |Basename(path)| && stem == Basename(path)[..|stem|]
  {
    var b := Basename(path);
    var (stem, ext) := SplitExt(b);
    StemPrefix(b, stem, ext);
    stem
  }

  lemma StemPrefix(b: string, stem: string, ext: string)
    requires stem + ext == b && NoSeparator(b)
    ensures NoSeparator(stem) && stem == b[..|stem|]
  {
    assert forall k | 0 <= k < |stem| :: stem[k] == b[k];
  }

  /** Directory, stem and extension: only the extension is dropped. */
  lemma StemOfPath(dir: string, stem: string, ext: string)
    requires NoSeparator(stem) && NonDotIn(stem, 0, |stem|) && IsExtension(ext)
    ensures FilenameWithoutExtension(dir + "/" + stem + ext) == stem
  {
    var p := dir + "/" + stem + ext;
    assert Basename(p) == stem + ext by {
      assert p[|dir|] == '/';
      assert forall k | |dir| < k < |p| :: p[k] == (stem + ext)[k - |dir| - 1];
      RFindIs(p, '/', |dir|);
    }
    RFindIs(stem, '/', -1);
    SplitExtAppended(stem, ext);
  }

  /** A dot file such as `.rc` keeps its whole name. */
  lemma StemOfDotFile(dir: string, name: string)
    requires |name| > 0 && name[0] == '.' && NoSeparator(name)
    requires forall k | 1 <= k < |name| :: name[k] != '.'
    ensures FilenameWithoutExtension(dir + "/" + name) == name
  {
    var p := dir + "/" + name;
    assert Basename(p) == name by {
      assert p[|dir|] == '/';
      assert forall k | |dir| < k < |p| :: p[k] == name[k - |dir| - 1];
      RFindIs(p, '/', |dir|);
    }
    SplitExtLeadingDot(name);
  }

  /** `os.path.join(a, b)` for two components. */
  function Join(a: string, b: string): (p: string)
    ensures |b| > 0 && b[0] == '/' ==> p == b
    ensures !(|b| > 0 && b[0] == '/') ==> |p| >= |a| + |b| && p[|p| - |b|..] == b && p[..|a|] == a
  {
    if |b| > 0 && b[0] == '/' then b
    else if a == "" || a[|a| - 1] == '/' then a + b
    else a + "/" + b
  }

  /** Joining a directory and a plain entry name: the base name is the entry. */
  lemma BasenameOfJoin(a: string, b: string)
    requires |b| > 0 && NoSeparator(b)
    ensures Basename(Join(a, b)) == b
  {
    var p := Join(a, b);
    assert p[|p| - |b|..] == b;
    if |p| > |b| {
      assert p[|p| - |b| - 1] == '/';
    }
  }

  function LowerChar(c: char): char {
    if 'A' <= c <= 'Z' then (c as int + 32) as char else c
  }

  /** `str.lower()` on ASCII letters; every other character is kept. */
  function Lower(s: string): (r: string)
    ensures |r| == |s|
    ensures forall i | 0 <= i < |s| :: r[i] == LowerChar(s[i])
  {
    seq(|s|, i requires 0 <= i < |s| => LowerChar(s[i]))
  }

  /** Lower-casing twice changes nothing more. */
  lemma LowerIdempotent(s: string)
    ensures Lower(Lower(s)) == Lower(s)
  {
  }

  /** Lower-casing keeps dots and separators where they are. */
  lemma LowerKeepsExtension(e: string)
    requires IsExtension(e)
    ensures IsExtension(Lower(e))
  {
    var l := Lower(e);
    assert forall k | 0 <= k < |l[1..]| :: l[1..][k] == LowerChar(e[1..][k]);
  }

  predicate EndsWith(s: string, suffix: string) {
    |suffix| <= |s| && s[|s| - |suffix|..] == suffix
  }

  /**
   * `str.endswith` with a tuple of suffixes: the empty tuple matches
   * nothing, a string matches a tuple holding it, and only the empty suffix
   * matches the empty string.
   */
  predicate EndsWithAny(s: string, suffixes: seq<string>): (b: bool)
    ensures |suffixes| == 0 ==> !b
    ensures s in suffixes || "" in suffixes ==> b
    ensures b && s == "" ==> "" in suffixes
  {
    exists i | 0 <= i < |suffixes| :: EndsWith(s, suffixes[i])
  }

  predicate OccursAt(hay: string, needle: string, i: int) {
    0 <= i <= |hay| - |needle| && hay[i..i + |needle|] == needle
  }

  /**
   * Python's `needle in hay` on strings: the empty needle is in every
   * string, every string is in itself, and a needle is never longer than
   * a string holding it.
   */
  predicate Contains(hay: string, needle: string): (b: bool)
    ensures needle == "" || needle == hay ==> b
    ensures b ==> |needle| <= |hay|
  {
    assert needle == "" || needle == hay ==> OccursAt(hay, needle, 0);
    exists i | 0 <= i <= |hay| - |needle| :: OccursAt(hay, needle, i)
  }

  /** An extension ends with another extension only when they are equal. */
  lemma EndsWithExtension(e: string, x: string)
    requires e == "" || IsExtension(e)
    requires IsExtension(x)
    ensures EndsWith(e, x) <==> e == x
  {
    if EndsWith(e, x) && |x| < |e| {
      assert false;
    }
  }

  /** `str.endswith(tuple)` on an extension is membership among extensions. */
  lemma EndsWithAnyExtension(e: string, xs: seq<string>)
    requires e == "" || IsExtension(e)
    requires forall i | 0 <= i < |xs| :: IsExtension(xs[i])
    ensures EndsWithAny(e, xs) <==> e in xs
  {
    forall i | 0 <= i < |xs|
      ensures EndsWith(e, xs[i]) <==> e == xs[i]
    {
      EndsWithExtension(e, xs[i]);
    }
  }
}
