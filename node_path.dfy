/** The two functions of Node's `path` module the upload routes rely on, for POSIX paths. */
module NodePath {
  import opened Wrappers
  import opened Text

  /** The index of the last `c` in `s`. */
  function LastIndexOfChar(s: string, c: char): (k: Option<nat>)
    ensures k.Some? ==> k.value < |s| && s[k.value] == c && forall j :: k.value < j < |s| ==> s[j] != c
    ensures k.None? ==> forall j :: 0 <= j < |s| ==> s[j] != c
  {
    LastIndexBelow(s, c, |s|)
  }

  /** The index of the last `c` among the first `n` characters of `s`. */
  function LastIndexBelow(s: string, c: char, n: nat): (k: Option<nat>)
    requires n <= |s|
    ensures k.Some? ==> k.value < n && s[k.value] == c && forall j :: k.value < j < n ==> s[j] != c
    ensures k.None? ==> forall j :: 0 <= j < n ==> s[j] != c
  {
    if n == 0 then None
    else if s[n - 1] == c then Some(n - 1)
    else LastIndexBelow(s, c, n - 1)
  }

  /** `path.basename(p)`: the part after the last `/`. */
  function Basename(p: string): (b: string)
    ensures EndsWith(p, b)
    ensures '/' !in b
    ensures '/' !in p ==> b == p
  {
    match LastIndexOfChar(p, '/')
    case None => p
    case Some(k) => p[k + 1..]
  }

  /** When the path has a `/`, the base name starts just after one. */
  lemma BasenameAfterSlash(p: string)
    requires '/' in p
    ensures p[|p| - |Basename(p)| - 1] == '/'
  {
    match LastIndexOfChar(p, '/')
    case None =>
    case Some(k) =>
      assert Basename(p) == p[k + 1..];
  }

  /** `path.extname(p)`: from the last `.` of the base name to its end; empty when the base name
      has no `.`, starts with its only relevant `.` (a dot file such as `.png`), or is `..`. */
  function Extname(p: string): (e: string)
    ensures e == [] || (e[0] == '.' && '.' !in e[1..] && '/' !in e && EndsWith(p, e))
    ensures e != [] ==> |e| < |Basename(p)|
  {
    var b := Basename(p);
    var e := ExtnameOfBase(b);
    if e != [] then
      EndsWithTrans(p, b, e);
      SuffixAvoids(b, e, '/');
      e
    else e
  }

  /** The extension of a base name `b`: a strictly shorter suffix of `b` that starts with its
      only `.`, or empty. */
  function ExtnameOfBase(b: string): (e: string)
    ensures e == [] || (e[0] == '.' && '.' !in e[1..] && EndsWith(b, e) && |e| < |b|)
  {
    match LastIndexOfChar(b, '.')
    case None => ""
    case Some(k) =>
      if k == 0 || b == ".." then ""
      else
        var e := b[k..];
        assert e[1..] == b[k + 1..];
        assert b[|b| - |e|..] == e;
        e
  }

  /** A suffix of a string without `c` has no `c` either. */
  lemma SuffixAvoids(b: string, e: string, c: char)
    requires EndsWith(b, e) && c !in b
    ensures c !in e
  {
    forall j | 0 <= j < |e|
      ensures e[j] != c
    {
      assert e[j] == b[|b| - |e| + j];
    }
  }

  lemma EndsWithTrans(p: string, b: string, e: string)
    requires EndsWith(p, b)
    requires EndsWith(b, e)
    ensures EndsWith(p, e)
  {
    assert p[|p| - |b|..] == b;
    assert p[|p| - |e|..] == b[|b| - |e|..];
  }

  /** A file name `stem + ext` whose `ext` is a `.` followed by no other `.` has exactly that
      extension, whatever the stem (as long as it is not empty, so that the name is no dot file). */
  lemma ExtnameOfName(stem: string, ext: string)
    requires stem != [] && ext != [] && ext[0] == '.'
    requires '.' !in ext[1..]
    requires '/' !in stem && '/' !in ext
    requires stem + ext != ".."
    ensures Extname(stem + ext) == ext
  {
    var p := stem + ext;
    var k := |stem|;
    forall j | 0 <= j < |p|
      ensures p[j] != '/'
    {
      if j < k { assert p[j] == stem[j]; } else { assert p[j] == ext[j - k]; }
    }
    assert Basename(p) == p;
    assert p[k] == '.';
    forall j | k < j < |p|
      ensures p[j] != '.'
    {
      assert p[j] == ext[1..][j - k - 1];
    }
    assert LastIndexOfChar(p, '.') == Some(k);
    assert p[k..] == ext;
  }

  /** A name without a `.` has no extension. */
  lemma ExtnameWithoutDot(name: string)
    requires '.' !in name
    ensures Extname(name) == ""
  {
    var b := Basename(name);
    forall j | 0 <= j < |b|
      ensures b[j] != '.'
    {
      assert b[j] == name[|name| - |b| + j];
    }
  }

  /** A dot file whose name is a `.` and a dot-free rest has no extension. */
  lemma ExtnameOfDotFile(rest: string)
    requires '.' !in rest && '/' !in rest
    ensures Extname("." + rest) == ""
  {
    var p := ['.'] + rest;
    assert p == "." + rest;
    assert p[0] == '.';
    assert p[1..] == rest;
    assert forall j :: 0 < j < |p| ==> p[j] == rest[j - 1];
    assert '/' !in p;
    assert Basename(p) == p;
    match LastIndexOfChar(p, '.')
    case None =>
    case Some(k) =>
      assert k == 0;
  }

  /** Instances of the three lemmas above: an upper-case extension is kept as written, only the
      last `.` counts, a dot file has none, and neither has a name without a `.`. */
  lemma ExtnameDotFileExample()
    ensures Extname(".png") == ""
  {
    var rest := "png";
    assert "." + rest == ".png";
    ExtnameOfDotFile(rest);
  }

  lemma ExtnameNoDotExample()
    ensures Extname("uploads/notes") == ""
  {
    ExtnameWithoutDot("uploads/notes");
  }

  lemma ExtnamePhoto()
    ensures Extname("photo.PNG") == ".PNG"
  {
    var stem, ext := "photo", ".PNG";
    assert ext[1..] == "PNG";
    assert stem + ext == "photo.PNG";
    ExtnameOfName(stem, ext);
  }

  lemma ExtnameArchive()
    ensures Extname("archive.tar.zip") == ".zip"
  {
    var stem, ext := "archive.tar", ".zip";
    assert ext[1..] == "zip";
    assert stem + ext == "archive.tar.zip";
    ExtnameOfName(stem, ext);
  }
}
