/** The two POSIX `path` functions the image service uses: `basename` and `extname`. */
module NodePath {
  import opened Wrappers

  predicate EndsWith(s: string, suffix: string) {
    |suffix| <= |s| && s[|s| - |suffix|..] == suffix
  }

  /** `s` without its trailing slashes. */
  function StripTrailingSlashes(s: string): (r: string)
    ensures |r| <= |s| && r == s[..|r|]
    ensures |r| == 0 || r[|r| - 1] != '/'
    ensures forall k :: |r| <= k < |s| ==> s[k] == '/'
  {
    if |s| == 0 || s[|s| - 1] != '/' then s else StripTrailingSlashes(s[..|s| - 1])
  }

  /** The part of `s` after its last slash (all of `s` when it has none). */
  function AfterLastSlash(s: string): (r: string)
    ensures '/' !in r && EndsWith(s, r)
    ensures |r| == |s| || s[|s| - |r| - 1] == '/'
  {
    if |s| == 0 || s[|s| - 1] == '/' then ""
    else
      var r := AfterLastSlash(s[..|s| - 1]) + [s[|s| - 1]];
      assert s[|s| - |r|..] == s[..|s| - 1][|s| - |r|..] + [s[|s| - 1]];
      r
  }

  /** `path.basename(p)`: the last non-empty segment, trailing slashes ignored. */
  function Basename(p: string): (r: string)
    ensures '/' !in r
  {
    AfterLastSlash(StripTrailingSlashes(p))
  }

  lemma {:induction false} AfterLastSlashOfSegment(dir: string, name: string)
    requires |dir| > 0 && dir[|dir| - 1] == '/' && '/' !in name
    ensures AfterLastSlash(dir + name) == name
    decreases |name|
  {
    var s := dir + name;
    if |name| > 0 {
      assert s[..|s| - 1] == dir + name[..|name| - 1];
      assert name[|name| - 1] in name;
      AfterLastSlashOfSegment(dir, name[..|name| - 1]);
      assert name[..|name| - 1] + [name[|name| - 1]] == name;
    }
  }

  /** Under a directory path ending in a slash, the base name of `<dir><name>` is
      `name`, for a non-empty name without slashes. */
  lemma BasenameOfChild(dir: string, name: string)
    requires |dir| > 0 && dir[|dir| - 1] == '/'
    requires name != "" && '/' !in name
    ensures Basename(dir + name) == name
  {
    var s := dir + name;
    assert s[|s| - 1] == name[|name| - 1];
    assert name[|name| - 1] in name;
    AfterLastSlashOfSegment(dir, name);
  }

  /** The index of the last `.` in `s`. */
  function LastDot(s: string): (r: Option<nat>)
    ensures r.Some? ==> r.value < |s| && s[r.value] == '.' && '.' !in s[r.value + 1..]
    ensures r.None? ==> '.' !in s
  {
    if |s| == 0 then None
    else if s[|s| - 1] == '.' then Some(|s| - 1)
    else
      var r := LastDot(s[..|s| - 1]);
      assert r.Some? ==> s[r.value + 1..] == s[..|s| - 1][r.value + 1..] + [s[|s| - 1]];
      assert r.None? ==> s == s[..|s| - 1] + [s[|s| - 1]];
      r
  }

  /** `path.extname(p)`: from the last dot of the base name to its end; empty when the
      base name has no dot, starts with its only dot run (`.bashrc`), or is `..`. */
  function Extname(p: string): (r: string)
    ensures r == "" || (r[0] == '.' && '.' !in r[1..] && EndsWith(Basename(p), r) && |r| < |Basename(p)|)
    ensures '/' !in r
  {
    var base := Basename(p);
    match LastDot(base)
    case None => ""
    case Some(d) =>
      if d == 0 || base == ".." then ""
      else
        DotSuffix(base, d);
        base[d..]
  }

  /** The piece of a slash-free name from an inner last dot on. */
  lemma DotSuffix(base: string, d: nat)
    requires 0 < d < |base| && base[d] == '.' && '.' !in base[d + 1..] && '/' !in base
    ensures var r := base[d..];
      r[0] == '.' && '.' !in r[1..] && EndsWith(base, r) && |r| < |base| && '/' !in r
  {
    var r := base[d..];
    assert r[1..] == base[d + 1..];
    assert base[|base| - |r|..] == r;
    forall k | 0 <= k < |r| ensures r[k] != '/' {
      assert r[k] == base[d + k];
      assert base[d + k] in base;
    }
  }
}
