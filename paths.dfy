/** Path handling of the video processor: `os.path.join`, `os.path.basename`, `os.path.splitext`
    on POSIX, and the run-scoped temporary names of `VideoProcessor.get_temp_path`. */
module Paths {
  import opened Common

  /** `os.path.join(a, b)` on POSIX: an absolute `b` replaces `a`; otherwise a '/' is put between
      them unless `a` is empty or already ends with one. */
  function Join(a: string, b: string): string {
    if b != [] && b[0] == '/' then b
    else if a == [] || a[|a| - 1] == '/' then a + b
    else a + ['/'] + b
  }

  /** `os.path.basename(p)`: the text after the last '/'. */
  function BaseName(p: string): (r: string)
    ensures '/' !in r
    ensures EndsWith(p, r)
    ensures r == p || p[|p| - |r| - 1] == '/'
  {
    if p == [] || p[|p| - 1] == '/' then []
    else
      var q, c := p[..|p| - 1], p[|p| - 1];
      var r' := BaseName(q);
      assert q[|q| - |r'|..] == r';
      assert p[|p| - |r'| - 1..] == q[|q| - |r'|..] + [c];
      assert r' != q ==> p[|p| - |r'| - 2] == q[|q| - |r'| - 1];
      r' + [c]
  }

  lemma BaseNameEmpty(a: string)
    requires a == [] || a[|a| - 1] == '/'
    ensures BaseName(a) == []
  {
  }

  lemma BaseNameSnoc(p: string)
    requires p != [] && p[|p| - 1] != '/'
    ensures BaseName(p) == BaseName(p[..|p| - 1]) + [p[|p| - 1]]
  {
  }

  lemma {:induction false} BaseNameAfterSeparator(a: string, b: string)
    requires '/' !in b
    requires a == [] || a[|a| - 1] == '/'
    ensures BaseName(a + b) == b
    decreases |b|
  {
    if b == [] {
      assert a + b == a;
      BaseNameEmpty(a);
    } else {
      var p := a + b;
      var b', c := b[..|b| - 1], b[|b| - 1];
      assert c in b;
      assert p[..|p| - 1] == a + b' && p[|p| - 1] == c;
      BaseNameAfterSeparator(a, b');
      BaseNameSnoc(p);
      assert b == b' + [c];
    }
  }

  /** The base name of `join(dir, name)` is `name` whenever `name` is a plain file name. */
  lemma BaseNameOfJoin(dir: string, name: string)
    requires '/' !in name
    ensures BaseName(Join(dir, name)) == name
  {
    if name != [] {
      assert name[0] in name;
    }
    if dir == [] || dir[|dir| - 1] == '/' {
      BaseNameAfterSeparator(dir, name);
    } else {
      var d := dir + ['/'];
      assert dir + ['/'] + name == d + name;
      BaseNameAfterSeparator(d, name);
    }
  }

  /** `join(dir, x)` is injective in `x` when both candidates agree on being absolute. */
  lemma JoinInjective(dir: string, x: string, y: string)
    requires |x| > 0 && |y| > 0 && x[0] == y[0]
    requires Join(dir, x) == Join(dir, y)
    ensures x == y
  {
    if x[0] != '/' {
      if dir == [] || dir[|dir| - 1] == '/' {
        assert (dir + x)[|dir|..] == x && (dir + y)[|dir|..] == y;
      } else {
        assert (dir + ['/'] + x)[|dir| + 1..] == x && (dir + ['/'] + y)[|dir| + 1..] == y;
      }
    }
  }

  function LastIndexOf(s: string, c: char): (r: Option<nat>)
    ensures r.Some? ==> r.value < |s| && s[r.value] == c
    ensures r.Some? ==> forall k :: r.value < k < |s| ==> s[k] != c
    ensures r.None? <==> c !in s
  {
    if s == [] then None
    else if s[|s| - 1] == c then Some(|s| - 1)
    else
      assert forall k :: 0 <= k < |s| - 1 ==> s[..|s| - 1][k] == s[k];
      assert c in s ==> c in s[..|s| - 1];
      LastIndexOf(s[..|s| - 1], c)
  }

  /** `os.path.splitext(name)[0]` for a name without '/': the text before the last '.', unless every
      character before that dot is itself a dot (".bashrc" has no extension). */
  function Root(name: string): string {
    match LastIndexOf(name, '.')
    case None => name
    case Some(d) => if exists k :: 0 <= k < d && name[k] != '.' then name[..d] else name
  }

  /** Dropping the extension of `stem.ext` gives back `stem`, when `ext` has no dot and `stem` is not
      made of dots only; a name without a dot is its own root. */
  lemma RootOfExtension(stem: string, ext: string)
    requires '.' !in ext
    requires exists k :: 0 <= k < |stem| && stem[k] != '.'
    ensures Root(stem + "." + ext) == stem
  {
    var s := stem + "." + ext;
    assert s[|stem|] == '.';
    assert forall k :: |stem| < k < |s| ==> s[k] != '.' by {
      forall k | |stem| < k < |s| ensures s[k] != '.' {
        assert s[k] == ext[k - |stem| - 1];
        assert ext[k - |stem| - 1] in ext;
      }
    }
    var d := LastIndexOf(s, '.');
    assert d.Some?;
    assert d.value == |stem|;
    var k :| 0 <= k < |stem| && stem[k] != '.';
    assert s[k] == stem[k];
    assert s[..|stem|] == stem;
  }

  lemma RootWithoutDot(name: string)
    requires '.' !in name
    ensures Root(name) == name
  {
  }

  /** `os.path.splitext(os.path.basename(p))[0]`. */
  function Stem(p: string): string {
    Root(BaseName(p))
  }

  /** `os.path.splitext(name)[1]` for a name without '/': the last '.' and what follows it, when
      `Root` cuts there. */
  function Suffix(name: string): string {
    match LastIndexOf(name, '.')
    case None => []
    case Some(d) => if exists k :: 0 <= k < d && name[k] != '.' then name[d..] else []
  }

  /** `splitext` splits a name into its root and its extension and loses nothing. */
  lemma RootAndSuffix(name: string)
    ensures Root(name) + Suffix(name) == name
  {
    match LastIndexOf(name, '.')
    case None =>
    case Some(d) =>
      assert name[..d] + name[d..] == name;
  }

  /** `os.path.splitext(p)[1]`: the extension of the last component, dot included. */
  function Extension(p: string): string {
    Suffix(BaseName(p))
  }

  /** What a `VideoProcessor` keeps: its working directory and the run-scoped timestamp
      `int(time.time())` taken once in `__init__`; neither changes afterwards. */
  datatype Processor = Processor(workDir: string, timestamp: nat)

  /** `self.temp_dir`. */
  function TempDir(p: Processor): string {
    Join(p.workDir, "temp")
  }

  /** `get_temp_path(prefix, suffix)`: `<temp_dir>/<prefix>_<timestamp><suffix>`. */
  function TempPath(p: Processor, prefix: string, suffix: string): string {
    Join(TempDir(p), prefix + "_" + NatToString(p.timestamp) + suffix)
  }

  /** A name built from separator-free parts and a timestamp holds no separator. */
  lemma StampedNameFlat(prefix: string, timestamp: nat, suffix: string)
    requires '/' !in prefix && '/' !in suffix
    ensures '/' !in prefix + "_" + NatToString(timestamp) + suffix
  {
    var d := NatToString(timestamp);
    assert '/' !in d by {
      forall k | 0 <= k < |d| ensures d[k] != '/' { assert IsDigit(d[k]); }
    }
  }

  /** The file name of a temporary path is `<prefix>_<timestamp><suffix>`, inside `<work_dir>/temp`. */
  lemma TempPathName(p: Processor, prefix: string, suffix: string)
    requires '/' !in prefix && '/' !in suffix
    ensures BaseName(TempPath(p, prefix, suffix)) == prefix + "_" + NatToString(p.timestamp) + suffix
  {
    StampedNameFlat(prefix, p.timestamp, suffix);
    BaseNameOfJoin(TempDir(p), prefix + "_" + NatToString(p.timestamp) + suffix);
  }

  /** A temporary path is never empty and ends as its suffix does, so temporary files whose suffixes
      end differently are different files. */
  lemma TempPathLast(p: Processor, prefix: string, suffix: string)
    requires suffix != []
    ensures var t := TempPath(p, prefix, suffix); t != [] && t[|t| - 1] == suffix[|suffix| - 1]
  {
    var name := prefix + "_" + NatToString(p.timestamp) + suffix;
    assert name[|name| - 1] == suffix[|suffix| - 1];
  }

  /** A stem is part of a base name, so it holds no separator either. */
  lemma StemFlat(p: string)
    ensures '/' !in Stem(p)
  {
    RootAndSuffix(BaseName(p));
  }

  /** A string of digits cannot be a proper prefix of a digit string followed by a non-digit. */
  lemma ShorterDigitsNeedDigitSuffix(d1: string, s1: string, d2: string, s2: string)
    requires AllDigits(d2)
    requires d1 + s1 == d2 + s2
    ensures |d1| < |d2| ==> s1 != [] && IsDigit(s1[0])
  {
    if |d1| < |d2| {
      assert (d1 + s1)[|d1|] == s1[0];
      assert (d2 + s2)[|d1|] == d2[|d1|];
    }
  }

  lemma DigitsThenSuffix(d1: string, s1: string, d2: string, s2: string)
    requires AllDigits(d1) && AllDigits(d2)
    requires s1 == [] || !IsDigit(s1[0])
    requires s2 == [] || !IsDigit(s2[0])
    requires d1 + s1 == d2 + s2
    ensures d1 == d2 && s1 == s2
  {
    ShorterDigitsNeedDigitSuffix(d1, s1, d2, s2);
    ShorterDigitsNeedDigitSuffix(d2, s2, d1, s1);
    assert |d1| == |d2|;
    assert (d1 + s1)[..|d1|] == d1 && (d2 + s2)[..|d2|] == d2;
    assert (d1 + s1)[|d1|..] == s1 && (d2 + s2)[|d2|..] == s2;
  }

  /** Two runs in the same working directory get the same temporary path for one prefix exactly when
      their timestamps agree and the suffixes agree (suffixes such as ".mp3", ".srt", ".ass" that do
      not start with a digit): the timestamp is what keeps runs apart. */
  lemma TempPathCollision(p: Processor, q: Processor, prefix: string, s1: string, s2: string)
    requires p.workDir == q.workDir
    requires s1 == [] || !IsDigit(s1[0])
    requires s2 == [] || !IsDigit(s2[0])
    ensures TempPath(p, prefix, s1) == TempPath(q, prefix, s2) <==> p.timestamp == q.timestamp && s1 == s2
  {
    if TempPath(p, prefix, s1) == TempPath(q, prefix, s2) {
      var dp, dq := NatToString(p.timestamp), NatToString(q.timestamp);
      var x := prefix + "_" + dp + s1;
      var y := prefix + "_" + dq + s2;
      assert x[0] == y[0] by {
        if |prefix| > 0 { assert x[0] == prefix[0] == y[0]; } else { assert x[0] == '_' == y[0]; }
      }
      JoinInjective(TempDir(p), x, y);
      assert x[|prefix| + 1..] == dp + s1;
      assert y[|prefix| + 1..] == dq + s2;
      DigitsThenSuffix(dp, s1, dq, s2);
      NatToStringInjective(p.timestamp, q.timestamp);
    }
  }
}
