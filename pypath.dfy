/** The path and string operations of Python's standard library that the build
    script relies on, with POSIX semantics: `os.path.join`, `os.path.splitext`,
    `str.endswith` and `str.replace`. */
module PyPath {

  /** A directory entry name as a listing returns it: non-empty, no separator. */
  predicate ValidName(n: string) {
    n != [] && '/' !in n
  }

  /** `s.endswith(suffix)` */
  predicate EndsWith(s: string, suffix: string) {
    |suffix| <= |s| && s[|s| - |suffix|..] == suffix
  }

  /** `os.path.join(dir, name)` for a directory path that does not end with
      a separator and a relative name, which is how the walk calls it. */
  function Join(dir: string, name: string): string {
    dir + "/" + name
  }

  /** `s.rfind(c)`: the position of the last `c` in `s`, or -1. */
  function LastIndex(s: string, c: char): (r: int)
    ensures -1 <= r < |s|
  {
    if s == [] then -1
    else if s[|s| - 1] == c then |s| - 1
    else LastIndex(s[..|s| - 1], c)
  }

  /** `LastIndex` finds a `c` when there is one, and nothing after it is a `c`. */
  lemma {:induction false} LastIndexSpec(s: string, c: char)
    ensures LastIndex(s, c) >= 0 ==> s[LastIndex(s, c)] == c
    ensures forall i :: LastIndex(s, c) < i < |s| ==> s[i] != c
  {
    if s != [] && s[|s| - 1] != c {
      LastIndexSpec(s[..|s| - 1], c);
    }
  }

  /** `os.path.splitext(p)` (posixpath): the extension starts at the last dot
      of the last path component, unless every character of that component
      before the dot is itself a dot. */
  function SplitExt(p: string): (r: (string, string))
    ensures r.0 + r.1 == p
  {
    var sep := LastIndex(p, '/');
    var dot := LastIndex(p, '.');
    if sep < dot && exists i :: sep < i < dot && p[i] != '.' then
      (p[..dot], p[dot..])
    else
      (p, [])
  }

  /** `os.path.splitext(p)[1]` */
  function Ext(p: string): string {
    SplitExt(p).1
  }

  /** Root and extension put back together give the path; the extension is
      empty or a dot followed by neither dots nor separators. */
  lemma SplitExtShape(p: string)
    ensures SplitExt(p).0 + SplitExt(p).1 == p
    ensures var e := SplitExt(p).1; e == [] || (e[0] == '.' && '.' !in e[1..] && '/' !in e)
  {
    LastIndexSpec(p, '/');
    LastIndexSpec(p, '.');
  }

  /** The position of the last `c` in a string is determined by the string. */
  lemma LastIndexIs(s: string, c: char, k: int)
    requires -1 <= k < |s|
    requires k >= 0 ==> s[k] == c
    requires forall i :: k < i < |s| ==> s[i] != c
    ensures LastIndex(s, c) == k
  {
    LastIndexSpec(s, c);
  }

  /** A name without separator has extension ".py" exactly when it ends with
      ".py" and something other than dots comes before that suffix: ".py" and
      "..py" have no extension at all, ".a.py" does. */
  lemma {:induction false} PyExtension(n: string)
    requires '/' !in n
    ensures Ext(n) == ".py" <==>
      (EndsWith(n, ".py") && exists i :: 0 <= i < |n| - 3 && n[i] != '.')
  {
    LastIndexIs(n, '/', -1);
    if EndsWith(n, ".py") {
      assert n[|n| - 3] == '.' && n[|n| - 2] == 'p' && n[|n| - 1] == 'y';
      LastIndexIs(n, '.', |n| - 3);
    }
    if Ext(n) == ".py" {
      var dot := LastIndex(n, '.');
      LastIndexSpec(n, '.');
      assert n[dot..] == ".py";
      assert n == n[..dot] + ".py";
    }
  }

  /** Splitting the extension off a joined path only looks at the name: the
      decision the script takes on `os.path.join(path, file_name)` is a
      decision on `file_name`. */
  lemma ExtOfJoin(dir: string, name: string)
    requires ValidName(name)
    ensures Ext(Join(dir, name)) == Ext(name)
  {
    var pre := dir + "/";
    var p := pre + name;
    assert Join(dir, name) == p;
    LastIndexAppend(pre, name, '/');
    LastIndexAppend(pre, name, '.');
    LastIndexIs(pre, '/', |pre| - 1);
    LastIndexIs(name, '/', -1);
    var dn := LastIndex(name, '.');
    LastIndexSpec(name, '.');
    if dn >= 0 {
      assert '.' in name;
      DotsBeforeShift(pre, name, dn);
      var c := exists i :: |pre| - 1 < i < |pre| + dn && p[i] != '.';
      assert SplitExt(p) == if c then (p[..|pre| + dn], p[|pre| + dn..]) else (p, []);
      assert SplitExt(name) == if c then (name[..dn], name[dn..]) else (name, []);
      assert p[|pre| + dn..] == name[dn..];
    } else {
      assert '.' !in name;
    }
  }

  /** Prefixing a string does not change whether a stretch of it holds
      something other than a dot. */
  lemma DotsBeforeShift(pre: string, name: string, dn: int)
    requires 0 <= dn < |name|
    ensures (exists i :: |pre| - 1 < i < |pre| + dn && (pre + name)[i] != '.') <==>
            (exists i :: -1 < i < dn && name[i] != '.')
  {
    var p := pre + name;
    if exists i :: |pre| - 1 < i < |pre| + dn && p[i] != '.' {
      var i :| |pre| - 1 < i < |pre| + dn && p[i] != '.';
      assert name[i - |pre|] != '.';
    }
    if exists i :: -1 < i < dn && name[i] != '.' {
      var i :| -1 < i < dn && name[i] != '.';
      assert p[|pre| + i] != '.';
    }
  }

  /** Where the last `c` of a concatenation is. */
  lemma {:induction false} LastIndexAppend(a: string, b: string, c: char)
    ensures LastIndex(a + b, c) == if c in b then |a| + LastIndex(b, c) else LastIndex(a, c)
  {
    if b == [] {
      assert a + b == a;
    } else {
      var b' := b[..|b| - 1];
      assert (a + b)[..|a + b| - 1] == a + b';
      LastIndexAppend(a, b', c);
      assert b == b' + [b[|b| - 1]];
    }
  }

  /** A path whose file name ends with a suffix ends with that suffix. */
  lemma JoinEndsWith(path: string, n: string, suffix: string)
    requires EndsWith(n, suffix)
    ensures EndsWith(Join(path, n), suffix)
  {
    var x := Join(path, n);
    assert x[|x| - |suffix|..] == n[|n| - |suffix|..];
  }

  /** `sub` occurs in `s` at position `i`. */
  predicate OccursAt(sub: string, s: string, i: int) {
    0 <= i <= |s| - |sub| && s[i..i + |sub|] == sub
  }

  /** `sub` occurs somewhere in `s`. */
  predicate Occurs(sub: string, s: string) {
    exists i :: 0 <= i <= |s| - |sub| && OccursAt(sub, s, i)
  }

  /** `s.replace(pat, rep)`: every non-overlapping occurrence of `pat`, found
      left to right, is replaced by `rep`; an empty `pat` inserts `rep` before
      every character and at the end. */
  function Replace(s: string, pat: string, rep: string): (r: string)
    ensures |pat| == |rep| ==> |r| == |s|
    ensures pat != [] && pat <= s ==> rep <= r
    decreases |s|
  {
    if pat == [] then
      (if s == [] then rep else rep + [s[0]] + Replace(s[1..], pat, rep))
    else if |s| < |pat| then s
    else if s[..|pat|] == pat then rep + Replace(s[|pat|..], pat, rep)
    else [s[0]] + Replace(s[1..], pat, rep)
  }

  /** Replacing a string that does not occur changes nothing. */
  lemma {:induction false} ReplaceAbsent(s: string, pat: string, rep: string)
    requires pat != [] && !Occurs(pat, s)
    ensures Replace(s, pat, rep) == s
  {
    if |s| >= |pat| {
      assert !OccursAt(pat, s, 0);
      assert s[0..|pat|] == s[..|pat|];
      if Occurs(pat, s[1..]) {
        var i :| 0 <= i <= |s[1..]| - |pat| && OccursAt(pat, s[1..], i);
        assert s[1..][i..i + |pat|] == s[i + 1..i + 1 + |pat|];
        assert OccursAt(pat, s, i + 1);
      }
      ReplaceAbsent(s[1..], pat, rep);
    }
  }

  /** A string that starts with `pat` and has no further occurrence of it
      after that prefix gets exactly its prefix replaced. */
  lemma ReplacePrefixOnce(pat: string, rest: string, rep: string)
    requires pat != [] && !Occurs(pat, rest)
    ensures Replace(pat + rest, pat, rep) == rep + rest
  {
    var s := pat + rest;
    assert s[..|pat|] == pat && s[|pat|..] == rest;
    ReplaceAbsent(rest, pat, rep);
  }
}
