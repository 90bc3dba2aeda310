/** Paths of the walk: on a tree as a filesystem lists it, the walk visits
    each path once, so `ext_modules` never lists a file twice and every entry
    of it names a `.py` file other than the script. */
module WalkPaths {
  import opened PyPath
  import opened BuildIt
  import opened WalkFacts

  /** `q` is `p` or lies below it. */
  predicate Under(q: string, p: string) {
    q == p || p + "/" <= q
  }

  /** No two frames of `fs` have the same path. */
  predicate DistinctPaths(fs: seq<Frame>) {
    forall i, j :: 0 <= i < j < |fs| ==> fs[i].path != fs[j].path
  }

  /** A path below `dir/name` lies below `dir` and is longer than it. */
  lemma UnderJoin(q: string, p: string, a: string)
    requires Under(q, Join(p, a))
    ensures Under(q, p) && |q| > |p|
  {
    assert q[..|p| + 1] == (p + "/" + a)[..|p| + 1] == p + "/";
  }

  /** Below two differently named children of the same directory lies no
      common path: the component after `p` names one child. */
  lemma UnderSiblings(q: string, r: string, p: string, a: string, b: string)
    requires ValidName(a) && ValidName(b) && a != b
    requires Under(q, Join(p, a)) && Under(r, Join(p, b))
    ensures q != r
  {
    if |a| <= |b| {
      UnderSiblingsOrdered(q, r, p, a, b);
    } else {
      UnderSiblingsOrdered(r, q, p, b, a);
    }
  }

  lemma UnderSiblingsOrdered(q: string, r: string, p: string, a: string, b: string)
    requires ValidName(a) && ValidName(b) && a != b && |a| <= |b|
    requires Under(q, Join(p, a)) && Under(r, Join(p, b))
    ensures q != r
  {
    var k := |p| + 1;
    assert q[..k] == p + "/" && q[k..k + |a|] == a;
    assert q != p + "/" + a ==> |q| > k + |a| && q[k + |a|] == '/';
    assert r[k..k + |b|] == b;
    assert |a| < |b| ==> b[|a|] != '/';
  }

  /** The position of the separator a join inserts. */
  lemma LastSlashOfJoin(p: string, a: string)
    requires ValidName(a)
    ensures LastIndex(Join(p, a), '/') == |p|
  {
    var s := Join(p, a);
    assert forall i :: |p| < i < |s| ==> s[i] == a[i - |p| - 1];
    LastIndexIs(s, '/', |p|);
  }

  /** Joined paths differ when their directories or their names differ. */
  lemma JoinInjective(p: string, a: string, q: string, b: string)
    requires ValidName(a) && ValidName(b) && (p != q || a != b)
    ensures Join(p, a) != Join(q, b)
  {
    LastSlashOfJoin(p, a);
    LastSlashOfJoin(q, b);
    assert Join(p, a)[..|p|] == p && Join(q, b)[..|q|] == q;
    assert Join(p, a)[|p| + 1..] == a && Join(q, b)[|q| + 1..] == b;
  }

  /** Keeping some subdirectories keeps their names distinct. */
  lemma {:induction false} PruneDistinct(ds: seq<Dir>, excludeDirs: seq<string>)
    requires DistinctDirNames(ds)
    ensures DistinctDirNames(Prune(ds, excludeDirs))
  {
    if ds != [] {
      PruneDistinct(ds[1..], excludeDirs);
      var r := Prune(ds[1..], excludeDirs);
      if ds[0].name !in excludeDirs {
        forall j | 0 <= j < |r| ensures ds[0].name != r[j].name {
          assert r[j] in ds[1..];
        }
      }
    }
  }

  /** On a valid tree, every directory the walk visits lies below the start,
      is itself valid, and no path is visited twice. */
  lemma {:induction false} VisitedPaths(cfg: Config, p: string, d: Dir)
    requires ValidTree(d)
    ensures DistinctPaths(Visited(cfg, p, d))
    ensures forall g :: g in Visited(cfg, p, d) ==> Under(g.path, p) && ValidTree(g.dir)
    decreases Size(d), 0
  {
    var kids := Prune(d.subdirs, cfg.excludeDirs);
    PruneDistinct(d.subdirs, cfg.excludeDirs);
    forall k | k in kids ensures ValidName(k.name) && ValidTree(k) {
      var i :| 0 <= i < |d.subdirs| && d.subdirs[i] == k;
    }
    VisitedKids(cfg, p, kids);
    var vs := VisitedFrames(cfg, ChildFrames(p, kids));
    forall g | g in vs ensures |g.path| > |p| && Under(g.path, p) {
      var k :| k in kids && Under(g.path, Join(p, k.name));
      UnderJoin(g.path, p, k.name);
    }
    forall j | 0 <= j < |vs| ensures vs[j].path != p {
      assert vs[j] in vs;
    }
    DistinctPathsAppend([Frame(p, d)], vs);
  }

  lemma {:induction false} VisitedKids(cfg: Config, p: string, kids: seq<Dir>)
    requires DistinctDirNames(kids)
    requires forall k :: k in kids ==> ValidName(k.name) && ValidTree(k)
    ensures DistinctPaths(VisitedFrames(cfg, ChildFrames(p, kids)))
    ensures forall g :: g in VisitedFrames(cfg, ChildFrames(p, kids)) ==>
      ValidTree(g.dir) && exists k :: k in kids && Under(g.path, Join(p, k.name))
    decreases DirsSize(kids), 1
  {
    if kids != [] {
      var cs := ChildFrames(p, kids);
      var k0 := kids[0];
      assert cs[1..] == ChildFrames(p, kids[1..]);
      assert Size(Touched(k0)) == Size(k0);
      TouchedValid(k0);
      VisitedPaths(cfg, Join(p, k0.name), Touched(k0));
      VisitedKids(cfg, p, kids[1..]);
      var a := Visited(cfg, Join(p, k0.name), Touched(k0));
      var b := VisitedFrames(cfg, cs[1..]);
      assert VisitedFrames(cfg, cs) == a + b;
      SiblingPathsDiffer(p, kids, a, b);
      DistinctPathsAppend(a, b);
    }
  }

  /** Frames below the first kept subdirectory and frames below the others
      have different paths. */
  lemma SiblingPathsDiffer(p: string, kids: seq<Dir>, a: seq<Frame>, b: seq<Frame>)
    requires kids != [] && DistinctDirNames(kids)
    requires forall k :: k in kids ==> ValidName(k.name)
    requires forall g :: g in a ==> Under(g.path, Join(p, kids[0].name))
    requires forall g :: g in b ==> exists k :: k in kids[1..] && Under(g.path, Join(p, k.name))
    ensures forall i, j :: 0 <= i < |a| && 0 <= j < |b| ==> a[i].path != b[j].path
  {
    forall i, j | 0 <= i < |a| && 0 <= j < |b| ensures a[i].path != b[j].path {
      assert a[i] in a && b[j] in b;
      var k :| k in kids[1..] && Under(b[j].path, Join(p, k.name));
      var m :| 0 <= m < |kids[1..]| && kids[1..][m] == k;
      assert kids[m + 1] == k;
      UnderSiblings(a[i].path, b[j].path, p, kids[0].name, k.name);
    }
  }

  lemma DistinctPathsAppend(a: seq<Frame>, b: seq<Frame>)
    requires DistinctPaths(a) && DistinctPaths(b)
    requires forall i, j :: 0 <= i < |a| && 0 <= j < |b| ==> a[i].path != b[j].path
    ensures DistinctPaths(a + b)
  {
    var s := a + b;
    forall i, j | 0 <= i < j < |s| ensures s[i].path != s[j].path {
      if j < |a| {
        assert s[i] == a[i] && s[j] == a[j];
      } else if i < |a| {
        assert s[i] == a[i] && s[j] == b[j - |a|];
      } else {
        assert s[i] == b[i - |a|] && s[j] == b[j - |a|];
      }
    }
  }

  lemma DistinctAppend(a: seq<string>, b: seq<string>)
    requires DistinctNames(a) && DistinctNames(b)
    requires forall x :: x in a ==> x !in b
    ensures DistinctNames(a + b)
  {
    var s := a + b;
    forall i, j | 0 <= i < j < |s| ensures s[i] != s[j] {
      if j < |a| {
        assert s[i] == a[i] && s[j] == a[j];
      } else if i < |a| {
        assert s[i] == a[i] && s[j] == b[j - |a|] && s[j] in b;
      } else {
        assert s[i] == b[i - |a|] && s[j] == b[j - |a|];
      }
    }
  }

  /** The files of one directory are queued at most once each. */
  lemma {:induction false} FilesExtDistinct(cfg: Config, p: string, files: seq<string>)
    requires DistinctNames(files) && forall n :: n in files ==> ValidName(n)
    ensures DistinctNames(FilesPlan(cfg, p, files).extModules)
  {
    if files != [] {
      FilesExtDistinct(cfg, p, files[1..]);
      var head := FilePlan(cfg, p, files[0]).extModules;
      var tail := FilesPlan(cfg, p, files[1..]).extModules;
      FilesPlanMembers(cfg, p, files[1..]);
      forall x | x in head ensures x !in tail {
        forall n | n in files[1..] ensures x != Join(p, n) {
          var m :| 0 <= m < |files[1..]| && files[1..][m] == n;
          assert files[m + 1] == n;
          JoinInjective(p, files[0], p, n);
        }
      }
      DistinctAppend(head, tail);
    }
  }

  /** Directories with distinct paths contribute distinct modules. */
  lemma {:induction false} PlanOfExtDistinct(cfg: Config, vs: seq<Frame>)
    requires DistinctPaths(vs)
    requires forall g :: g in vs ==> ValidTree(g.dir)
    ensures DistinctNames(PlanOf(cfg, vs).extModules)
  {
    if vs != [] {
      var f := vs[0];
      DistinctPathsTail(vs);
      PlanOfExtDistinct(cfg, vs[1..]);
      LocalPlanComponents(cfg, f.path, f.dir);
      FilesExtDistinct(cfg, f.path, f.dir.files);
      HeadModulesNotInTail(cfg, vs);
      DistinctAppend(FilesPlan(cfg, f.path, f.dir.files).extModules, PlanOf(cfg, vs[1..]).extModules);
    }
  }

  lemma DistinctPathsTail(vs: seq<Frame>)
    requires vs != [] && DistinctPaths(vs)
    ensures DistinctPaths(vs[1..])
  {
    forall i, j | 0 <= i < j < |vs[1..]| ensures vs[1..][i].path != vs[1..][j].path {
      assert vs[1..][i] == vs[i + 1] && vs[1..][j] == vs[j + 1];
    }
  }

  /** The modules of the first directory are not among those of the others. */
  lemma HeadModulesNotInTail(cfg: Config, vs: seq<Frame>)
    requires vs != [] && DistinctPaths(vs) && ValidTree(vs[0].dir)
    requires forall g :: g in vs ==> ValidTree(g.dir)
    ensures forall x :: x in FilesPlan(cfg, vs[0].path, vs[0].dir.files).extModules ==>
      x !in PlanOf(cfg, vs[1..]).extModules
  {
    var f := vs[0];
    FilesPlanMembers(cfg, f.path, f.dir.files);
    PlanOfExtModules(cfg, vs[1..]);
    forall x | x in FilesPlan(cfg, f.path, f.dir.files).extModules
      ensures x !in PlanOf(cfg, vs[1..]).extModules
    {
      var n :| n in f.dir.files && Classify(cfg, n).Compiles() && x == Join(f.path, n);
      forall g, m | g in vs[1..] && m in g.dir.files ensures x != Join(g.path, m) {
        var j :| 0 <= j < |vs[1..]| && vs[1..][j] == g;
        assert vs[j + 1] == g;
        JoinInjective(f.path, n, g.path, m);
      }
    }
  }

  /** On a tree as a filesystem lists it, `ext_modules` lists no file twice. */
  lemma WalkExtModulesDistinct(cfg: Config, p: string, d: Dir)
    requires ValidTree(d)
    ensures DistinctNames(WalkTree(cfg, p, d).extModules)
  {
    VisitedPaths(cfg, p, d);
    WalkTreeIsPlanOf(cfg, p, d);
    PlanOfExtDistinct(cfg, Visited(cfg, p, d));
  }

  /** A joined path ends with `/s` only when its name is `s`. */
  lemma JoinNotEndsWith(p: string, n: string, s: string)
    requires ValidName(n) && ValidName(s) && n != s
    ensures !EndsWith(Join(p, n), "/" + s)
  {
    var x := Join(p, n);
    if |x| >= |s| + 1 {
      var pre := x[..|x| - |s| - 1];
      JoinInjective(p, n, pre, s);
      assert EndsWith(x, "/" + s) ==> x == Join(pre, s);
    }
  }

  /** On a tree as a filesystem lists it, every entry of `ext_modules` has
      the extension `.py` and none is the script itself. */
  lemma WalkExtModulesArePy(cfg: Config, p: string, d: Dir)
    requires ValidTree(d) && ValidName(cfg.setupFile)
    ensures forall x :: x in WalkTree(cfg, p, d).extModules ==>
      Ext(x) == ".py" && !EndsWith(x, "/" + cfg.setupFile)
  {
    WalkExtModules(cfg, p, d);
    VisitedPaths(cfg, p, d);
    forall x | x in WalkTree(cfg, p, d).extModules
      ensures Ext(x) == ".py" && !EndsWith(x, "/" + cfg.setupFile)
    {
      var f, n :| f in Visited(cfg, p, d) && n in f.dir.files && x == Join(f.path, n)
        && IsPy(n) && n !in cfg.excludeFiles && n != cfg.setupFile;
      ExtOfJoin(f.path, n);
      JoinNotEndsWith(f.path, n, cfg.setupFile);
    }
  }
}
