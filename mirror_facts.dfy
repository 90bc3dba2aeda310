/** The mirror of the project under the build directory. The script computes
    a mirror path with `str.replace(cur_dir, build_dir)`, which rewrites every
    occurrence of `cur_dir`, not only the leading one; `MirrorAsWritten` is
    that computation and `BuildIt.MirrorPath` the intended prefix rewrite,
    which the walk uses. */
module MirrorFacts {
  import opened PyPath
  import opened BuildIt
  import opened WalkFacts
  import opened WalkPaths

  /** `p.replace(cur_dir, build_dir)`, as the script writes it. */
  function MirrorAsWritten(cfg: Config, p: string): (r: string)
    ensures cfg.curDir != [] && cfg.curDir <= p ==> BuildDir(cfg) <= r
  {
    Replace(p, cfg.curDir, BuildDir(cfg))
  }

  /** The two agree on every path below `cur_dir` in which `cur_dir` does
      not occur again after the leading one. */
  lemma MirrorAsWrittenAgrees(cfg: Config, p: string)
    requires cfg.curDir != [] && cfg.curDir <= p && !Occurs(cfg.curDir, p[|cfg.curDir|..])
    ensures MirrorAsWritten(cfg, p) == MirrorPath(cfg, p)
  {
    var rest := p[|cfg.curDir|..];
    assert p == cfg.curDir + rest;
    ReplacePrefixOnce(cfg.curDir, rest, BuildDir(cfg));
  }

  /** With the script in `/app` and a package directory `/app/app`, the
      replacement also rewrites the inner `/app`: the directory it creates
      is `/app/build/app/build`, whose parent `/app/build/app` does not
      exist, instead of the mirror `/app/build/app`. */
  lemma MirrorAsWrittenRewritesInnerOccurrence(setupFile: string)
    ensures var cfg := DefaultConfig("/app", setupFile);
      && MirrorAsWritten(cfg, Join("/app", "app")) == "/app/build/app/build"
      && MirrorAsWritten(cfg, Join("/app", "app")) != Join(MirrorAsWritten(cfg, "/app"), "app")
      && MirrorPath(cfg, Join("/app", "app")) == "/app/build/app"
  {
    var cfg := DefaultConfig("/app", setupFile);
    var pat := "/app";
    var rep := BuildDir(cfg);
    assert rep == "/app/build";
    var p := Join("/app", "app");
    assert p == "/app/app";
    assert Replace([], pat, rep) == [];
    assert pat[..|pat|] == pat && pat[|pat|..] == [];
    assert Replace(pat, pat, rep) == rep + Replace([], pat, rep) == rep;
    assert p[..|pat|] == pat && p[|pat|..] == pat;
    assert Replace(p, pat, rep) == rep + Replace(pat, pat, rep) == "/app/build/app/build";
    assert MirrorAsWritten(cfg, "/app") == "/app/build";
    assert cfg.curDir <= p && p[|cfg.curDir|..] == "/app";
  }

  /** The mirror of `cur_dir` is the build directory. */
  lemma MirrorOfCurDir(cfg: Config)
    ensures MirrorPath(cfg, cfg.curDir) == BuildDir(cfg)
  {
    assert cfg.curDir[|cfg.curDir|..] == [];
    assert BuildDir(cfg) + [] == BuildDir(cfg);
  }

  /** Mirroring commutes with descending into a subdirectory: the mirror of
      `dir/name` is the mirror of `dir`, then `name`. */
  lemma MirrorOfJoin(cfg: Config, p: string, a: string)
    requires cfg.curDir <= p
    ensures MirrorPath(cfg, Join(p, a)) == Join(MirrorPath(cfg, p), a)
  {
    var n := |cfg.curDir|;
    assert cfg.curDir <= Join(p, a);
    assert Join(p, a)[n..] == p[n..] + "/" + a;
  }

  /** A path at or below `cur_dir` is mirrored at or below the build
      directory, and distinct such paths get distinct mirrors. */
  lemma MirrorUnderBuild(cfg: Config, p: string, q: string)
    requires Under(p, cfg.curDir) && Under(q, cfg.curDir)
    ensures Under(MirrorPath(cfg, p), BuildDir(cfg))
    ensures p != q ==> MirrorPath(cfg, p) != MirrorPath(cfg, q)
  {
    var n := |cfg.curDir|;
    assert cfg.curDir <= p && cfg.curDir <= q;
    assert p == cfg.curDir + p[n..] && q == cfg.curDir + q[n..];
    if p[n..] != [] {
      assert BuildDir(cfg) + "/" <= MirrorPath(cfg, p);
    }
    var b := BuildDir(cfg);
    assert MirrorPath(cfg, p)[|b|..] == p[n..] && MirrorPath(cfg, q)[|b|..] == q[n..];
  }

  /** Every copy of the walk from `cur_dir` goes into a directory that the
      plan creates: the build directory itself or a mirror created for a
      kept subdirectory. */
  lemma CopyTargetsCreated(cfg: Config, root: Dir)
    ensures var plan := Plan([], [BuildDir(cfg)], [], []).Then(WalkTree(cfg, cfg.curDir, root));
      forall c :: c in plan.copies ==> c.destDir in plan.mirrored
  {
    var w := WalkTree(cfg, cfg.curDir, root);
    var plan := Plan([], [BuildDir(cfg)], [], []).Then(w);
    WalkCopies(cfg, cfg.curDir, root);
    WalkMirrors(cfg, cfg.curDir, root);
    VisitedParents(cfg, cfg.curDir, root);
    MirrorOfCurDir(cfg);
    forall c | c in plan.copies ensures c.destDir in plan.mirrored {
      assert c in w.copies;
      var f, n :| f in Visited(cfg, cfg.curDir, root) && n in f.dir.files && Classify(cfg, n).Copies()
        && c == CopyOp(Join(f.path, n), MirrorPath(cfg, f.path));
      if f != Frame(cfg.curDir, root) {
        var g, k :| g in Visited(cfg, cfg.curDir, root) && k in g.dir.subdirs && k.name !in cfg.excludeDirs
          && f == Frame(Join(g.path, k.name), Touched(k));
        assert c.destDir in w.mirrored;
      }
    }
  }

  /** On a tree as a filesystem lists it, every mirror the walk from
      `cur_dir` creates lies strictly below the build directory. */
  lemma MirrorsUnderBuild(cfg: Config, root: Dir)
    requires ValidTree(root)
    ensures forall x :: x in WalkTree(cfg, cfg.curDir, root).mirrored ==>
      BuildDir(cfg) + "/" <= x
  {
    var w := WalkTree(cfg, cfg.curDir, root);
    WalkMirrors(cfg, cfg.curDir, root);
    VisitedPaths(cfg, cfg.curDir, root);
    forall x | x in w.mirrored ensures BuildDir(cfg) + "/" <= x {
      var f, c :| f in Visited(cfg, cfg.curDir, root) && c in f.dir.subdirs && c.name !in cfg.excludeDirs
        && x == MirrorPath(cfg, Join(f.path, c.name));
      ChildMirrorUnderBuild(cfg, f.path, c.name);
    }
  }

  /** The mirror of a subdirectory of a path below `cur_dir` lies strictly
      below the build directory. */
  lemma ChildMirrorUnderBuild(cfg: Config, p: string, name: string)
    requires Under(p, cfg.curDir)
    ensures BuildDir(cfg) + "/" <= MirrorPath(cfg, Join(p, name))
  {
    assert cfg.curDir <= p;
    MirrorOfJoin(cfg, p, name);
    MirrorUnderBuild(cfg, p, p);
    var m := MirrorPath(cfg, p);
    assert MirrorPath(cfg, Join(p, name)) == m + "/" + name;
    if m != BuildDir(cfg) {
      assert BuildDir(cfg) + "/" <= m;
    }
  }

  /** `cur_dir` begins `p` and does not occur again after that beginning. */
  predicate SoleOccurrence(cfg: Config, p: string) {
    cfg.curDir <= p && !Occurs(cfg.curDir, p[|cfg.curDir|..])
  }

  /** Where no path the walk visits repeats `cur_dir` after its beginning,
      the directories the walk creates and the destinations of its copies
      are exactly the ones the script's own `str.replace` computes. */
  lemma WalkTargetsAsWritten(cfg: Config, root: Dir)
    requires cfg.curDir != []
    requires forall g :: g in Visited(cfg, cfg.curDir, root) ==> SoleOccurrence(cfg, g.path)
    ensures forall x :: x in WalkTree(cfg, cfg.curDir, root).mirrored <==>
      exists f, c :: f in Visited(cfg, cfg.curDir, root) && c in f.dir.subdirs && c.name !in cfg.excludeDirs
        && x == MirrorAsWritten(cfg, Join(f.path, c.name))
    ensures forall o :: o in WalkTree(cfg, cfg.curDir, root).copies <==>
      exists f, n :: f in Visited(cfg, cfg.curDir, root) && n in f.dir.files && Classify(cfg, n).Copies()
        && o == CopyOp(Join(f.path, n), MirrorAsWritten(cfg, f.path))
  {
    var vs := Visited(cfg, cfg.curDir, root);
    WalkMirrors(cfg, cfg.curDir, root);
    WalkCopies(cfg, cfg.curDir, root);
    VisitedChildren(cfg, cfg.curDir, root);
    forall f | f in vs ensures MirrorAsWritten(cfg, f.path) == MirrorPath(cfg, f.path) {
      MirrorAsWrittenAgrees(cfg, f.path);
    }
    forall f, c | f in vs && c in f.dir.subdirs && c.name !in cfg.excludeDirs
      ensures MirrorAsWritten(cfg, Join(f.path, c.name)) == MirrorPath(cfg, Join(f.path, c.name))
    {
      assert Frame(Join(f.path, c.name), Touched(c)) in vs;
      MirrorAsWrittenAgrees(cfg, Join(f.path, c.name));
    }
  }

  /** With the script in `/p` and a kept package `temp`, the mirror of the
      package is `build_tmp_dir`: the directory that receives the package's
      copies is the one removed after compilation. */
  lemma TempPackageMirroredOntoTmpDir(setupFile: string)
    ensures var cfg := DefaultConfig("/p", setupFile);
      BuildTmpDir(cfg) in WalkTree(cfg, "/p", Dir("p", [Dir(TempName, [], [InitFile])], [])).mirrored
  {
    var cfg := DefaultConfig("/p", setupFile);
    var t := Dir(TempName, [], [InitFile]);
    var root := Dir("p", [t], []);
    WalkMirrors(cfg, "/p", root);
    assert Frame("/p", root) in Visited(cfg, "/p", root);
    assert t in root.subdirs && t.name !in cfg.excludeDirs;
    MirrorOfCurDir(cfg);
    MirrorOfJoin(cfg, "/p", TempName);
    assert MirrorPath(cfg, Join("/p", TempName)) == BuildTmpDir(cfg);
  }

  /** When `cur_dir` keeps no subdirectory named `temp`, no directory the
      walk creates is `build_tmp_dir`, so removing it after compilation
      destroys nothing the walk placed in the mirror. */
  lemma NoMirrorIsTmpDir(cfg: Config, root: Dir)
    requires ValidTree(root)
    requires forall c :: c in root.subdirs && c.name == TempName ==> c.name in cfg.excludeDirs
    ensures BuildTmpDir(cfg) !in WalkTree(cfg, cfg.curDir, root).mirrored
  {
    var vs := Visited(cfg, cfg.curDir, root);
    WalkMirrors(cfg, cfg.curDir, root);
    VisitedPaths(cfg, cfg.curDir, root);
    MirrorOfCurDir(cfg);
    forall f, c | f in vs && c in f.dir.subdirs && c.name !in cfg.excludeDirs
      ensures MirrorPath(cfg, Join(f.path, c.name)) != BuildTmpDir(cfg)
    {
      var k :| 0 <= k < |f.dir.subdirs| && f.dir.subdirs[k] == c;
      if f.path == cfg.curDir {
        var i :| 0 <= i < |vs| && vs[i] == f;
        assert vs[0].path == cfg.curDir;
        assert i == 0;
        assert c in root.subdirs;
      }
      ChildMirrorNotTmpDir(cfg, f.path, c.name);
    }
  }

  /** The mirror of a subdirectory of a path below `cur_dir` is
      `build_tmp_dir` only for a subdirectory `temp` of `cur_dir` itself. */
  lemma ChildMirrorNotTmpDir(cfg: Config, p: string, name: string)
    requires Under(p, cfg.curDir) && ValidName(name)
    requires p == cfg.curDir ==> name != TempName
    ensures MirrorPath(cfg, Join(p, name)) != BuildTmpDir(cfg)
  {
    assert cfg.curDir <= p;
    MirrorOfCurDir(cfg);
    MirrorOfJoin(cfg, p, name);
    assert ValidName(TempName);
    if p != cfg.curDir {
      MirrorUnderBuild(cfg, p, cfg.curDir);
    }
    JoinInjective(MirrorPath(cfg, p), name, BuildDir(cfg), TempName);
  }
}
