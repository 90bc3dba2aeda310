/** What the walk of the build script decides, stated over the whole tree:
    the plan is the concatenation of the per-directory plans in visiting order,
    excluded directories contribute nothing, every kept subdirectory gets its
    package marker and its mirror, and `ext_modules` holds exactly the
    compilable `.py` files, each once. */
module WalkFacts {
  import opened PyPath
  import opened Glob
  import opened BuildIt

  /** The per-directory plans of a sequence of visited frames, one after the
      other. */
  function PlanOf(cfg: Config, fs: seq<Frame>): Plan {
    if fs == [] then NoPlan
    else LocalPlan(cfg, fs[0].path, fs[0].dir).Then(PlanOf(cfg, fs[1..]))
  }

  lemma {:induction false} PlanOfAppend(cfg: Config, a: seq<Frame>, b: seq<Frame>)
    ensures PlanOf(cfg, a + b) == PlanOf(cfg, a).Then(PlanOf(cfg, b))
  {
    if a == [] {
      assert a + b == b;
      ThenNoPlan(PlanOf(cfg, b));
    } else {
      assert (a + b)[0] == a[0] && (a + b)[1..] == a[1..] + b;
      PlanOfAppend(cfg, a[1..], b);
      ThenAssoc(LocalPlan(cfg, a[0].path, a[0].dir), PlanOf(cfg, a[1..]), PlanOf(cfg, b));
    }
  }

  /** The walk decides, directory by directory in top-down visiting order,
      what it decides locally in each directory: the plan of the walk is the
      concatenation of the local plans of the visited directories. */
  lemma {:induction false} WalkTreeIsPlanOf(cfg: Config, path: string, d: Dir)
    ensures WalkTree(cfg, path, d) == PlanOf(cfg, Visited(cfg, path, d))
    decreases Size(d), 0
  {
    var kids := Prune(d.subdirs, cfg.excludeDirs);
    var cs := ChildFrames(path, kids);
    var f := Frame(path, d);
    WalkFramesIsPlanOf(cfg, cs);
    var vs := VisitedFrames(cfg, cs);
    assert ([f] + vs)[0] == f && ([f] + vs)[1..] == vs;
  }

  lemma {:induction false} WalkFramesIsPlanOf(cfg: Config, fs: seq<Frame>)
    ensures WalkFrames(cfg, fs) == PlanOf(cfg, VisitedFrames(cfg, fs))
    decreases SumSize(fs), 1
  {
    if fs != [] {
      WalkTreeIsPlanOf(cfg, fs[0].path, fs[0].dir);
      WalkFramesIsPlanOf(cfg, fs[1..]);
      PlanOfAppend(cfg, Visited(cfg, fs[0].path, fs[0].dir), VisitedFrames(cfg, fs[1..]));
    }
  }

  /** A path, a copy or an entry of `ext_modules` is in the plan of a sequence
      of frames exactly when the local plan of one of the frames has it. */
  lemma {:induction false} PlanOfMembers(cfg: Config, fs: seq<Frame>)
    ensures forall x :: x in PlanOf(cfg, fs).markers <==>
      exists f :: f in fs && x in LocalPlan(cfg, f.path, f.dir).markers
    ensures forall x :: x in PlanOf(cfg, fs).mirrored <==>
      exists f :: f in fs && x in LocalPlan(cfg, f.path, f.dir).mirrored
    ensures forall c :: c in PlanOf(cfg, fs).copies <==>
      exists f :: f in fs && c in LocalPlan(cfg, f.path, f.dir).copies
    ensures forall x :: x in PlanOf(cfg, fs).extModules <==>
      exists f :: f in fs && x in LocalPlan(cfg, f.path, f.dir).extModules
  {
    if fs != [] {
      PlanOfMembers(cfg, fs[1..]);
      assert forall f :: f in fs <==> f == fs[0] || f in fs[1..];
    }
  }

  /** The local plan of a directory: markers and mirrors for its kept
      subdirectories, copies and modules for its files. */
  lemma LocalPlanComponents(cfg: Config, path: string, d: Dir)
    ensures var kids := Prune(d.subdirs, cfg.excludeDirs);
      && LocalPlan(cfg, path, d).markers == MarkerPaths(path, kids)
      && LocalPlan(cfg, path, d).mirrored == MirrorPaths(cfg, path, kids)
      && LocalPlan(cfg, path, d).copies == FilesPlan(cfg, path, d.files).copies
      && LocalPlan(cfg, path, d).extModules == FilesPlan(cfg, path, d.files).extModules
  {
    var fp := FilesPlan(cfg, path, d.files);
    assert [] + fp.copies == fp.copies && [] + fp.extModules == fp.extModules;
  }

  /** The files of one directory that are copied, and those that are queued
      for compilation, are those whose decision says so. */
  lemma {:induction false} FilesPlanMembers(cfg: Config, path: string, files: seq<string>)
    ensures forall c :: c in FilesPlan(cfg, path, files).copies <==>
      exists n :: n in files && Classify(cfg, n).Copies() && c == CopyOp(Join(path, n), MirrorPath(cfg, path))
    ensures forall x :: x in FilesPlan(cfg, path, files).extModules <==>
      exists n :: n in files && Classify(cfg, n).Compiles() && x == Join(path, n)
  {
    if files != [] {
      FilesPlanMembers(cfg, path, files[1..]);
      assert forall n :: n in files <==> n == files[0] || n in files[1..];
    }
  }

  /** Marker paths are those of the given subdirectories that lack `__init__.py`. */
  lemma {:induction false} MarkerPathsMembers(path: string, kids: seq<Dir>)
    ensures forall x :: x in MarkerPaths(path, kids) <==>
      exists c :: c in kids && InitFile !in c.files && x == Join(Join(path, c.name), InitFile)
  {
    if kids != [] {
      MarkerPathsMembers(path, kids[1..]);
      assert forall c :: c in kids <==> c == kids[0] || c in kids[1..];
    }
  }

  /** Mirrored paths are the mirrors of the given subdirectories. */
  lemma {:induction false} MirrorPathsMembers(cfg: Config, path: string, kids: seq<Dir>)
    ensures forall x :: x in MirrorPaths(cfg, path, kids) <==>
      exists c :: c in kids && x == MirrorPath(cfg, Join(path, c.name))
  {
    if kids != [] {
      MirrorPathsMembers(cfg, path, kids[1..]);
      assert forall c :: c in kids <==> c == kids[0] || c in kids[1..];
    }
  }

  /** What the local plan of one frame queues, copies, marks and mirrors. */
  lemma LocalExtMember(cfg: Config, f: Frame, x: string)
    ensures x in LocalPlan(cfg, f.path, f.dir).extModules <==>
      exists n :: n in f.dir.files && x == Join(f.path, n)
        && IsPy(n) && n !in cfg.excludeFiles && n != cfg.setupFile
  {
    LocalPlanComponents(cfg, f.path, f.dir);
    FilesPlanMembers(cfg, f.path, f.dir.files);
  }

  lemma LocalCopyMember(cfg: Config, f: Frame, c: CopyOp)
    ensures c in LocalPlan(cfg, f.path, f.dir).copies <==>
      exists n :: n in f.dir.files && Classify(cfg, n).Copies()
        && c == CopyOp(Join(f.path, n), MirrorPath(cfg, f.path))
  {
    LocalPlanComponents(cfg, f.path, f.dir);
    FilesPlanMembers(cfg, f.path, f.dir.files);
  }

  lemma LocalMarkerMember(cfg: Config, f: Frame, x: string)
    ensures x in LocalPlan(cfg, f.path, f.dir).markers <==>
      exists c :: c in f.dir.subdirs && c.name !in cfg.excludeDirs
        && InitFile !in c.files && x == Join(Join(f.path, c.name), InitFile)
  {
    LocalPlanComponents(cfg, f.path, f.dir);
    MarkerPathsMembers(f.path, Prune(f.dir.subdirs, cfg.excludeDirs));
  }

  lemma LocalMirrorMember(cfg: Config, f: Frame, x: string)
    ensures x in LocalPlan(cfg, f.path, f.dir).mirrored <==>
      exists c :: c in f.dir.subdirs && c.name !in cfg.excludeDirs
        && x == MirrorPath(cfg, Join(f.path, c.name))
  {
    LocalPlanComponents(cfg, f.path, f.dir);
    MirrorPathsMembers(cfg, f.path, Prune(f.dir.subdirs, cfg.excludeDirs));
  }

  lemma PlanOfExtModules(cfg: Config, vs: seq<Frame>)
    ensures forall x :: x in PlanOf(cfg, vs).extModules <==>
      exists f, n :: f in vs && n in f.dir.files && x == Join(f.path, n)
        && IsPy(n) && n !in cfg.excludeFiles && n != cfg.setupFile
  {
    PlanOfMembers(cfg, vs);
    forall x: string
      ensures x in PlanOf(cfg, vs).extModules <==>
        exists f, n :: f in vs && n in f.dir.files && x == Join(f.path, n)
          && IsPy(n) && n !in cfg.excludeFiles && n != cfg.setupFile
    {
      if x in PlanOf(cfg, vs).extModules {
        var f :| f in vs && x in LocalPlan(cfg, f.path, f.dir).extModules;
        LocalExtMember(cfg, f, x);
      }
      if exists f, n :: f in vs && n in f.dir.files && x == Join(f.path, n)
           && IsPy(n) && n !in cfg.excludeFiles && n != cfg.setupFile {
        var f, n :| f in vs && n in f.dir.files && x == Join(f.path, n)
           && IsPy(n) && n !in cfg.excludeFiles && n != cfg.setupFile;
        LocalExtMember(cfg, f, x);
      }
    }
  }

  /** `ext_modules` holds exactly the `.py` files of the visited directories
      that are neither literally excluded nor the script itself, by path. */
  lemma WalkExtModules(cfg: Config, path: string, d: Dir)
    ensures forall x :: x in WalkTree(cfg, path, d).extModules <==>
      exists f, n :: f in Visited(cfg, path, d) && n in f.dir.files && x == Join(f.path, n)
        && IsPy(n) && n !in cfg.excludeFiles && n != cfg.setupFile
  {
    WalkTreeIsPlanOf(cfg, path, d);
    PlanOfExtModules(cfg, Visited(cfg, path, d));
  }

  lemma PlanOfCopies(cfg: Config, vs: seq<Frame>)
    ensures forall c :: c in PlanOf(cfg, vs).copies <==>
      exists f, n :: f in vs && n in f.dir.files && Classify(cfg, n).Copies()
        && c == CopyOp(Join(f.path, n), MirrorPath(cfg, f.path))
  {
    PlanOfMembers(cfg, vs);
    forall c: CopyOp
      ensures c in PlanOf(cfg, vs).copies <==>
        exists f, n :: f in vs && n in f.dir.files && Classify(cfg, n).Copies()
          && c == CopyOp(Join(f.path, n), MirrorPath(cfg, f.path))
    {
      if c in PlanOf(cfg, vs).copies {
        var f :| f in vs && c in LocalPlan(cfg, f.path, f.dir).copies;
        LocalCopyMember(cfg, f, c);
      }
      if exists f, n :: f in vs && n in f.dir.files && Classify(cfg, n).Copies()
           && c == CopyOp(Join(f.path, n), MirrorPath(cfg, f.path)) {
        var f, n :| f in vs && n in f.dir.files && Classify(cfg, n).Copies()
           && c == CopyOp(Join(f.path, n), MirrorPath(cfg, f.path));
        LocalCopyMember(cfg, f, c);
      }
    }
  }

  /** The copies are exactly the files of the visited directories whose
      decision copies them, each into the mirror of its directory. */
  lemma WalkCopies(cfg: Config, path: string, d: Dir)
    ensures forall c :: c in WalkTree(cfg, path, d).copies <==>
      exists f, n :: f in Visited(cfg, path, d) && n in f.dir.files && Classify(cfg, n).Copies()
        && c == CopyOp(Join(f.path, n), MirrorPath(cfg, f.path))
  {
    WalkTreeIsPlanOf(cfg, path, d);
    PlanOfCopies(cfg, Visited(cfg, path, d));
  }

  lemma PlanOfMarkers(cfg: Config, vs: seq<Frame>)
    ensures forall x :: x in PlanOf(cfg, vs).markers <==>
      exists f, c :: f in vs && c in f.dir.subdirs && c.name !in cfg.excludeDirs
        && InitFile !in c.files && x == Join(Join(f.path, c.name), InitFile)
  {
    PlanOfMembers(cfg, vs);
    forall x: string
      ensures x in PlanOf(cfg, vs).markers <==>
        exists f, c :: f in vs && c in f.dir.subdirs && c.name !in cfg.excludeDirs
          && InitFile !in c.files && x == Join(Join(f.path, c.name), InitFile)
    {
      if x in PlanOf(cfg, vs).markers {
        var f :| f in vs && x in LocalPlan(cfg, f.path, f.dir).markers;
        LocalMarkerMember(cfg, f, x);
      }
      if exists f, c :: f in vs && c in f.dir.subdirs && c.name !in cfg.excludeDirs
           && InitFile !in c.files && x == Join(Join(f.path, c.name), InitFile) {
        var f, c :| f in vs && c in f.dir.subdirs && c.name !in cfg.excludeDirs
           && InitFile !in c.files && x == Join(Join(f.path, c.name), InitFile);
        LocalMarkerMember(cfg, f, x);
      }
    }
  }

  /** An `__init__.py` is created exactly in each kept subdirectory of a
      visited directory that lacks one. */
  lemma WalkMarkers(cfg: Config, path: string, d: Dir)
    ensures forall x :: x in WalkTree(cfg, path, d).markers <==>
      exists f, c :: f in Visited(cfg, path, d) && c in f.dir.subdirs && c.name !in cfg.excludeDirs
        && InitFile !in c.files && x == Join(Join(f.path, c.name), InitFile)
  {
    WalkTreeIsPlanOf(cfg, path, d);
    PlanOfMarkers(cfg, Visited(cfg, path, d));
  }

  lemma PlanOfMirrors(cfg: Config, vs: seq<Frame>)
    ensures forall x :: x in PlanOf(cfg, vs).mirrored <==>
      exists f, c :: f in vs && c in f.dir.subdirs && c.name !in cfg.excludeDirs
        && x == MirrorPath(cfg, Join(f.path, c.name))
  {
    PlanOfMembers(cfg, vs);
    forall x: string
      ensures x in PlanOf(cfg, vs).mirrored <==>
        exists f, c :: f in vs && c in f.dir.subdirs && c.name !in cfg.excludeDirs
          && x == MirrorPath(cfg, Join(f.path, c.name))
    {
      if x in PlanOf(cfg, vs).mirrored {
        var f :| f in vs && x in LocalPlan(cfg, f.path, f.dir).mirrored;
        LocalMirrorMember(cfg, f, x);
      }
      if exists f, c :: f in vs && c in f.dir.subdirs && c.name !in cfg.excludeDirs
           && x == MirrorPath(cfg, Join(f.path, c.name)) {
        var f, c :| f in vs && c in f.dir.subdirs && c.name !in cfg.excludeDirs
           && x == MirrorPath(cfg, Join(f.path, c.name));
        LocalMirrorMember(cfg, f, x);
      }
    }
  }

  /** A mirror directory is created exactly for each kept subdirectory of a
      visited directory. */
  lemma WalkMirrors(cfg: Config, path: string, d: Dir)
    ensures forall x :: x in WalkTree(cfg, path, d).mirrored <==>
      exists f, c :: f in Visited(cfg, path, d) && c in f.dir.subdirs && c.name !in cfg.excludeDirs
        && x == MirrorPath(cfg, Join(f.path, c.name))
  {
    WalkTreeIsPlanOf(cfg, path, d);
    PlanOfMirrors(cfg, Visited(cfg, path, d));
  }
  /** A subdirectory with an excluded name is dropped whatever it holds. */
  lemma {:induction false} PruneSkips(a: seq<Dir>, x: Dir, b: seq<Dir>, excludeDirs: seq<string>)
    requires x.name in excludeDirs
    ensures Prune(a + [x] + b, excludeDirs) == Prune(a + b, excludeDirs)
  {
    if a == [] {
      assert a + [x] + b == [x] + b && ([x] + b)[1..] == b && a + b == b;
    } else {
      assert (a + [x] + b)[0] == a[0] && (a + [x] + b)[1..] == a[1..] + [x] + b;
      assert (a + b)[0] == a[0] && (a + b)[1..] == a[1..] + b;
      PruneSkips(a[1..], x, b, excludeDirs);
    }
  }

  /** Adding a subdirectory with an excluded name, anywhere among the
      subdirectories and with any contents, changes neither what the walk
      decides nor which directories it visits below the one it starts from
      (only that one's own listing differs): nothing beneath it is queued,
      copied, mirrored or given an `__init__.py`. */
  lemma ExcludedSubtreeIgnored(cfg: Config, path: string, d: Dir, x: Dir, i: nat)
    requires i <= |d.subdirs| && x.name in cfg.excludeDirs
    ensures var d' := d.(subdirs := d.subdirs[..i] + [x] + d.subdirs[i..]);
      && WalkTree(cfg, path, d') == WalkTree(cfg, path, d)
      && Visited(cfg, path, d')[1..] == Visited(cfg, path, d)[1..]
  {
    var d' := d.(subdirs := d.subdirs[..i] + [x] + d.subdirs[i..]);
    assert d.subdirs[..i] + d.subdirs[i..] == d.subdirs;
    PruneSkips(d.subdirs[..i], x, d.subdirs[i..], cfg.excludeDirs);
    var kids := Prune(d.subdirs, cfg.excludeDirs);
    assert Prune(d'.subdirs, cfg.excludeDirs) == kids;
    assert LocalPlan(cfg, path, d') == LocalPlan(cfg, path, d);
    assert WalkTree(cfg, path, d') == LocalPlan(cfg, path, d).Then(WalkFrames(cfg, ChildFrames(path, kids)));
    assert Visited(cfg, path, d')[1..] == VisitedFrames(cfg, ChildFrames(path, kids)) == Visited(cfg, path, d)[1..];
  }

  /** Every frame of a sequence is visited when the sequence is walked. */
  lemma {:induction false} FramesVisited(cfg: Config, fs: seq<Frame>)
    ensures forall g :: g in fs ==> g in VisitedFrames(cfg, fs)
  {
    if fs != [] {
      FramesVisited(cfg, fs[1..]);
      assert Visited(cfg, fs[0].path, fs[0].dir)[0] == fs[0];
    }
  }

  /** The walk descends into every kept subdirectory of every directory it
      visits, and sees it with its `__init__.py`. */
  lemma {:induction false} VisitedChildren(cfg: Config, path: string, d: Dir)
    ensures forall f, c ::
      (f in Visited(cfg, path, d) && c in f.dir.subdirs && c.name !in cfg.excludeDirs
       ==> Frame(Join(f.path, c.name), Touched(c)) in Visited(cfg, path, d))
    decreases Size(d), 0
  {
    var kids := Prune(d.subdirs, cfg.excludeDirs);
    var cs := ChildFrames(path, kids);
    VisitedFramesChildren(cfg, cs);
    FramesVisited(cfg, cs);
    forall c | c in d.subdirs && c.name !in cfg.excludeDirs
      ensures Frame(Join(path, c.name), Touched(c)) in cs
    {
      var k :| 0 <= k < |kids| && kids[k] == c;
    }
  }

  lemma {:induction false} VisitedFramesChildren(cfg: Config, fs: seq<Frame>)
    ensures forall f, c ::
      (f in VisitedFrames(cfg, fs) && c in f.dir.subdirs && c.name !in cfg.excludeDirs
       ==> Frame(Join(f.path, c.name), Touched(c)) in VisitedFrames(cfg, fs))
    decreases SumSize(fs), 1
  {
    if fs != [] {
      VisitedChildren(cfg, fs[0].path, fs[0].dir);
      VisitedFramesChildren(cfg, fs[1..]);
    }
  }

  /** Every directory the walk visits, other than the one it starts from, is
      a kept subdirectory of a directory it visits. */
  lemma {:induction false} VisitedParents(cfg: Config, path: string, d: Dir)
    ensures forall g :: g in Visited(cfg, path, d) ==>
      (|| g == Frame(path, d)
       || exists f, c :: f in Visited(cfg, path, d) && c in f.dir.subdirs && c.name !in cfg.excludeDirs
            && g == Frame(Join(f.path, c.name), Touched(c)))
    decreases Size(d), 0
  {
    var kids := Prune(d.subdirs, cfg.excludeDirs);
    var cs := ChildFrames(path, kids);
    var vs := Visited(cfg, path, d);
    VisitedFramesParents(cfg, cs);
    forall g | g in cs
      ensures exists c :: (c in d.subdirs && c.name !in cfg.excludeDirs
                            && g == Frame(Join(path, c.name), Touched(c)))
    {
      var k :| 0 <= k < |cs| && cs[k] == g;
      assert kids[k] in kids;
    }
    assert Frame(path, d) in vs;
  }

  lemma {:induction false} VisitedFramesParents(cfg: Config, fs: seq<Frame>)
    ensures forall g :: g in VisitedFrames(cfg, fs) ==>
      (|| g in fs
       || exists f, c :: f in VisitedFrames(cfg, fs) && c in f.dir.subdirs && c.name !in cfg.excludeDirs
            && g == Frame(Join(f.path, c.name), Touched(c)))
    decreases SumSize(fs), 1
  {
    if fs != [] {
      VisitedParents(cfg, fs[0].path, fs[0].dir);
      VisitedFramesParents(cfg, fs[1..]);
    }
  }

  /** Every directory the walk visits below its starting point has a kept
      name and holds an `__init__.py` when it is listed. */
  lemma VisitedKept(cfg: Config, path: string, d: Dir)
    ensures forall g :: g in Visited(cfg, path, d) ==>
      (g == Frame(path, d) || (g.dir.name !in cfg.excludeDirs && InitFile in g.dir.files))
  {
    VisitedParents(cfg, path, d);
  }

  /** The walk creates one mirror for every directory it visits below the
      one it starts from. */
  lemma {:induction false} WalkMirrorCount(cfg: Config, path: string, d: Dir)
    ensures |WalkTree(cfg, path, d).mirrored| + 1 == |Visited(cfg, path, d)|
    decreases Size(d), 0
  {
    var kids := Prune(d.subdirs, cfg.excludeDirs);
    var cs := ChildFrames(path, kids);
    WalkFramesMirrorCount(cfg, cs);
  }

  lemma {:induction false} WalkFramesMirrorCount(cfg: Config, fs: seq<Frame>)
    ensures |WalkFrames(cfg, fs).mirrored| + |fs| == |VisitedFrames(cfg, fs)|
    decreases SumSize(fs), 1
  {
    if fs != [] {
      WalkMirrorCount(cfg, fs[0].path, fs[0].dir);
      WalkFramesMirrorCount(cfg, fs[1..]);
    }
  }
}
