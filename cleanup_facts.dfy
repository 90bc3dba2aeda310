/** What the cleanup after compilation deletes: exactly the C sources of the
    directories its walk visits, which are the starting directory and every
    kept subdirectory of a visited one. */
module CleanupFacts {
  import opened PyPath
  import opened BuildIt
  import opened WalkFacts

  /** The C sources of a listing are its files whose names end with `.c`. */
  lemma {:induction false} CSourcesMembers(path: string, files: seq<string>)
    ensures forall x :: x in CSources(path, files) <==>
      exists n :: n in files && EndsWith(n, ".c") && x == Join(path, n)
  {
    if files != [] {
      CSourcesMembers(path, files[1..]);
      assert forall n :: n in files <==> n == files[0] || n in files[1..];
    }
  }

  /** The directories the cleanup walk visits below the one at `path`, in
      walking order: itself, then the walks of its kept subdirectories. */
  function CleanupVisited(cfg: Config, path: string, d: Dir): seq<Frame>
    decreases Size(d), 0
  {
    [Frame(path, d)] + CleanupVisitedFrames(cfg, PlainFrames(path, Prune(d.subdirs, cfg.excludeDirs)))
  }

  function CleanupVisitedFrames(cfg: Config, fs: seq<Frame>): seq<Frame>
    decreases SumSize(fs), 1
  {
    if fs == [] then []
    else CleanupVisited(cfg, fs[0].path, fs[0].dir) + CleanupVisitedFrames(cfg, fs[1..])
  }

  /** The cleanup deletes a path exactly when it names a `.c` file of a
      directory its walk visits. */
  lemma {:induction false} CleanupTreeMembers(cfg: Config, path: string, d: Dir)
    ensures forall x :: x in CleanupTree(cfg, path, d) <==>
      exists f, n :: f in CleanupVisited(cfg, path, d) && n in f.dir.files && EndsWith(n, ".c")
        && x == Join(f.path, n)
    decreases Size(d), 0
  {
    var cs := PlainFrames(path, Prune(d.subdirs, cfg.excludeDirs));
    var vs := CleanupVisited(cfg, path, d);
    CSourcesMembers(path, d.files);
    CleanupFramesMembers(cfg, cs);
    assert vs[0] == Frame(path, d);
    assert forall f :: f in vs <==> f == Frame(path, d) || f in CleanupVisitedFrames(cfg, cs);
  }

  lemma {:induction false} CleanupFramesMembers(cfg: Config, fs: seq<Frame>)
    ensures forall x :: x in CleanupFrames(cfg, fs) <==>
      exists f, n :: f in CleanupVisitedFrames(cfg, fs) && n in f.dir.files && EndsWith(n, ".c")
        && x == Join(f.path, n)
    decreases SumSize(fs), 1
  {
    if fs != [] {
      CleanupTreeMembers(cfg, fs[0].path, fs[0].dir);
      CleanupFramesMembers(cfg, fs[1..]);
      var head := CleanupVisited(cfg, fs[0].path, fs[0].dir);
      var tail := CleanupVisitedFrames(cfg, fs[1..]);
      assert forall f :: f in CleanupVisitedFrames(cfg, fs) <==> f in head || f in tail;
    }
  }

  /** The cleanup walk visits the directory it starts from. */
  lemma CleanupVisitsStart(cfg: Config, path: string, d: Dir)
    ensures Frame(path, d) in CleanupVisited(cfg, path, d)
  {
    assert CleanupVisited(cfg, path, d)[0] == Frame(path, d);
  }

  lemma {:induction false} CleanupFramesVisited(cfg: Config, fs: seq<Frame>)
    ensures forall g :: g in fs ==> g in CleanupVisitedFrames(cfg, fs)
  {
    if fs != [] {
      CleanupFramesVisited(cfg, fs[1..]);
      assert CleanupVisited(cfg, fs[0].path, fs[0].dir)[0] == fs[0];
    }
  }

  /** The cleanup walk descends into every kept subdirectory of every
      directory it visits. */
  lemma {:induction false} CleanupVisitedChildren(cfg: Config, path: string, d: Dir)
    ensures forall f, c ::
      (f in CleanupVisited(cfg, path, d) && c in f.dir.subdirs && c.name !in cfg.excludeDirs
       ==> Frame(Join(f.path, c.name), c) in CleanupVisited(cfg, path, d))
    decreases Size(d), 0
  {
    var kids := Prune(d.subdirs, cfg.excludeDirs);
    var cs := PlainFrames(path, kids);
    CleanupVisitedFramesChildren(cfg, cs);
    CleanupFramesVisited(cfg, cs);
    forall c | c in d.subdirs && c.name !in cfg.excludeDirs
      ensures Frame(Join(path, c.name), c) in cs
    {
      var k :| 0 <= k < |kids| && kids[k] == c;
    }
  }

  lemma {:induction false} CleanupVisitedFramesChildren(cfg: Config, fs: seq<Frame>)
    ensures forall f, c ::
      (f in CleanupVisitedFrames(cfg, fs) && c in f.dir.subdirs && c.name !in cfg.excludeDirs
       ==> Frame(Join(f.path, c.name), c) in CleanupVisitedFrames(cfg, fs))
    decreases SumSize(fs), 1
  {
    if fs != [] {
      CleanupVisitedChildren(cfg, fs[0].path, fs[0].dir);
      CleanupVisitedFramesChildren(cfg, fs[1..]);
    }
  }

  /** Every directory the cleanup walk visits, other than the one it starts
      from, is a kept subdirectory of a directory it visits. */
  lemma {:induction false} CleanupVisitedParents(cfg: Config, path: string, d: Dir)
    ensures forall g :: g in CleanupVisited(cfg, path, d) ==>
      (|| g == Frame(path, d)
       || exists f, c :: f in CleanupVisited(cfg, path, d) && c in f.dir.subdirs && c.name !in cfg.excludeDirs
            && g == Frame(Join(f.path, c.name), c))
    decreases Size(d), 0
  {
    var kids := Prune(d.subdirs, cfg.excludeDirs);
    var cs := PlainFrames(path, kids);
    var vs := CleanupVisited(cfg, path, d);
    CleanupVisitedFramesParents(cfg, cs);
    forall g | g in cs
      ensures exists c :: (c in d.subdirs && c.name !in cfg.excludeDirs
                            && g == Frame(Join(path, c.name), c))
    {
      var k :| 0 <= k < |cs| && cs[k] == g;
      assert kids[k] in kids;
    }
    assert Frame(path, d) in vs;
  }

  lemma {:induction false} CleanupVisitedFramesParents(cfg: Config, fs: seq<Frame>)
    ensures forall g :: g in CleanupVisitedFrames(cfg, fs) ==>
      (|| g in fs
       || exists f, c :: f in CleanupVisitedFrames(cfg, fs) && c in f.dir.subdirs && c.name !in cfg.excludeDirs
            && g == Frame(Join(f.path, c.name), c))
    decreases SumSize(fs), 1
  {
    if fs != [] {
      CleanupVisitedParents(cfg, fs[0].path, fs[0].dir);
      CleanupVisitedFramesParents(cfg, fs[1..]);
    }
  }

  /** Every C source of the starting directory is deleted. */
  lemma CleanupDeletesTopLevelCSources(cfg: Config, path: string, d: Dir)
    ensures forall n :: n in d.files && EndsWith(n, ".c") ==> Join(path, n) in CleanupTree(cfg, path, d)
  {
    CSourcesMembers(path, d.files);
  }

  /** A subdirectory with an excluded name, anywhere among the
      subdirectories and with any contents, changes nothing the cleanup
      deletes. */
  lemma CleanupIgnoresExcluded(cfg: Config, path: string, d: Dir, x: Dir, i: nat)
    requires i <= |d.subdirs| && x.name in cfg.excludeDirs
    ensures CleanupTree(cfg, path, d.(subdirs := d.subdirs[..i] + [x] + d.subdirs[i..]))
         == CleanupTree(cfg, path, d)
  {
    var d' := d.(subdirs := d.subdirs[..i] + [x] + d.subdirs[i..]);
    assert d.subdirs[..i] + d.subdirs[i..] == d.subdirs;
    PruneSkips(d.subdirs[..i], x, d.subdirs[i..], cfg.excludeDirs);
    assert Prune(d'.subdirs, cfg.excludeDirs) == Prune(d.subdirs, cfg.excludeDirs);
  }
}
