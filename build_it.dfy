/** The decisions of the build script: which directories the top-down walk of
    the project prunes, which subdirectories get an `__init__.py` and a mirror
    under the build directory, and which files are queued for compilation
    (`ext_modules`), copied verbatim or skipped. Filesystem writes are not
    performed; the walk produces the list of them as a `Plan`. */
module BuildIt {
  import opened PyPath
  import opened Glob

  const InitFile := "__init__.py"
  const BuildName := "build"
  const TempName := "temp"

  /** `exclude_dirs` of the script. */
  const ExcludeDirs: seq<string> := [".git", "__pycache__", "test", "logs", "venv", ".idea"]

  /** `exclude_files` of the script: three literal names (`.gitignore`,
      `.python-version`, `requirements.txt`) and three glob patterns. */
  const ExcludeFiles: seq<string> :=
    ["*.md", ".gitignore", ".python-version", "requirements.txt", "*.pyc", "*.c"]

  /** The script's settings: the directory it lives in (`cur_dir`), its own
      file name (`setup_file`) and the two exclusion lists. */
  datatype Config = Config(
    curDir: string,
    setupFile: string,
    excludeDirs: seq<string>,
    excludeFiles: seq<string>)

  /** The settings the script hard-codes. */
  function DefaultConfig(curDir: string, setupFile: string): (r: Config)
    ensures r.curDir == curDir && r.setupFile == setupFile
    ensures forall n :: n in r.excludeDirs ==> ValidName(n) && n != BuildName
    ensures forall p :: p in r.excludeFiles ==> p != []
  {
    Config(curDir, setupFile, ExcludeDirs, ExcludeFiles)
  }

  /** `build_dir` */
  function BuildDir(cfg: Config): string {
    Join(cfg.curDir, BuildName)
  }

  /** `build_tmp_dir` */
  function BuildTmpDir(cfg: Config): string {
    Join(BuildDir(cfg), TempName)
  }

  /** A directory as a listing shows it: its name, its subdirectories and the
      names of its files, both in listing order. */
  datatype Dir = Dir(name: string, subdirs: seq<Dir>, files: seq<string>)

  predicate DistinctNames(ns: seq<string>) {
    forall i, j :: 0 <= i < j < |ns| ==> ns[i] != ns[j]
  }

  predicate DistinctDirNames(ds: seq<Dir>) {
    forall i, j :: 0 <= i < j < |ds| ==> ds[i].name != ds[j].name
  }

  /** What a real filesystem guarantees of a listing: entry names are
      non-empty and free of separators, and no two siblings share a name. */
  predicate ValidTree(d: Dir) {
    && (forall n :: n in d.files ==> ValidName(n))
    && DistinctNames(d.files)
    && DistinctDirNames(d.subdirs)
    && (forall i :: 0 <= i < |d.subdirs| ==> ValidName(d.subdirs[i].name) && ValidTree(d.subdirs[i]))
  }

  /** Number of directories in a tree; files do not count, so creating a file
      does not change it. */
  function Size(d: Dir): nat
    decreases d, 1
  {
    1 + DirsSize(d.subdirs)
  }

  function DirsSize(ds: seq<Dir>): nat
    decreases ds, 0
  {
    if ds == [] then 0 else Size(ds[0]) + DirsSize(ds[1..])
  }

  /** The subdirectories the walk keeps: `[d for d in dirs if d not in exclude_dirs]`. */
  function Prune(ds: seq<Dir>, excludeDirs: seq<string>): (r: seq<Dir>)
    ensures forall d :: d in r <==> d in ds && d.name !in excludeDirs
    ensures DirsSize(r) <= DirsSize(ds)
  {
    if ds == [] then []
    else if ds[0].name in excludeDirs then Prune(ds[1..], excludeDirs)
    else [ds[0]] + Prune(ds[1..], excludeDirs)
  }

  /** What the script does with one file. */
  datatype Action = Compile | Copy | CopyAndCompile | Skip {
    predicate Copies() { Copy? || CopyAndCompile? }
    predicate Compiles() { Compile? || CopyAndCompile? }
  }

  /** `os.path.splitext(...)[1] == '.py'` */
  predicate IsPy(name: string) {
    Ext(name) == ".py"
  }

  /** The per-file decision of the walk. A `.py` file is excluded only by
      literal membership in `excludeFiles` and is then copied; otherwise it is
      compiled unless it is named like the script, and `__init__.py` is also
      copied. Any other file is skipped when a pattern of `excludeFiles`
      matches its name, and copied otherwise. */
  function Classify(cfg: Config, name: string): (r: Action)
    ensures r.Compiles() <==> IsPy(name) && name !in cfg.excludeFiles && name != cfg.setupFile
    ensures r.Copies() && IsPy(name) <==> IsPy(name) && (name in cfg.excludeFiles || name == InitFile)
    ensures r.Copies() && !IsPy(name) <==> !IsPy(name) && !AnyMatch(name, cfg.excludeFiles)
  {
    if IsPy(name) then
      if name !in cfg.excludeFiles then
        var copy := name == InitFile;
        var compile := name != cfg.setupFile;
        if copy && compile then CopyAndCompile
        else if copy then Copy
        else if compile then Compile
        else Skip
      else Copy
    else if AnyMatch(name, cfg.excludeFiles) then Skip
    else Copy
  }

  /** The mirror of a project path under the build directory: the `cur_dir`
      prefix replaced by `build_dir`. (The script writes this as a replacement
      of every occurrence; see `Replace`.) */
  function MirrorPath(cfg: Config, p: string): (r: string)
  {
    if cfg.curDir <= p then BuildDir(cfg) + p[|cfg.curDir|..] else p
  }

  /** `shutil.copy(src, destDir)` */
  datatype CopyOp = CopyOp(src: string, destDir: string)

  /** The filesystem effects the walk decides, in the order it decides them:
      `__init__.py` files created in the source tree, directories created
      under the build directory, copies, and `ext_modules`. */
  datatype Plan = Plan(
    markers: seq<string>,
    mirrored: seq<string>,
    copies: seq<CopyOp>,
    extModules: seq<string>)
  {
    /** This plan followed by `next`. */
    function Then(next: Plan): Plan {
      Plan(markers + next.markers, mirrored + next.mirrored,
           copies + next.copies, extModules + next.extModules)
    }
  }

  const NoPlan := Plan([], [], [], [])

  /** The effects the walk decides for one file of the directory at `path`. */
  function FilePlan(cfg: Config, path: string, name: string): Plan {
    var a := Classify(cfg, name);
    var file := Join(path, name);
    Plan([], [],
         if a.Copies() then [CopyOp(file, MirrorPath(cfg, path))] else [],
         if a.Compiles() then [file] else [])
  }

  /** The effects decided for the files of the directory at `path`, in
      listing order. */
  function FilesPlan(cfg: Config, path: string, files: seq<string>): (r: Plan)
    ensures r.markers == [] && r.mirrored == []
  {
    if files == [] then NoPlan
    else FilePlan(cfg, path, files[0]).Then(FilesPlan(cfg, path, files[1..]))
  }

  /** The `__init__.py` files created for the kept subdirectories that lack one. */
  function MarkerPaths(path: string, kids: seq<Dir>): seq<string> {
    if kids == [] then []
    else
      (if InitFile in kids[0].files then [] else [Join(Join(path, kids[0].name), InitFile)])
      + MarkerPaths(path, kids[1..])
  }

  /** The directories created under the build directory for the kept
      subdirectories. */
  function MirrorPaths(cfg: Config, path: string, kids: seq<Dir>): (r: seq<string>)
    ensures |r| == |kids|
  {
    if kids == [] then []
    else [MirrorPath(cfg, Join(path, kids[0].name))] + MirrorPaths(cfg, path, kids[1..])
  }

  /** A kept subdirectory as the walk lists it later: the `__init__.py` the
      walk created in it is part of its listing (placed last). */
  function Touched(d: Dir): (r: Dir)
    ensures r.name == d.name && r.subdirs == d.subdirs
    ensures InitFile in r.files
    ensures forall n :: n in r.files <==> n in d.files || n == InitFile
  {
    if InitFile in d.files then d else d.(files := d.files + [InitFile])
  }

  /** A directory the walk has yet to visit, with its path. */
  datatype Frame = Frame(path: string, dir: Dir)

  function SumSize(fs: seq<Frame>): nat {
    if fs == [] then 0 else Size(fs[0].dir) + SumSize(fs[1..])
  }

  /** The frames `os.walk` descends into after the directory at `path`, in
      the order of the kept subdirectories. */
  function ChildFrames(path: string, kids: seq<Dir>): (r: seq<Frame>)
    ensures |r| == |kids|
    ensures forall i :: 0 <= i < |kids| ==> r[i] == Frame(Join(path, kids[i].name), Touched(kids[i]))
    ensures SumSize(r) == DirsSize(kids)
  {
    if kids == [] then []
    else [Frame(Join(path, kids[0].name), Touched(kids[0]))] + ChildFrames(path, kids[1..])
  }

  /** The effects decided while the walk stands at the directory at `path`. */
  function LocalPlan(cfg: Config, path: string, d: Dir): Plan {
    var kids := Prune(d.subdirs, cfg.excludeDirs);
    Plan(MarkerPaths(path, kids), MirrorPaths(cfg, path, kids), [], [])
      .Then(FilesPlan(cfg, path, d.files))
  }

  /** The effects of the top-down walk from the directory at `path`: its own,
      then those of each kept subdirectory in turn. */
  function WalkTree(cfg: Config, path: string, d: Dir): (r: Plan)
    decreases Size(d), 0
  {
    var kids := Prune(d.subdirs, cfg.excludeDirs);
    LocalPlan(cfg, path, d).Then(WalkFrames(cfg, ChildFrames(path, kids)))
  }

  function WalkFrames(cfg: Config, fs: seq<Frame>): (r: Plan)
    decreases SumSize(fs), 1
  {
    if fs == [] then NoPlan
    else WalkTree(cfg, fs[0].path, fs[0].dir).Then(WalkFrames(cfg, fs[1..]))
  }

  /** The directories the walk visits, in visiting order, each as it is
      listed when visited. */
  function Visited(cfg: Config, path: string, d: Dir): (r: seq<Frame>)
    ensures 1 <= |r| <= Size(d)
    ensures r[0] == Frame(path, d)
    decreases Size(d), 0
  {
    var kids := Prune(d.subdirs, cfg.excludeDirs);
    [Frame(path, d)] + VisitedFrames(cfg, ChildFrames(path, kids))
  }

  function VisitedFrames(cfg: Config, fs: seq<Frame>): (r: seq<Frame>)
    ensures |r| <= SumSize(fs)
    decreases SumSize(fs), 1
  {
    if fs == [] then []
    else Visited(cfg, fs[0].path, fs[0].dir) + VisitedFrames(cfg, fs[1..])
  }

  /** The exclusion loop for a file that is not a `.py` file: `_exclude` is
      set when any pattern matches the name. */
  method ExcludedByPattern(name: string, patterns: seq<string>) returns (exclude: bool)
    ensures exclude == AnyMatch(name, patterns)
  {
    exclude := false;
    for i := 0 to |patterns|
      invariant exclude <==> exists k :: 0 <= k < i && Match(name, patterns[k])
    {
      if Match(name, patterns[i]) {
        exclude := true;
      }
    }
  }

  /** Touches `__init__.py` in every kept subdirectory that lacks one. */
  method CreateMarkers(path: string, kids: seq<Dir>) returns (created: seq<string>)
    ensures created == MarkerPaths(path, kids)
  {
    created := [];
    for i := 0 to |kids|
      invariant created + MarkerPaths(path, kids[i..]) == MarkerPaths(path, kids)
    {
      assert kids[i..][1..] == kids[i + 1..];
      ghost var old_created := created;
      var initFile := Join(Join(path, kids[i].name), InitFile);
      ghost var step := if InitFile in kids[i].files then [] else [initFile];
      assert MarkerPaths(path, kids[i..]) == step + MarkerPaths(path, kids[i + 1..]);
      if InitFile !in kids[i].files {
        created := created + [initFile];
      }
      assert created == old_created + step;
    }
  }

  /** Creates the mirror of every kept subdirectory under the build directory. */
  method MirrorDirs(cfg: Config, path: string, kids: seq<Dir>) returns (made: seq<string>)
    ensures made == MirrorPaths(cfg, path, kids)
  {
    made := [];
    for i := 0 to |kids|
      invariant made + MirrorPaths(cfg, path, kids[i..]) == MirrorPaths(cfg, path, kids)
    {
      assert kids[i..][1..] == kids[i + 1..];
      var dir := Join(path, kids[i].name);
      made := made + [MirrorPath(cfg, dir)];
    }
  }

  /** One pass of the file loop of the walk: decides whether `fileName`, in
      the directory at `path`, is copied to the mirror of `path` and whether it
      is appended to `ext_modules`. */
  method ProcessFile(cfg: Config, path: string, fileName: string)
    returns (copies: seq<CopyOp>, extModules: seq<string>)
    requires ValidName(fileName)
    ensures Plan([], [], copies, extModules) == FilePlan(cfg, path, fileName)
  {
    copies, extModules := [], [];
    var file := Join(path, fileName);
    var target := MirrorPath(cfg, path);
    ExtOfJoin(path, fileName);
    ghost var a := Classify(cfg, fileName);
    if Ext(file) == ".py" {
      assert IsPy(fileName);
      if fileName !in cfg.excludeFiles {
        assert a.Copies() <==> fileName == InitFile;
        assert a.Compiles() <==> fileName != cfg.setupFile;
        if fileName == InitFile {
          copies := copies + [CopyOp(file, target)];
        }
        if fileName != cfg.setupFile {
          extModules := extModules + [file];
        }
      } else {
        assert a == Copy;
        copies := copies + [CopyOp(file, target)];
      }
    } else {
      assert !IsPy(fileName);
      var exclude := ExcludedByPattern(fileName, cfg.excludeFiles);
      if !exclude {
        copies := copies + [CopyOp(file, target)];
      }
    }
    assert copies == if a.Copies() then [CopyOp(file, target)] else [];
    assert extModules == if a.Compiles() then [file] else [];
  }

  /** The file loop of the walk, over the files of the directory at `path`
      in listing order. */
  method ProcessFiles(cfg: Config, path: string, files: seq<string>)
    returns (copies: seq<CopyOp>, extModules: seq<string>)
    requires forall n :: n in files ==> ValidName(n)
    ensures copies == FilesPlan(cfg, path, files).copies
    ensures extModules == FilesPlan(cfg, path, files).extModules
  {
    copies, extModules := [], [];
    for i := 0 to |files|
      invariant Plan([], [], copies, extModules) == FilesPlan(cfg, path, files[..i])
    {
      var c, e := ProcessFile(cfg, path, files[i]);
      FilesPlanSnoc(cfg, path, files[..i], files[i]);
      assert files[..i + 1] == files[..i] + [files[i]];
      copies, extModules := copies + c, extModules + e;
    }
    assert files[..|files|] == files;
  }

  lemma FilesPlanSnoc(cfg: Config, path: string, files: seq<string>, f: string)
    ensures FilesPlan(cfg, path, files + [f]) == FilesPlan(cfg, path, files).Then(FilePlan(cfg, path, f))
  {
    if files == [] {
      assert files + [f] == [f];
    } else {
      assert (files + [f])[1..] == files[1..] + [f];
      FilesPlanSnoc(cfg, path, files[1..], f);
      ThenAssoc(FilePlan(cfg, path, files[0]), FilesPlan(cfg, path, files[1..]), FilePlan(cfg, path, f));
    }
  }

  lemma WalkFramesAppend(cfg: Config, a: seq<Frame>, b: seq<Frame>)
    ensures WalkFrames(cfg, a + b) == WalkFrames(cfg, a).Then(WalkFrames(cfg, b))
  {
    if a == [] {
      assert a + b == b;
    } else {
      assert (a + b)[1..] == a[1..] + b;
      WalkFramesAppend(cfg, a[1..], b);
      ThenAssoc(WalkTree(cfg, a[0].path, a[0].dir), WalkFrames(cfg, a[1..]), WalkFrames(cfg, b));
    }
  }

  /** Processing the first frame of the stack and pushing its children keeps
      the plan still to come. */
  lemma WalkStep(cfg: Config, f: Frame, rest: seq<Frame>, pre: Plan)
    ensures var children := ChildFrames(f.path, Prune(f.dir.subdirs, cfg.excludeDirs));
      pre.Then(LocalPlan(cfg, f.path, f.dir)).Then(WalkFrames(cfg, children + rest))
      == pre.Then(WalkFrames(cfg, [f] + rest))
  {
    var children := ChildFrames(f.path, Prune(f.dir.subdirs, cfg.excludeDirs));
    var local := LocalPlan(cfg, f.path, f.dir);
    assert ([f] + rest)[0] == f && ([f] + rest)[1..] == rest;
    assert WalkFrames(cfg, [f] + rest) == WalkTree(cfg, f.path, f.dir).Then(WalkFrames(cfg, rest));
    WalkFramesAppend(cfg, children, rest);
    ThenAssoc(local, WalkFrames(cfg, children), WalkFrames(cfg, rest));
    ThenAssoc(pre, local, WalkFrames(cfg, children).Then(WalkFrames(cfg, rest)));
    ThenAssoc(pre, local.Then(WalkFrames(cfg, children)), WalkFrames(cfg, rest));
  }

  lemma ThenNoPlan(p: Plan)
    ensures p.Then(NoPlan) == p && NoPlan.Then(p) == p
  {
    assert p.markers + [] == p.markers && [] + p.markers == p.markers;
    assert p.mirrored + [] == p.mirrored && [] + p.mirrored == p.mirrored;
    assert p.copies + [] == p.copies && [] + p.copies == p.copies;
    assert p.extModules + [] == p.extModules && [] + p.extModules == p.extModules;
  }

  lemma ThenAssoc(x: Plan, y: Plan, z: Plan)
    ensures x.Then(y).Then(z) == x.Then(y.Then(z))
  {
  }

  lemma SumSizeAppend(a: seq<Frame>, b: seq<Frame>)
    ensures SumSize(a + b) == SumSize(a) + SumSize(b)
  {
    if a == [] {
      assert a + b == b;
    } else {
      assert (a + b)[1..] == a[1..] + b;
      SumSizeAppend(a[1..], b);
    }
  }

  lemma LocalPlanParts(cfg: Config, f: Frame, markers: seq<string>, made: seq<string>,
                       copies: seq<CopyOp>, extModules: seq<string>)
    requires markers == MarkerPaths(f.path, Prune(f.dir.subdirs, cfg.excludeDirs))
    requires made == MirrorPaths(cfg, f.path, Prune(f.dir.subdirs, cfg.excludeDirs))
    requires copies == FilesPlan(cfg, f.path, f.dir.files).copies
    requires extModules == FilesPlan(cfg, f.path, f.dir.files).extModules
    ensures Plan(markers, made, copies, extModules) == LocalPlan(cfg, f.path, f.dir)
  {
    PlanThenFiles(markers, made, FilesPlan(cfg, f.path, f.dir.files));
  }

  /** Markers and mirrors followed by a plan of copies and modules only. */
  lemma PlanThenFiles(markers: seq<string>, made: seq<string>, fp: Plan)
    requires fp.markers == [] && fp.mirrored == []
    ensures Plan(markers, made, [], []).Then(fp) == Plan(markers, made, fp.copies, fp.extModules)
  {
    assert markers + fp.markers == markers && made + fp.mirrored == made;
  }

  lemma ChildFramesValid(cfg: Config, f: Frame)
    requires ValidTree(f.dir)
    ensures forall g :: g in ChildFrames(f.path, Prune(f.dir.subdirs, cfg.excludeDirs)) ==> ValidTree(g.dir)
  {
    var kids := Prune(f.dir.subdirs, cfg.excludeDirs);
    var cs := ChildFrames(f.path, kids);
    forall g | g in cs ensures ValidTree(g.dir) {
      var k :| 0 <= k < |cs| && cs[k] == g;
      assert kids[k] in f.dir.subdirs;
      TouchedValid(kids[k]);
    }
  }

  lemma TouchedValid(d: Dir)
    requires ValidTree(d)
    ensures ValidTree(Touched(d))
  {
    if InitFile !in d.files {
      var fs := d.files + [InitFile];
      assert forall i :: 0 <= i < |d.files| ==> fs[i] == d.files[i];
    }
  }

  /** Replacing a frame by the frames of its kept subdirectories makes the
      stack smaller and keeps every frame a valid tree. */
  lemma PushChildren(cfg: Config, f: Frame, rest: seq<Frame>)
    requires ValidTree(f.dir) && forall g :: g in rest ==> ValidTree(g.dir)
    ensures var children := ChildFrames(f.path, Prune(f.dir.subdirs, cfg.excludeDirs));
      && SumSize(children + rest) < SumSize([f] + rest)
      && forall g :: g in children + rest ==> ValidTree(g.dir)
  {
    var children := ChildFrames(f.path, Prune(f.dir.subdirs, cfg.excludeDirs));
    ChildFramesValid(cfg, f);
    SumSizeAppend(children, rest);
    SumSizeCons(f, rest);
  }

  lemma SumSizeCons(f: Frame, rest: seq<Frame>)
    ensures SumSize([f] + rest) == Size(f.dir) + SumSize(rest)
  {
    assert ([f] + rest)[1..] == rest;
  }

  /** One visit of the walk: the markers, the mirrors and the file decisions
      for the directory `f`, as `LocalPlan` describes them. */
  method VisitDir(cfg: Config, f: Frame) returns (local: Plan)
    requires forall n :: n in f.dir.files ==> ValidName(n)
    ensures local == LocalPlan(cfg, f.path, f.dir)
  {
    var dirs := Prune(f.dir.subdirs, cfg.excludeDirs);
    var markers := CreateMarkers(f.path, dirs);
    var made := MirrorDirs(cfg, f.path, dirs);
    var copies, extModules := ProcessFiles(cfg, f.path, f.dir.files);
    LocalPlanParts(cfg, f, markers, made, copies, extModules);
    local := Plan(markers, made, copies, extModules);
  }

  /** One pass of the walk's loop keeps the plan decided so far followed by
      the plan still to come equal to the whole walk's plan. */
  lemma StepKeepsGoal(cfg: Config, root: Dir, f: Frame, rest: seq<Frame>, plan0: Plan,
                      wasMade: bool, mirrored: seq<string>)
    requires wasMade ==> plan0.Then(WalkFrames(cfg, [f] + rest))
                         == Plan([], [BuildDir(cfg)], [], []).Then(WalkTree(cfg, cfg.curDir, root))
    requires !wasMade ==> plan0 == NoPlan && [f] + rest == [Frame(cfg.curDir, root)]
    requires mirrored == if wasMade then [] else [BuildDir(cfg)]
    ensures plan0.Then(Plan([], mirrored, [], [])).Then(LocalPlan(cfg, f.path, f.dir))
              .Then(WalkFrames(cfg, ChildFrames(f.path, Prune(f.dir.subdirs, cfg.excludeDirs)) + rest))
            == Plan([], [BuildDir(cfg)], [], []).Then(WalkTree(cfg, cfg.curDir, root))
  {
    var goal := Plan([], [BuildDir(cfg)], [], []).Then(WalkTree(cfg, cfg.curDir, root));
    var pre := plan0.Then(Plan([], mirrored, [], []));
    ThenNoPlan(plan0);
    ThenNoPlan(Plan([], mirrored, [], []));
    assert pre == if wasMade then plan0 else Plan([], [BuildDir(cfg)], [], []);
    assert pre.Then(WalkFrames(cfg, [f] + rest)) == goal by {
      if !wasMade {
        assert ([f] + rest)[1..] == [];
        ThenNoPlan(WalkTree(cfg, f.path, f.dir));
      }
    }
    WalkStep(cfg, f, rest, pre);
  }

  /** The top-down walk (`os.walk(cur_dir, topdown=True)`), with `os.walk`'s
      own recursion made explicit as a stack of frames. The build directory
      is created when the first directory is processed. */
  method Walk(cfg: Config, root: Dir) returns (plan: Plan)
    requires ValidTree(root)
    ensures plan == Plan([], [BuildDir(cfg)], [], []).Then(WalkTree(cfg, cfg.curDir, root))
  {
    ghost var goal := Plan([], [BuildDir(cfg)], [], []).Then(WalkTree(cfg, cfg.curDir, root));
    plan := NoPlan;
    var buildDirMade := false;
    var stack := [Frame(cfg.curDir, root)];
    while stack != []
      invariant forall g :: g in stack ==> ValidTree(g.dir)
      invariant !buildDirMade ==> plan == NoPlan && stack == [Frame(cfg.curDir, root)]
      invariant buildDirMade ==> plan.Then(WalkFrames(cfg, stack)) == goal
      decreases SumSize(stack)
    {
      var f := stack[0];
      var rest := stack[1..];
      ghost var plan0 := plan;
      ghost var wasMade := buildDirMade;
      var mirrored := [];
      if !buildDirMade {
        mirrored := [BuildDir(cfg)];
        buildDirMade := true;
      }
      var local := VisitDir(cfg, f);
      plan := plan.Then(Plan([], mirrored, [], [])).Then(local);
      var children := ChildFrames(f.path, Prune(f.dir.subdirs, cfg.excludeDirs));
      assert stack == [f] + rest;
      StepKeepsGoal(cfg, root, f, rest, plan0, wasMade, mirrored);
      PushChildren(cfg, f, rest);
      stack := children + rest;
    }
  }

  // The cleanup after a successful compilation.

  /** The C sources of one directory listing, by path. */
  function CSources(path: string, files: seq<string>): (r: seq<string>)
    ensures forall x :: x in r ==> EndsWith(x, ".c")
  {
    if files == [] then []
    else
      (if EndsWith(files[0], ".c") then JoinEndsWith(path, files[0], ".c"); [Join(path, files[0])] else [])
      + CSources(path, files[1..])
  }

  /** The frames of the kept subdirectories of the directory at `path`, as
      the cleanup walk lists them (it creates nothing). */
  function PlainFrames(path: string, kids: seq<Dir>): (r: seq<Frame>)
    ensures |r| == |kids|
    ensures forall i :: 0 <= i < |kids| ==> r[i] == Frame(Join(path, kids[i].name), kids[i])
    ensures SumSize(r) == DirsSize(kids)
  {
    if kids == [] then []
    else [Frame(Join(path, kids[0].name), kids[0])] + PlainFrames(path, kids[1..])
  }

  /** The files the cleanup walk deletes below the directory at `path`, in
      walking order. */
  function CleanupTree(cfg: Config, path: string, d: Dir): (r: seq<string>)
    ensures forall x :: x in r ==> EndsWith(x, ".c")
    decreases Size(d), 0
  {
    CSources(path, d.files)
      + CleanupFrames(cfg, PlainFrames(path, Prune(d.subdirs, cfg.excludeDirs)))
  }

  function CleanupFrames(cfg: Config, fs: seq<Frame>): (r: seq<string>)
    ensures forall x :: x in r ==> EndsWith(x, ".c")
    decreases SumSize(fs), 1
  {
    if fs == [] then []
    else CleanupTree(cfg, fs[0].path, fs[0].dir) + CleanupFrames(cfg, fs[1..])
  }

  /** The file loop of the cleanup: deletes the C sources of one listing. */
  method UnlinkCSources(path: string, files: seq<string>) returns (unlinked: seq<string>)
    ensures unlinked == CSources(path, files)
  {
    unlinked := [];
    for i := 0 to |files|
      invariant unlinked + CSources(path, files[i..]) == CSources(path, files)
    {
      assert files[i..][1..] == files[i + 1..];
      ghost var before := unlinked;
      ghost var step := if EndsWith(files[i], ".c") then [Join(path, files[i])] else [];
      assert CSources(path, files[i..]) == step + CSources(path, files[i + 1..]);
      if EndsWith(files[i], ".c") {
        unlinked := unlinked + [Join(path, files[i])];
      }
      assert unlinked == before + step;
    }
  }

  lemma CleanupFramesAppend(cfg: Config, a: seq<Frame>, b: seq<Frame>)
    ensures CleanupFrames(cfg, a + b) == CleanupFrames(cfg, a) + CleanupFrames(cfg, b)
  {
    if a == [] {
      assert a + b == b;
    } else {
      assert (a + b)[0] == a[0] && (a + b)[1..] == a[1..] + b;
      CleanupFramesAppend(cfg, a[1..], b);
    }
  }

  /** Visiting the first frame of the stack and pushing its children keeps
      the deletions still to come. */
  lemma CleanupStep(cfg: Config, f: Frame, rest: seq<Frame>, done: seq<string>)
    ensures var children := PlainFrames(f.path, Prune(f.dir.subdirs, cfg.excludeDirs));
      done + CSources(f.path, f.dir.files) + CleanupFrames(cfg, children + rest)
      == done + CleanupFrames(cfg, [f] + rest)
  {
    var children := PlainFrames(f.path, Prune(f.dir.subdirs, cfg.excludeDirs));
    var cs := CSources(f.path, f.dir.files);
    var ch := CleanupFrames(cfg, children);
    var r := CleanupFrames(cfg, rest);
    CleanupFramesCons(cfg, f, rest);
    CleanupFramesAppend(cfg, children, rest);
    SeqAssoc(done, cs, ch, r);
  }

  lemma CleanupFramesCons(cfg: Config, f: Frame, rest: seq<Frame>)
    ensures CleanupFrames(cfg, [f] + rest) == CleanupTree(cfg, f.path, f.dir) + CleanupFrames(cfg, rest)
  {
    assert ([f] + rest)[0] == f && ([f] + rest)[1..] == rest;
  }

  lemma SeqAssoc(a: seq<string>, b: seq<string>, c: seq<string>, d: seq<string>)
    ensures a + b + (c + d) == a + ((b + c) + d)
  {
  }

  /** The cleanup walk (`os.walk(cur_dir)`, pruned like the build walk),
      deleting every file whose name ends with `.c`. */
  method Cleanup(cfg: Config, root: Dir) returns (unlinked: seq<string>)
    ensures unlinked == CleanupTree(cfg, cfg.curDir, root)
  {
    unlinked := [];
    var stack := [Frame(cfg.curDir, root)];
    assert CleanupFrames(cfg, stack) == CleanupTree(cfg, cfg.curDir, root) + [];
    while stack != []
      invariant unlinked + CleanupFrames(cfg, stack) == CleanupTree(cfg, cfg.curDir, root)
      decreases SumSize(stack)
    {
      var f := stack[0];
      var rest := stack[1..];
      var dirs := Prune(f.dir.subdirs, cfg.excludeDirs);
      var deleted := UnlinkCSources(f.path, f.dir.files);
      var children := PlainFrames(f.path, dirs);
      assert stack == [f] + rest;
      CleanupStep(cfg, f, rest, unlinked);
      SumSizeAppend(children, rest);
      unlinked := unlinked + deleted;
      stack := children + rest;
    }
  }

  // Suicide mode.

  /** Suicide mode: the walk keeps only the subdirectory named like the build
      directory out of its descent, removes every other subdirectory of
      `cur_dir` whole and deletes every file of `cur_dir`. It descends into
      the removed subdirectories, which are gone by then and list nothing. */
  method Suicide(cfg: Config, root: Dir) returns (removedDirs: seq<string>, removedFiles: seq<string>)
    ensures forall x :: x in removedDirs <==>
      exists c :: c in root.subdirs && c.name != BuildName && x == Join(cfg.curDir, c.name)
    ensures |removedFiles| == |root.files|
    ensures forall i :: 0 <= i < |root.files| ==> removedFiles[i] == Join(cfg.curDir, root.files[i])
  {
    removedDirs := [];
    for i := 0 to |root.subdirs|
      invariant forall x :: x in removedDirs <==>
        exists k :: 0 <= k < i && root.subdirs[k].name != BuildName && x == Join(cfg.curDir, root.subdirs[k].name)
    {
      if root.subdirs[i].name != BuildName {
        removedDirs := removedDirs + [Join(cfg.curDir, root.subdirs[i].name)];
      }
    }
    removedFiles := [];
    for i := 0 to |root.files|
      invariant |removedFiles| == i
      invariant forall k :: 0 <= k < i ==> removedFiles[k] == Join(cfg.curDir, root.files[k])
    {
      removedFiles := removedFiles + [Join(cfg.curDir, root.files[i])];
    }
  }

  // The whole run.

  /** How a run of the script ends. */
  datatype Outcome =
    | MissingCython
    | BuildDirPresent
    | BuildPathIsFile(markers: seq<string>)
    | CompileFailed(plan: Plan)
    | TempDirMissing(plan: Plan, tempDir: string)
    | Finished(plan: Plan, cleaned: seq<string>, removedDirs: seq<string>, removedFiles: seq<string>)
  {
    /** The process exit status. */
    function ExitCode(): int {
      if Finished? then 0 else 1
    }
  }

  /** `cur_dir` lists a directory named `build` (`os.path.isdir(build_dir)`). */
  predicate HasBuildDir(root: Dir) {
    exists c :: c in root.subdirs && c.name == BuildName
  }

  /** The files of a listing whose names do not end with `.c`. */
  function WithoutCSources(files: seq<string>): (r: seq<string>)
    ensures forall n :: n in r <==> n in files && !EndsWith(n, ".c")
  {
    if files == [] then []
    else (if EndsWith(files[0], ".c") then [] else [files[0]]) + WithoutCSources(files[1..])
  }

  /** A run of the script on the project tree `root`. Whether Cython can be
      imported and whether compilation succeeds are inputs; `built` is the
      project tree as the cleanup walk lists it, after compilation and after
      `build/temp` has been removed; `suicide` is the script's `SUICIDE`
      switch. After a successful compilation `build/temp` exists when some
      module was compiled or when the walk created it as the mirror of a
      kept package `temp`: with no extensions, distutils' `build_ext` returns
      before creating it, and the unguarded `shutil.rmtree` then raises. */
  method Run(cfg: Config, root: Dir, cythonInstalled: bool, compileOk: bool,
             built: Dir, suicide: bool) returns (o: Outcome)
    requires ValidTree(root)
    ensures o.ExitCode() == 0 <==>
      && cythonInstalled && !HasBuildDir(root) && BuildName !in root.files && compileOk
      && (|| WalkTree(cfg, cfg.curDir, root).extModules != []
          || BuildTmpDir(cfg) in WalkTree(cfg, cfg.curDir, root).mirrored)
    ensures !cythonInstalled ==> o == MissingCython
    ensures cythonInstalled && HasBuildDir(root) ==> o == BuildDirPresent
    ensures cythonInstalled && !HasBuildDir(root) && BuildName in root.files ==>
      o == BuildPathIsFile(MarkerPaths(cfg.curDir, Prune(root.subdirs, cfg.excludeDirs)))
    ensures o.CompileFailed? || o.TempDirMissing? || o.Finished? ==>
      o.plan == Plan([], [BuildDir(cfg)], [], []).Then(WalkTree(cfg, cfg.curDir, root))
    ensures o.TempDirMissing? ==> o.tempDir == BuildTmpDir(cfg)
    ensures o.Finished? ==> o.cleaned == CleanupTree(cfg, cfg.curDir, built)
    ensures o.Finished? && !suicide ==> o.removedDirs == [] && o.removedFiles == []
    ensures o.Finished? && suicide ==>
      && (forall x :: x in o.removedDirs <==>
            exists c :: c in built.subdirs && c.name != BuildName && x == Join(cfg.curDir, c.name))
      && (forall x :: x in o.removedFiles <==>
            exists n :: n in built.files && !EndsWith(n, ".c") && x == Join(cfg.curDir, n))
  {
    if !cythonInstalled {
      return MissingCython;
    }
    if exists c :: c in root.subdirs && c.name == BuildName {
      return BuildDirPresent;
    }
    if BuildName in root.files {
      // The markers of the first directory are touched before `os.mkdir`
      // fails on the existing file.
      var markers := CreateMarkers(cfg.curDir, Prune(root.subdirs, cfg.excludeDirs));
      return BuildPathIsFile(markers);
    }
    var plan := Walk(cfg, root);
    if !compileOk {
      return CompileFailed(plan);
    }
    assert BuildTmpDir(cfg) != BuildDir(cfg) by {
      assert |BuildTmpDir(cfg)| > |BuildDir(cfg)|;
    }
    if plan.extModules == [] && BuildTmpDir(cfg) !in plan.mirrored {
      return TempDirMissing(plan, BuildTmpDir(cfg));
    }
    var cleaned := Cleanup(cfg, built);
    var removedDirs, removedFiles := [], [];
    if suicide {
      var left := built.(files := WithoutCSources(built.files));
      removedDirs, removedFiles := Suicide(cfg, left);
      forall x | x in removedFiles
        ensures exists n :: n in built.files && !EndsWith(n, ".c") && x == Join(cfg.curDir, n)
      {
        var i :| 0 <= i < |removedFiles| && removedFiles[i] == x;
        assert left.files[i] in left.files;
      }
      forall n | n in built.files && !EndsWith(n, ".c")
        ensures Join(cfg.curDir, n) in removedFiles
      {
        var i :| 0 <= i < |left.files| && left.files[i] == n;
        assert removedFiles[i] == Join(cfg.curDir, n);
      }
    }
    return Finished(plan, cleaned, removedDirs, removedFiles);
  }
}
