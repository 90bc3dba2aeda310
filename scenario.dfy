/** A small project under the default settings: `/proj` holds the script
    `build_it.py`, a `README.md` and a package `pkg` with `__init__.py`,
    `mod.py` and `data.txt`. The walk creates the build directory and the
    mirror of `pkg`, copies the package marker and the data file into that
    mirror, queues the marker and the module for compilation, and leaves
    `README.md` and the script alone. */
module Scenario {
  import opened PyPath
  import opened BuildIt
  import opened ClassifyFacts

  const Setup := "build_it.py"
  const Cfg := DefaultConfig("/proj", Setup)
  const Pkg := Dir("pkg", [], [InitFile, "mod.py", "data.txt"])
  const Root := Dir("proj", [Pkg], ["README.md", Setup])

  /** The script itself is skipped. */
  lemma ScriptSkipped()
    ensures Classify(Cfg, Setup) == Skip
  {
    assert Setup[|Setup| - 1] == 'y';
    NoDefaultEndsInY(Setup);
    PyExtension(Setup);
    assert Setup[0] != '.' && EndsWith(Setup, ".py");
    SetupFileNeverCompiled(Cfg);
  }

  /** The package marker is copied and compiled. */
  lemma MarkerCopiedAndCompiled()
    ensures Classify(Cfg, InitFile) == CopyAndCompile
  {
    assert InitFile[|InitFile| - 1] == 'y';
    NoDefaultEndsInY(InitFile);
    InitFileCopiedAndCompiled(Cfg);
  }

  /** How the walk's plan for one file follows from its decision. */
  lemma FilePlanOf(cfg: Config, path: string, n: string, a: Action)
    requires Classify(cfg, n) == a
    ensures FilePlan(cfg, path, n) == Plan([], [],
      if a.Copies() then [CopyOp(Join(path, n), MirrorPath(cfg, path))] else [],
      if a.Compiles() then [Join(path, n)] else [])
  {
  }

  /** Two files are decided one after the other. */
  lemma FilesPlanOfTwo(cfg: Config, path: string, a: string, b: string)
    ensures FilesPlan(cfg, path, [a, b]) == FilePlan(cfg, path, a).Then(FilePlan(cfg, path, b))
  {
    var fb := FilePlan(cfg, path, b);
    assert [a, b][1..] == [b] && [b][1..] == [];
    assert FilesPlan(cfg, path, [b]) == fb.Then(NoPlan) == fb;
  }

  /** Three files are decided one after the other. */
  lemma FilesPlanOfThree(cfg: Config, path: string, a: string, b: string, c: string)
    ensures FilesPlan(cfg, path, [a, b, c])
      == FilePlan(cfg, path, a).Then(FilePlan(cfg, path, b).Then(FilePlan(cfg, path, c)))
  {
    assert [a, b, c][1..] == [b, c];
    FilesPlanOfTwo(cfg, path, b, c);
  }

  /** A directory with one kept subdirectory that already has its marker:
      only the mirror of that subdirectory precedes the files. */
  lemma LocalPlanOneKid(cfg: Config, path: string, d: Dir, k: Dir)
    requires d.subdirs == [k] && k.name !in cfg.excludeDirs && InitFile in k.files
    ensures Prune(d.subdirs, cfg.excludeDirs) == [k]
    ensures LocalPlan(cfg, path, d)
      == Plan([], [MirrorPath(cfg, Join(path, k.name))], [], []).Then(FilesPlan(cfg, path, d.files))
  {
    assert [k][1..] == [];
    assert Prune([k], cfg.excludeDirs) == [k] + Prune([], cfg.excludeDirs);
    assert MarkerPaths(path, [k]) == [] + MarkerPaths(path, []);
    assert MirrorPaths(cfg, path, [k]) == [MirrorPath(cfg, Join(path, k.name))] + MirrorPaths(cfg, path, []);
  }

  /** A directory with one such subdirectory, itself a leaf: the walk decides
      the parent's effects, then the child's. */
  lemma WalkOneLeaf(cfg: Config, path: string, d: Dir, k: Dir)
    requires d.subdirs == [k] && k.name !in cfg.excludeDirs && InitFile in k.files && k.subdirs == []
    ensures WalkTree(cfg, path, d) == LocalPlan(cfg, path, d).Then(LocalPlan(cfg, Join(path, k.name), k))
  {
    LocalPlanOneKid(cfg, path, d, k);
    var cs := ChildFrames(path, [k]);
    assert Touched(k) == k;
    assert cs == [Frame(Join(path, k.name), k)];
    assert cs[1..] == [];
    var lk := LocalPlan(cfg, Join(path, k.name), k);
    assert WalkTree(cfg, Join(path, k.name), k) == lk.Then(NoPlan) == lk;
    assert WalkFrames(cfg, cs) == lk.Then(NoPlan) == lk;
  }

  /** `pkg` is not an excluded directory name. */
  lemma PkgKept()
    ensures Pkg.name !in ExcludeDirs && Pkg.subdirs == [] && InitFile in Pkg.files
  {
    assert Pkg.files[0] == InitFile;
  }

  /** The mirror of the package directory. */
  lemma PkgMirror()
    ensures Join("/proj", "pkg") == "/proj/pkg"
    ensures MirrorPath(Cfg, "/proj/pkg") == "/proj/build/pkg"
    ensures BuildDir(Cfg) == "/proj/build"
  {
    assert "/proj" <= "/proj/pkg";
    assert "/proj/pkg"[5..] == "/pkg";
  }

  /** The paths of the package's files. */
  lemma PkgFilePaths()
    ensures Join("/proj/pkg", InitFile) == "/proj/pkg/__init__.py"
    ensures Join("/proj/pkg", "mod.py") == "/proj/pkg/mod.py"
    ensures Join("/proj/pkg", "data.txt") == "/proj/pkg/data.txt"
  {
  }

  /** The two files of `/proj` are both skipped. */
  lemma RootFilesPlan()
    ensures FilesPlan(Cfg, "/proj", Root.files) == NoPlan
  {
    assert EndsWith("README.md", ".md");
    DefaultSkips("/proj", Setup, "README.md");
    ScriptSkipped();
    FilePlanOf(Cfg, "/proj", "README.md", Skip);
    FilePlanOf(Cfg, "/proj", Setup, Skip);
    FilesPlanOfTwo(Cfg, "/proj", "README.md", Setup);
  }

  /** What the walk decides in `/proj` itself. */
  lemma RootLocalPlan()
    ensures LocalPlan(Cfg, "/proj", Root) == Plan([], ["/proj/build/pkg"], [], [])
  {
    PkgKept();
    PkgMirror();
    RootFilesPlan();
    LocalPlanOneKid(Cfg, "/proj", Root, Pkg);
  }

  /** The three files of `/proj/pkg`: the marker is copied and compiled, the
      module compiled and the data file copied. */
  lemma PkgFilesPlan()
    ensures FilesPlan(Cfg, "/proj/pkg", Pkg.files) == Plan([], [],
      [CopyOp(Join("/proj/pkg", InitFile), "/proj/build/pkg"), CopyOp(Join("/proj/pkg", "data.txt"), "/proj/build/pkg")],
      [Join("/proj/pkg", InitFile), Join("/proj/pkg", "mod.py")])
  {
    PkgMirror();
    MarkerCopiedAndCompiled();
    DefaultCompilesModule("/proj", Setup);
    DefaultCopiesData("/proj", Setup);
    PackagePlan(Cfg, "/proj/pkg", InitFile, "mod.py", "data.txt", "/proj/build/pkg");
  }

  /** A package directory holding a marker, a module and a data file, in
      that order: both copies go to its mirror, both `.py` files are queued. */
  lemma PackagePlan(cfg: Config, path: string, marker: string, py: string, data: string, target: string)
    requires MirrorPath(cfg, path) == target
    requires Classify(cfg, marker) == CopyAndCompile
    requires Classify(cfg, py) == Compile
    requires Classify(cfg, data) == Copy
    ensures FilesPlan(cfg, path, [marker, py, data]) == Plan([], [],
      [CopyOp(Join(path, marker), target), CopyOp(Join(path, data), target)],
      [Join(path, marker), Join(path, py)])
  {
    FilePlanOf(cfg, path, marker, CopyAndCompile);
    FilePlanOf(cfg, path, py, Compile);
    FilePlanOf(cfg, path, data, Copy);
    FilesPlanOfThree(cfg, path, marker, py, data);
  }

  /** What the walk decides in `/proj/pkg`. */
  lemma PkgLocalPlan()
    ensures LocalPlan(Cfg, "/proj/pkg", Pkg) == Plan([], [],
      [CopyOp("/proj/pkg/__init__.py", "/proj/build/pkg"), CopyOp("/proj/pkg/data.txt", "/proj/build/pkg")],
      ["/proj/pkg/__init__.py", "/proj/pkg/mod.py"])
  {
    PkgFilesPlan();
    PkgFilePaths();
    assert Prune(Pkg.subdirs, ExcludeDirs) == [];
  }

  /** The whole walk, with the build directory created first. */
  lemma ScenarioWalk()
    ensures BuildDir(Cfg) == "/proj/build"
    ensures Plan([], [BuildDir(Cfg)], [], []).Then(WalkTree(Cfg, "/proj", Root)) == Plan(
      [],
      ["/proj/build", "/proj/build/pkg"],
      [CopyOp("/proj/pkg/__init__.py", "/proj/build/pkg"), CopyOp("/proj/pkg/data.txt", "/proj/build/pkg")],
      ["/proj/pkg/__init__.py", "/proj/pkg/mod.py"])
  {
    PkgKept();
    PkgMirror();
    RootLocalPlan();
    PkgLocalPlan();
    WalkOneLeaf(Cfg, "/proj", Root, Pkg);
    var root := LocalPlan(Cfg, "/proj", Root);
    var pkg := LocalPlan(Cfg, "/proj/pkg", Pkg);
    assert WalkTree(Cfg, "/proj", Root) == root.Then(pkg);
    MirrorsThenFiles("/proj/build", "/proj/build/pkg", pkg.copies, pkg.extModules);
  }

  /** Two created directories, then copies and modules, make one plan. */
  lemma MirrorsThenFiles(b: string, m: string, c: seq<CopyOp>, e: seq<string>)
    ensures Plan([], [b], [], []).Then(Plan([], [m], [], []).Then(Plan([], [], c, e))) == Plan([], [b, m], c, e)
  {
  }
}
