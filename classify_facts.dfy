/** What the per-file decision of the build script promises: which files are
    queued for compilation, which are copied verbatim, which are skipped, and
    how the two kinds of exclusion (literal for `.py` files, by pattern for
    the others) differ. */
module ClassifyFacts {
  import opened PyPath
  import opened Glob
  import opened BuildIt

  /** `__init__.py` has the extension `.py`. */
  lemma InitFileIsPy()
    ensures IsPy(InitFile)
  {
    PyExtension(InitFile);
    assert InitFile[0] != '.';
    assert EndsWith(InitFile, ".py");
  }

  /** A package marker is both copied verbatim (so the built package stays
      importable) and queued for compilation, unless the settings exclude it
      or the script itself carries that name. */
  lemma InitFileCopiedAndCompiled(cfg: Config)
    requires InitFile !in cfg.excludeFiles && cfg.setupFile != InitFile
    ensures Classify(cfg, InitFile) == CopyAndCompile
  {
    InitFileIsPy();
  }

  /** The script is never queued for compilation; as a `.py` file that the
      settings do not list literally, it is not copied either. */
  lemma SetupFileNeverCompiled(cfg: Config)
    ensures !Classify(cfg, cfg.setupFile).Compiles()
    ensures IsPy(cfg.setupFile) && cfg.setupFile !in cfg.excludeFiles && cfg.setupFile != InitFile
      ==> Classify(cfg, cfg.setupFile) == Skip
  {
  }

  /** A `.py` file listed literally in `exclude_files` is copied, not compiled. */
  lemma LiterallyExcludedPyCopied(cfg: Config, n: string)
    requires IsPy(n) && n in cfg.excludeFiles
    ensures Classify(cfg, n) == Copy
  {
  }

  /** Patterns never exclude a `.py` file: adding entries to `exclude_files`
      that do not spell the name literally leaves its decision unchanged,
      even when they match it. */
  lemma PatternsIgnoredForPy(cfg: Config, n: string, more: seq<string>)
    requires IsPy(n) && n !in more
    ensures Classify(cfg.(excludeFiles := cfg.excludeFiles + more), n) == Classify(cfg, n)
  {
  }

  /** The quirk at its plainest: with `*.py` among the exclusions, a module is
      still compiled. */
  lemma StarPyDoesNotExcludeModules(cfg: Config)
    requires cfg.excludeFiles == ["*.py"] && cfg.setupFile != "mod.py"
    ensures Match("mod.py", "*.py") && Classify(cfg, "mod.py") == Compile
  {
    assert "*.py" == "*" + ".py";
    MatchStarSuffix("mod.py", ".py");
    assert EndsWith("mod.py", ".py");
    assert "mod.py" != "*.py";
    ModuleCompiled(cfg, "mod.py");
  }

  /** A file that is not a `.py` file is never compiled, and it is copied
      exactly when no pattern of `exclude_files` matches its name (skipped
      otherwise). */
  lemma NonPyCopiedIff(cfg: Config, n: string)
    requires !IsPy(n)
    ensures !Classify(cfg, n).Compiles()
    ensures Classify(cfg, n) == Copy <==> !AnyMatch(n, cfg.excludeFiles)
    ensures Classify(cfg, n) == Skip <==> AnyMatch(n, cfg.excludeFiles)
  {
  }

  /** The default exclusion patterns, spelled out: Markdown files, compiled
      bytecode and C sources by suffix, and three dotfiles or requirement
      files by name. */
  lemma DefaultExcludedIff(n: string)
    ensures AnyMatch(n, ExcludeFiles) <==>
      || EndsWith(n, ".md") || EndsWith(n, ".pyc") || EndsWith(n, ".c")
      || n == ".gitignore" || n == ".python-version" || n == "requirements.txt"
  {
    var pats := ExcludeFiles;
    DefaultPatternsOne(n);
    DefaultPatternsTwo(n);
    AnyMatchOfSix(n, pats);
  }

  lemma DefaultPatternsOne(n: string)
    ensures Match(n, ExcludeFiles[0]) <==> EndsWith(n, ".md")
    ensures Match(n, ExcludeFiles[4]) <==> EndsWith(n, ".pyc")
    ensures Match(n, ExcludeFiles[5]) <==> EndsWith(n, ".c")
  {
    var pats := ExcludeFiles;
    assert pats[0] == "*" + ".md" && pats[4] == "*" + ".pyc" && pats[5] == "*" + ".c";
    MatchStarSuffix(n, ".md");
    MatchStarSuffix(n, ".pyc");
    MatchStarSuffix(n, ".c");
  }

  lemma DefaultPatternsTwo(n: string)
    ensures Match(n, ExcludeFiles[1]) <==> n == ".gitignore"
    ensures Match(n, ExcludeFiles[2]) <==> n == ".python-version"
    ensures Match(n, ExcludeFiles[3]) <==> n == "requirements.txt"
  {
    var pats := ExcludeFiles;
    MatchLiteral(n, pats[1]);
    MatchLiteral(n, pats[2]);
    MatchLiteral(n, pats[3]);
  }

  /** Some pattern of a six-entry list matches exactly when one of its six
      entries does. */
  lemma AnyMatchOfSix(n: string, pats: seq<string>)
    requires |pats| == 6
    ensures AnyMatch(n, pats) <==>
      || Match(n, pats[0]) || Match(n, pats[1]) || Match(n, pats[2])
      || Match(n, pats[3]) || Match(n, pats[4]) || Match(n, pats[5])
  {
    if AnyMatch(n, pats) {
      var p :| p in pats && Match(n, p);
      var i :| 0 <= i < 6 && pats[i] == p;
    }
  }

  /** A name that ends with a suffix whose last character is not `y` is not
      a `.py` file. */
  lemma NotPyBySuffix(n: string, suffix: string)
    requires '/' !in n && EndsWith(n, suffix)
    requires suffix != [] && suffix[|suffix| - 1] != 'y'
    ensures !IsPy(n)
  {
    PyExtension(n);
    assert n[|n| - 1] == suffix[|suffix| - 1];
  }

  /** The default settings skip every file the exclusion list was written
      for: Markdown files, compiled bytecode, C sources and the three named
      files. */
  lemma DefaultSkips(curDir: string, setupFile: string, n: string)
    requires '/' !in n
    requires || EndsWith(n, ".md") || EndsWith(n, ".pyc") || EndsWith(n, ".c")
             || n == ".gitignore" || n == ".python-version" || n == "requirements.txt"
    ensures Classify(DefaultConfig(curDir, setupFile), n) == Skip
  {
    DefaultExcludedIff(n);
    assert n != [] && n[|n| - 1] != 'y';
    NotPyBySuffix(n, n[|n| - 1..]);
  }

  /** The default settings copy a data file. */
  lemma DefaultCopiesData(curDir: string, setupFile: string)
    ensures Classify(DefaultConfig(curDir, setupFile), "data.txt") == Copy
  {
    DefaultExcludedIff("data.txt");
    assert EndsWith("data.txt", "txt");
    NotPyBySuffix("data.txt", "txt");
    assert !EndsWith("data.txt", ".md") && !EndsWith("data.txt", ".pyc") && !EndsWith("data.txt", ".c");
  }

  /** A module whose name the settings do not list is compiled. */
  lemma ModuleCompiled(cfg: Config, n: string)
    requires '/' !in n && |n| > 3 && n[0] != '.' && EndsWith(n, ".py")
    requires n !in cfg.excludeFiles && n != cfg.setupFile && n != InitFile
    ensures Classify(cfg, n) == Compile
  {
    PyExtension(n);
  }

  /** Under the default settings, `mod.py` is compiled. */
  lemma DefaultCompilesModule(curDir: string, setupFile: string)
    requires setupFile != "mod.py"
    ensures Classify(DefaultConfig(curDir, setupFile), "mod.py") == Compile
  {
    assert EndsWith("mod.py", ".py");
    NoDefaultEndsInY("mod.py");
    ModuleCompiled(DefaultConfig(curDir, setupFile), "mod.py");
  }

  /** No default exclusion ends in `y`, so none spells a `.py` name. */
  lemma NoDefaultEndsInY(n: string)
    requires n != [] && n[|n| - 1] == 'y'
    ensures n !in ExcludeFiles
  {
    assert forall p :: p in ExcludeFiles ==> p[|p| - 1] != 'y';
  }

  /** C sources, which the cleanup deletes after compiling, are the files the
      `*.c` pattern matches; under the default settings the walk never copies
      them into the build directory. */
  lemma CSourcesNeverCopied(curDir: string, setupFile: string, n: string)
    requires '/' !in n
    ensures EndsWith(n, ".c") <==> Match(n, "*.c")
    ensures EndsWith(n, ".c") ==> Classify(DefaultConfig(curDir, setupFile), n) == Skip
  {
    assert "*.c" == "*" + ".c";
    MatchStarSuffix(n, ".c");
    if EndsWith(n, ".c") {
      DefaultSkips(curDir, setupFile, n);
    }
  }
}
