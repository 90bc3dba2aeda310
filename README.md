# build_it: a verified model of the Cython build script's decisions

`build_it.py` turns a Python project into compiled extension modules. It sits
in the project directory (`cur_dir`) and walks the directory top-down with
`os.walk`. In each directory it visits, it does four things:

- It prunes the subdirectories whose names are in `exclude_dirs`.
- It creates an empty `__init__.py` in every kept subdirectory that lacks one.
- It creates a mirror of every kept subdirectory under `cur_dir/build`.
- It decides for each file whether to queue it in `ext_modules` for
  compilation, copy it verbatim into the mirror, or skip it.

Then it hands `ext_modules` to Cython. After a successful compilation it
deletes every `*.c` file below `cur_dir`, walking with the same pruning. In
suicide mode it also removes everything in `cur_dir` except the build
directory.

This project models those decisions in Dafny and proves what they guarantee.
The modules are:

- `PyPath` (`pypath.dfy`): `os.path.join`, `os.path.splitext`,
  `str.endswith` and `str.replace` with POSIX semantics.
- `Glob` (`glob.dfy`): `fnmatch.fnmatch` with `*` and `?`.
- `BuildIt` (`build_it.dfy`): the settings and the per-file decision
  `Classify`. It also holds a specification of the walk:
  - `WalkTree` gives the effects as a `Plan` of markers, mirrored
    directories, copies and `ext_modules`.
  - `Visited` lists the directories the walk visits.
  - `CleanupTree` gives the cleanup's deletions.

  Beside these specifications are the imperative script itself:
  - `Walk` is the loop over an explicit stack of directories, with its
    per-directory loops.
  - `Cleanup` deletes the C sources.
  - `Suicide` is the removal in suicide mode.
  - `Run` is the whole run with its exit status.
- `WalkFacts`, `WalkPaths` (`walk_facts.dfy`, `walk_paths.dfy`): what the
  walk queues, copies, marks and mirrors, in terms of the tree. Also which
  directories it visits, and that `ext_modules` holds only `.py` files, each
  at most once.
- `ClassifyFacts` (`classify_facts.dfy`): the per-file decision. It covers
  the two kinds of exclusion: literal names for `.py` files, glob patterns
  for the others.
- `MirrorFacts` (`mirror_facts.dfy`): the mirror path and the
  `str.replace` defect described under Findings.
- `CleanupFacts` (`cleanup_facts.dfy`): which directories the cleanup walk
  visits and what it deletes there.
- `Scenario` (`scenario.dfy`): one concrete project, walked end to end.

A directory is a `Dir(name, subdirs, files)` value in listing order.
`ValidTree` states what a real listing guarantees: names are non-empty and
free of `/`, file names are distinct, and so are subdirectory names. Filesystem writes are not
performed. The walk returns them as a `Plan`, and the methods are proved
equal to the specification functions.

The two kinds of exclusion behave differently (`build_it.py:59`,
`build_it.py:69-73`). A `.py` name is tested for literal membership in
`exclude_files`, so `*.py` or `*.pyc` never excludes a module, and a listed
`.py` file is copied instead of compiled. A non-`.py` file that matches a
pattern is skipped, not copied.

## Model

| member | source | states |
|---|---|---|
| Glob.Match | build_it.py:70 | a pattern without `*` matches only names of its own length, and `*` alone matches every name |
| Glob.MatchLiteral | build_it.py:69-71 | a pattern without wildcards (`.gitignore`, `requirements.txt`) matches exactly the name it spells |
| Glob.MatchStarSuffix | build_it.py:69-71 | `*` followed by a literal suffix (`*.md`, `*.pyc`, `*.c`) matches exactly the names ending with that suffix |
| PyPath.PyExtension | build_it.py:58 | a name has extension `.py` iff it ends with `.py` and something other than dots precedes the suffix (`.py` and `..py` have none) |
| PyPath.ExtOfJoin | build_it.py:57-58 | the extension of `os.path.join(path, name)` is the extension of `name`, so the decision depends on the file name alone |
| PyPath.SplitExt | build_it.py:58 | root and extension concatenate back to the path |
| PyPath.SplitExtShape | build_it.py:58 | root and extension concatenate back to the path; the extension is empty or a dot followed by no dot and no separator |
| PyPath.Replace | build_it.py:54 | a replacement as long as the pattern keeps the length, and a string that starts with a non-empty pattern comes out starting with the replacement |
| PyPath.JoinEndsWith | build_it.py:99-100 | a joined path ends with every suffix its file name ends with |
| PyPath.ReplacePrefixOnce | build_it.py:54 | `str.replace` on a string that starts with the pattern and has no later occurrence rewrites exactly that prefix |
| BuildIt.DefaultConfig | build_it.py:25-31 | the settings keep `cur_dir` and the script's name; every excluded directory name is a plain entry name other than `build`; no exclusion pattern is empty |
| BuildIt.Classify | build_it.py:58-73 | a file is compiled iff it is `.py`, not literally excluded and not the script; a `.py` file is copied iff it is literally excluded or is `__init__.py`; a non-`.py` file is copied iff no pattern matches it |
| BuildIt.Visited | build_it.py:39-40 | the walk visits its starting directory first, and at most as many directories as the tree holds |
| BuildIt.Prune | build_it.py:40 | the kept subdirectories are exactly those whose names are not excluded, and the tree does not grow |
| BuildIt.Touched | build_it.py:42-47 | a kept subdirectory, as listed later, holds `__init__.py` plus its old files and nothing else |
| BuildIt.ChildFrames | build_it.py:39-40 | the walk descends into each kept subdirectory, under its joined path, in listing order |
| BuildIt.ExcludedByPattern | build_it.py:68-71 | the `_exclude` flag loop ends true iff some pattern of `exclude_files` fnmatches the name |
| BuildIt.CreateMarkers | build_it.py:42-47 | the touch loop creates `path/d/__init__.py` for exactly the kept subdirectories lacking one, in listing order |
| BuildIt.MirrorDirs | build_it.py:52-55 | the mkdir loop creates the mirror of every kept subdirectory, in listing order |
| BuildIt.ProcessFile | build_it.py:56-73 | one pass of the file loop copies and queues exactly what the decision `Classify` prescribes |
| BuildIt.ProcessFiles | build_it.py:56-73 | the file loop's copies and `ext_modules` additions are those of the directory's files in listing order |
| BuildIt.VisitDir | build_it.py:40-73 | one visit produces the markers, mirrors, copies and modules the walk specification assigns to that directory |
| BuildIt.Walk | build_it.py:39-73 | the loop over the explicit `os.walk` stack produces the build directory followed by the top-down walk's plan |
| BuildIt.CSources | build_it.py:98-100 | every path deleted from one listing ends with `.c` |
| BuildIt.CleanupTree | build_it.py:96-100 | every path the cleanup walk deletes ends with `.c` |
| BuildIt.UnlinkCSources | build_it.py:98-100 | the unlink loop deletes the files of one listing whose names end with `.c`, in order |
| BuildIt.Cleanup | build_it.py:96-100 | the cleanup walk deletes exactly the C sources of the pruned top-down walk, in walking order |
| BuildIt.Suicide | build_it.py:104-110 | suicide mode removes every subdirectory of `cur_dir` not named `build`, and every file listed in `cur_dir` |
| BuildIt.WithoutCSources | build_it.py:96-100 | the files left after the cleanup are those whose names do not end with `.c` |
| BuildIt.Run | build_it.py:15-110 | exit status 0 iff Cython imports, `cur_dir` lists no directory and no file named `build`, compilation succeeds and `build/temp` exists to be removed, because a module was queued or a kept package `temp` was mirrored onto it; a directory `build` stops the run first; a file `build` stops it at `os.mkdir` after the first directory's markers; with neither, the removal of `build/temp` fails; otherwise the plan is the walk's, the cleanup deletes the C sources and suicide mode removes the top level except `build` |
| WalkFacts.WalkTreeIsPlanOf | build_it.py:39-73 | the walk's effects are the per-directory effects concatenated in top-down visiting order, so `ext_modules` follows walk order |
| WalkFacts.WalkExtModules | build_it.py:56-64 | a path is in `ext_modules` iff it joins a visited directory and one of its files that is `.py`, not literally excluded and not the script |
| WalkFacts.WalkCopies | build_it.py:56-73 | a copy is planned iff it takes a file of a visited directory whose decision copies it into that directory's mirror |
| WalkFacts.WalkMarkers | build_it.py:42-47 | an `__init__.py` is created iff it belongs to a kept subdirectory of a visited directory that lacks one |
| WalkFacts.WalkMirrors | build_it.py:52-55 | a directory is mirrored iff it is a kept subdirectory of a visited directory |
| WalkFacts.WalkMirrorCount | build_it.py:39-55 | the walk creates exactly one mirror for every directory it visits below its start |
| WalkFacts.PruneSkips | build_it.py:40 | inserting a subdirectory with an excluded name anywhere leaves the pruned list unchanged |
| WalkFacts.ExcludedSubtreeIgnored | build_it.py:40 | a subdirectory with an excluded name, whatever it holds, changes neither the walk's effects nor the directories visited below the start |
| WalkFacts.VisitedChildren | build_it.py:39-40 | the walk visits every kept subdirectory of every directory it visits |
| WalkFacts.VisitedParents | build_it.py:39-40 | every visited directory other than the start is a kept subdirectory of a visited directory |
| WalkFacts.VisitedKept | build_it.py:40-47 | every visited directory below the start has a kept name and holds an `__init__.py` |
| WalkPaths.VisitedPaths | build_it.py:39-40 | on a valid tree the walk visits no path twice, and every visited path lies at or below the start |
| WalkPaths.WalkExtModulesDistinct | build_it.py:56-64 | on a valid tree `ext_modules` lists no file twice |
| WalkPaths.WalkExtModulesArePy | build_it.py:58-64 | every entry of `ext_modules` has extension `.py`, and none is the script |
| ClassifyFacts.InitFileIsPy | build_it.py:58-61 | `__init__.py` has the extension `.py` |
| ClassifyFacts.InitFileCopiedAndCompiled | build_it.py:59-64 | `__init__.py`, unless excluded or the script, is both copied and compiled |
| ClassifyFacts.SetupFileNeverCompiled | build_it.py:59-64 | the script is never compiled, and as a `.py` file that is not literally excluded it is not copied either |
| ClassifyFacts.LiterallyExcludedPyCopied | build_it.py:65-66 | a `.py` file listed literally in `exclude_files` is copied, not compiled |
| ClassifyFacts.PatternsIgnoredForPy | build_it.py:59 | adding entries to `exclude_files` that do not spell a `.py` name leaves its decision unchanged, even when they match it |
| ClassifyFacts.StarPyDoesNotExcludeModules | build_it.py:59-64 | with `*.py` as the only exclusion, `mod.py` matches it and is still compiled |
| ClassifyFacts.NonPyCopiedIff | build_it.py:67-73 | a non-`.py` file is never compiled; it is copied iff no pattern matches it, and skipped iff one does |
| ClassifyFacts.DefaultExcludedIff | build_it.py:31 | the default list matches exactly the names ending with `.md`, `.pyc` or `.c`, and the three named files |
| ClassifyFacts.NotPyBySuffix | build_it.py:58 | a name ending with a suffix whose last character is not `y` is not a `.py` file |
| ClassifyFacts.DefaultSkips | build_it.py:67-73 | under the default settings every Markdown, bytecode or C file and the three named files are skipped |
| ClassifyFacts.DefaultCopiesData | build_it.py:67-73 | under the default settings `data.txt` is copied |
| ClassifyFacts.ModuleCompiled | build_it.py:58-64 | a module name that is not listed, not the script and not `__init__.py` is compiled only |
| ClassifyFacts.DefaultCompilesModule | build_it.py:58-64 | under the default settings `mod.py` is compiled |
| ClassifyFacts.NoDefaultEndsInY | build_it.py:31 | no default exclusion ends with `y`, so none literally names a `.py` file |
| ClassifyFacts.CSourcesNeverCopied | build_it.py:69-73 | the names `*.c` matches are those ending with `.c`, and under the default settings such files are never copied |
| MirrorFacts.MirrorAsWritten | build_it.py:54 | for a non-empty `cur_dir`, the script's target for a path starting with `cur_dir` starts with the build directory |
| MirrorFacts.MirrorAsWrittenAgrees | build_it.py:54 | the script's `replace` and the prefix rewrite agree when `cur_dir` occurs only as the path's prefix |
| MirrorFacts.MirrorAsWrittenRewritesInnerOccurrence | build_it.py:54 | with `cur_dir` `/app`, the script mirrors `/app/app` to `/app/build/app/build` instead of `/app/build/app` |
| MirrorFacts.MirrorOfCurDir | build_it.py:62 | the mirror of `cur_dir`, where its own files are copied, is the build directory |
| MirrorFacts.MirrorOfJoin | build_it.py:53-54 | the mirror of `dir/name` is the mirror of `dir`, then `name` |
| MirrorFacts.MirrorUnderBuild | build_it.py:54 | paths at or below `cur_dir` are mirrored at or below the build directory, distinct paths to distinct mirrors |
| MirrorFacts.CopyTargetsCreated | build_it.py:49-73 | every copy goes into a directory the plan creates: the build directory or a mirror |
| MirrorFacts.ChildMirrorUnderBuild | build_it.py:53-54 | the mirror of a subdirectory of a path below `cur_dir` lies strictly below the build directory |
| MirrorFacts.WalkTargetsAsWritten | build_it.py:52-73 | when no visited path repeats `cur_dir` after its beginning, the walk's mirrors and copy destinations are exactly those the script's `str.replace` computes |
| MirrorFacts.TempPackageMirroredOntoTmpDir | build_it.py:52-55 | with `cur_dir` `/p` and a kept package `temp`, the walk creates `/p/build/temp` as that package's mirror, which is `build_tmp_dir` |
| MirrorFacts.NoMirrorIsTmpDir | build_it.py:52-55 | on a valid tree whose `cur_dir` keeps no subdirectory named `temp`, no directory the walk creates is `build_tmp_dir` |
| MirrorFacts.ChildMirrorNotTmpDir | build_it.py:53-54 | the mirror of a subdirectory is `build_tmp_dir` only for a subdirectory `temp` of `cur_dir` itself |
| MirrorFacts.MirrorsUnderBuild | build_it.py:52-55 | on a valid tree every mirror lies strictly below the build directory |
| CleanupFacts.CSourcesMembers | build_it.py:98-100 | a path is deleted from one listing iff it joins a file whose name ends with `.c` |
| CleanupFacts.CleanupTreeMembers | build_it.py:96-100 | the cleanup deletes a path iff it joins a directory its walk visits and a file there whose name ends with `.c` |
| CleanupFacts.CleanupFramesMembers | build_it.py:96-100 | the same for the walks of a list of directories |
| CleanupFacts.CleanupVisitsStart | build_it.py:96 | the cleanup walk visits `cur_dir` |
| CleanupFacts.CleanupVisitedChildren | build_it.py:96-97 | the cleanup walk visits every kept subdirectory of every directory it visits |
| CleanupFacts.CleanupVisitedParents | build_it.py:96-97 | every directory the cleanup walk visits other than `cur_dir` is a kept subdirectory of one it visits |
| CleanupFacts.CleanupDeletesTopLevelCSources | build_it.py:98-100 | every C source of `cur_dir` itself is deleted |
| CleanupFacts.CleanupIgnoresExcluded | build_it.py:97 | a subdirectory with an excluded name changes nothing the cleanup deletes |
| Scenario.ScriptSkipped | build_it.py:59-64 | in the example project the script `build_it.py` is skipped |
| Scenario.MarkerCopiedAndCompiled | build_it.py:59-64 | in the example project `__init__.py` is copied and compiled |
| Scenario.PkgMirror | build_it.py:54 | in the example project `/proj/pkg` is mirrored to `/proj/build/pkg` |
| Scenario.RootFilesPlan | build_it.py:56-73 | in the example project `README.md` and the script in `/proj` cause no copy and no module |
| Scenario.RootLocalPlan | build_it.py:39-73 | in `/proj` the walk only mirrors `pkg`, which already has its marker |
| Scenario.PkgFilesPlan | build_it.py:56-73 | in `/proj/pkg` the marker and the data file are copied, the marker and the module compiled |
| Scenario.PackagePlan | build_it.py:56-73 | a directory holding a marker, a module and a data file, in that order, copies the marker and the data file to its mirror and queues the two `.py` files |
| Scenario.PkgLocalPlan | build_it.py:56-73 | the same effects, with the paths spelled out |
| Scenario.ScenarioWalk | build_it.py:39-73 | the whole walk of the example project: two directories created, two copies, two modules |

## Left out

- Filesystem effects are not performed. `open`, `os.mkdir` and `shutil.copy` of the walk become entries of the `Plan`; `os.unlink` of the cleanup and `shutil.rmtree`/`os.unlink` of suicide mode (lines 108 and 110) become the deletion lists. The `shutil.rmtree` of `build/temp` at line 94 is not an effect of the model (see the BuildIt.Run line below). The `isdir` check on the build directory reads the listing of `cur_dir`.
- The Cython and distutils `setup`/`cythonize` call is foreign code. `Run` takes its success as an input. `built`, the tree that compilation leaves behind for the cleanup and suicide walks, is another input.
- The import guard is an input of `Run`. Messages and timing are left out.
- BuildIt.Run: whether `build/temp` exists after a successful compilation is derived, not observed: it is taken to exist exactly when some module was queued or the walk created it as the mirror of a kept package `temp`, since distutils' `build_ext` returns before creating it when there are no extensions. Its removal is not listed among the effects, and neither is what it destroys: a kept top-level package named `temp` is mirrored onto `build_tmp_dir` (see Findings), so that removal deletes the package's copied files and, with them, its compiled modules, the run still exits with status 0, and suicide mode then removes the source package too. `Run` reports `Finished` with a plan that copies into that directory.
- `Join` is `dir + "/" + name`. That is `os.path.join` for the calls the walk makes: a directory path without a trailing separator and a relative name. A script at the filesystem root (`cur_dir` = `/`) is outside the model.
- `fnmatch` character classes `[...]` and Windows case folding (`normcase`) are not modelled. Matching is case-sensitive POSIX matching of `*` and `?`.
- BuildIt.Touched places a created `__init__.py` last in the later listing of its directory. A real filesystem may list it anywhere, which changes only the order of copies and modules within that directory.
- A subdirectory entry named `__init__.py` (`isfile` is false there, so the script's `open` fails) is not modelled.
- The build directory created mid-walk never appears in a listing the walk uses, because the listing of `cur_dir` is taken before it exists. The cleanup and suicide walks see it through `built`.
- BuildIt.MirrorDirs, BuildIt.ProcessFile, BuildIt.Walk: targets are computed with the prefix rewrite `MirrorPath`, not with the script's `str.replace`. Where `cur_dir` recurs inside a visited path (`cur_dir` `/app` with a subdirectory `apps`), the script targets `/app/build/app/builds`, its `os.mkdir` at line 55 raises and the run exits with status 1. MirrorFacts.WalkTargetsAsWritten states that both agree when `cur_dir` does not recur.
- BuildIt.Run: for the same reason it reports `Finished` on trees where the script fails at line 55 because `cur_dir` recurs inside a path.
- BuildIt.ChildFrames: a symbolic link to a directory is listed among `dirs`, so it gets a marker and a mirror, but `os.walk` does not descend into it. The model has no links and descends into every kept subdirectory.
- BuildIt.Suicide: `os.walk` tolerates the removed directories by listing nothing for them. The model acts on the top-level listing only, which is what that tolerance produces. `SUICIDE` is an input, whereas the script fixes it to `True`.
- MirrorFacts.MirrorUnderBuild: distinctness of the mirrored directories of a whole walk is not stated as a list property. It is stated per pair of paths below `cur_dir`.

## Findings

| source | as written | input that shows it | evidently intended | confidence | as-written member | corrected member |
|---|---|---|---|---|---|---|
| build_it.py:54 | `dir.replace(cur_dir, build_dir)` rewrites every occurrence of `cur_dir` in the path, not only the leading one; the same call computes the copy target at lines 62, 66 and 73 | `cur_dir` = `/app` with a package directory `/app/app`: the target is `/app/build/app/build`, whose parent `/app/build/app` does not exist, so `os.mkdir` fails | replace only the leading `cur_dir` (`BuildIt.MirrorPath`), so the mirror of `dir/name` is the mirror of `dir` followed by `name` | not executed | MirrorFacts.MirrorAsWrittenRewritesInnerOccurrence | MirrorFacts.MirrorOfJoin |
| build_it.py:94 | `build_tmp_dir` is `cur_dir/build/temp`, the same path as the mirror of a top-level package `temp` (line 55, filled at lines 62 and 73); line 94 removes it after a successful compilation | `cur_dir` = `/p` with a package directory `/p/temp` holding `__init__.py`: its mirror `/p/build/temp` and the copy of its marker are deleted by `shutil.rmtree`, and the run exits with status 0 | a temporary directory that no mirror can coincide with, as when `cur_dir` keeps no subdirectory named `temp` | not executed | MirrorFacts.TempPackageMirroredOntoTmpDir | MirrorFacts.NoMirrorIsTmpDir |
