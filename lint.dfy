/** The VHDL lint driver of lint/script/lint.py: which .vhd files are linted,
    how their paths are joined, the vsg output format, and the two error
    policies (one file at a time, stopping at the first failure, or one
    batch call whose failure is raised afterwards). */
module Lint {
  import opened Wrappers
  import opened Strings
  import opened Platform

  /** File names never linted (empty). */
  const NotLinted: seq<string> := []
  /** Directories never linted, relative to the script's directory lint/script. */
  const NotLintedDirs: seq<Path> := ["../../cores", "../../.venv", "../../vunit_out", "../../bench/models/spi"]

  const VsgCommand: string := "vsg -c ../config/.vsg.yaml -f "
  const JunitReport: string := " --junit ../report/vsg_vhdl.xml --all_phases "
  const BatchFailed: string := "Error: Linting of VHDL files failed - check report"

  /** `files_to_string(string, file_paths)`: the paths joined by the separator. */
  function FilesToString(sep: string, paths: seq<Path>): string
  {
    Join(sep, paths)
  }

  /** No paths give the empty string; n paths joined by a one-character
      separator that no path contains hold n - 1 separators and split back
      into the paths. */
  lemma FilesToStringSeparators(sep: char, paths: seq<Path>)
    requires forall i :: 0 <= i < |paths| ==> sep !in paths[i]
    ensures |paths| == 0 ==> FilesToString([sep], paths) == ""
    ensures |paths| >= 1 ==> CountChar(FilesToString([sep], paths), sep) == |paths| - 1
    ensures |paths| >= 1 ==> Split(FilesToString([sep], paths), sep) == paths
  {
    if |paths| >= 1 {
      JoinSeparatorCount(paths, sep);
      SplitJoin(paths, sep);
    }
  }

  /** `Path(rel).resolve()` run from `<root>/lint/script`, for a path without
      symbolic links: a "../../" prefix climbs to the repository root. */
  function ResolveFromScriptDir(root: Path, rel: Path): Path
  {
    if IsPrefix("../../", rel) then PathJoin(root, rel[6..])
    else PathJoin(PathJoin(PathJoin(root, "lint"), "script"), rel)
  }

  /** The excluded directories relative to the repository root. */
  const ExcludedNames: seq<string> := ["cores", ".venv", "vunit_out", "bench/models/spi"]

  /** The resolved excluded directories of a repository rooted at `root`:
      each excluded name under the root. */
  function ExcludedRoots(root: Path): (r: seq<Path>)
    ensures |r| == |ExcludedNames|
    ensures forall k :: 0 <= k < |r| ==> r[k] == PathJoin(root, ExcludedNames[k])
  {
    ExcludedDirsClimbToRoot();
    var dirs := NotLintedDirs;
    var r := seq(|dirs|, k requires 0 <= k < |dirs| => ResolveFromScriptDir(root, dirs[k]));
    assert forall k :: 0 <= k < |r| ==> r[k] == ResolveFromScriptDir(root, "../../" + ExcludedNames[k]);
    ResolveClimbed(root);
    r
  }

  /** Each excluded directory is written as a climb of two levels to the repository root. */
  lemma ExcludedDirsClimbToRoot()
    ensures |NotLintedDirs| == |ExcludedNames|
    ensures forall k :: 0 <= k < |NotLintedDirs| ==> NotLintedDirs[k] == "../../" + ExcludedNames[k]
  {
  }

  /** "../../name" resolves to name under the repository root. */
  lemma ResolveClimbed(root: Path)
    ensures forall name: string {:trigger "../../" + name} ::
      ResolveFromScriptDir(root, "../../" + name) == PathJoin(root, name)
  {
    forall name: string
      ensures ResolveFromScriptDir(root, "../../" + name) == PathJoin(root, name)
    {
      var rel := "../../" + name;
      assert IsPrefix("../../", rel);
      assert rel[6..] == name;
    }
  }

  /** `PurePath(p).is_relative_to(base)` for paths without trailing "/":
      `p` is `base` or lies below it. */
  predicate IsRelativeTo(p: Path, base: Path)
  {
    p == base || IsPrefix(base + "/", p)
  }

  /** A file `rglob` finds: its path and the path `resolve()` gives it. */
  datatype FoundFile = FoundFile(path: Path, resolved: Path)

  /** Whether `find_vhd_files` keeps a file: its resolved path lies under no
      excluded directory and its name is not excluded. */
  predicate Keep(f: FoundFile, roots: seq<Path>)
  {
    (forall k :: 0 <= k < |roots| ==> !IsRelativeTo(f.resolved, roots[k])) && BaseName(f.path) !in NotLinted
  }

  /** The resolved paths of the kept files, in the order they were found. */
  function LintedFiles(walk: seq<FoundFile>, roots: seq<Path>): seq<Path>
  {
    if |walk| == 0 then []
    else
      var last := walk[|walk| - 1];
      LintedFiles(walk[..|walk| - 1], roots) + (if Keep(last, roots) then [last.resolved] else [])
  }

  /** `find_vhd_files(directory)` over the files `rglob("*.vhd")` yields, in
      that order (`walk`); `roots` are the resolved excluded directories. */
  method FindVhdFiles(walk: seq<FoundFile>, roots: seq<Path>) returns (vhdFiles: seq<Path>)
    ensures vhdFiles == LintedFiles(walk, roots)
  {
    vhdFiles := [];
    for i := 0 to |walk|
      invariant vhdFiles == LintedFiles(walk[..i], roots)
    {
      var file := walk[i];
      assert walk[..i + 1][..i] == walk[..i];
      var excluded := false;
      for k := 0 to |roots|
        invariant excluded <==> exists q :: 0 <= q < k && IsRelativeTo(file.resolved, roots[q])
      {
        if IsRelativeTo(file.resolved, roots[k]) {
          excluded := true;
        }
      }
      if excluded {
        continue;
      }
      if BaseName(file.path) in NotLinted {
        continue;
      }
      vhdFiles := vhdFiles + [file.resolved];
    }
    assert walk[..|walk|] == walk;
  }

  /** `idx` lists, in increasing order, the positions of exactly the kept
      files of `walk`, and the linted paths are theirs. */
  ghost predicate PositionsOfKept(walk: seq<FoundFile>, roots: seq<Path>, idx: seq<int>)
  {
    |idx| == |LintedFiles(walk, roots)| &&
    (forall k :: 0 <= k < |idx| ==>
      0 <= idx[k] < |walk| && Keep(walk[idx[k]], roots) &&
      LintedFiles(walk, roots)[k] == walk[idx[k]].resolved) &&
    (forall k, l :: 0 <= k < l < |idx| ==> idx[k] < idx[l]) &&
    (forall i :: 0 <= i < |walk| && Keep(walk[i], roots) ==> i in idx)
  }

  /** The positions for a walk one file longer: the last position is added
      exactly when that file is kept. */
  lemma PositionsStep(walk: seq<FoundFile>, roots: seq<Path>, prev: seq<int>) returns (idx: seq<int>)
    requires |walk| > 0
    requires PositionsOfKept(walk[..|walk| - 1], roots, prev)
    ensures PositionsOfKept(walk, roots, idx)
  {
    var n := |walk| - 1;
    idx := if Keep(walk[n], roots) then prev + [n] else prev;
    StepPositionsKept(walk, roots, prev, idx);
    StepIncreasing(n, prev, idx);
    forall i | 0 <= i < n && Keep(walk[i], roots)
      ensures i in prev
    {
      assert walk[..n][i] == walk[i];
    }
    StepKeptCovered(walk, roots, prev, idx);
  }

  /** Every position of the longer list is a kept file carrying the linted path. */
  lemma StepPositionsKept(walk: seq<FoundFile>, roots: seq<Path>, prev: seq<int>, idx: seq<int>)
    requires |walk| > 0
    requires PositionsOfKept(walk[..|walk| - 1], roots, prev)
    requires idx == if Keep(walk[|walk| - 1], roots) then prev + [|walk| - 1] else prev
    ensures |idx| == |LintedFiles(walk, roots)|
    ensures forall k :: 0 <= k < |idx| ==>
      0 <= idx[k] < |walk| && Keep(walk[idx[k]], roots) &&
      LintedFiles(walk, roots)[k] == walk[idx[k]].resolved
  {
    var n := |walk| - 1;
    var front := walk[..n];
    var before := LintedFiles(front, roots);
    var out := LintedFiles(walk, roots);
    assert out == before + (if Keep(walk[n], roots) then [walk[n].resolved] else []);
    forall k | 0 <= k < |idx|
      ensures 0 <= idx[k] < |walk| && Keep(walk[idx[k]], roots) && out[k] == walk[idx[k]].resolved
    {
      if k < |prev| {
        assert idx[k] == prev[k] && front[prev[k]] == walk[prev[k]];
        assert out[k] == before[k];
      }
    }
  }

  /** The longer list is still increasing: every earlier position is below the new one. */
  lemma StepIncreasing(n: int, prev: seq<int>, idx: seq<int>)
    requires forall k :: 0 <= k < |prev| ==> prev[k] < n
    requires forall k, l :: 0 <= k < l < |prev| ==> prev[k] < prev[l]
    requires idx == prev || idx == prev + [n]
    ensures forall k, l :: 0 <= k < l < |idx| ==> idx[k] < idx[l]
  {
  }

  /** The longer list holds every kept file. */
  lemma StepKeptCovered(walk: seq<FoundFile>, roots: seq<Path>, prev: seq<int>, idx: seq<int>)
    requires |walk| > 0
    requires forall i :: 0 <= i < |walk| - 1 && Keep(walk[i], roots) ==> i in prev
    requires idx == if Keep(walk[|walk| - 1], roots) then prev + [|walk| - 1] else prev
    ensures forall i :: 0 <= i < |walk| && Keep(walk[i], roots) ==> i in idx
  {
    forall i | 0 <= i < |walk| && Keep(walk[i], roots)
      ensures i in idx
    {
      if i < |walk| - 1 {
        assert i in prev;
        assert prev <= idx;
      }
    }
  }

  /** The files linted are exactly the kept ones, in order: there is an
      increasing list of positions in the walk, holding every kept file and
      no other, whose resolved paths make up the result. */
  lemma {:induction false} LintedFilesOrder(walk: seq<FoundFile>, roots: seq<Path>) returns (idx: seq<int>)
    ensures |idx| == |LintedFiles(walk, roots)|
    ensures forall k :: 0 <= k < |idx| ==>
      0 <= idx[k] < |walk| && Keep(walk[idx[k]], roots) &&
      LintedFiles(walk, roots)[k] == walk[idx[k]].resolved
    ensures forall k, l :: 0 <= k < l < |idx| ==> idx[k] < idx[l]
    ensures forall i :: 0 <= i < |walk| && Keep(walk[i], roots) ==> i in idx
  {
    idx := KeptPositions(walk, roots);
  }

  lemma {:induction false} KeptPositions(walk: seq<FoundFile>, roots: seq<Path>) returns (idx: seq<int>)
    ensures PositionsOfKept(walk, roots, idx)
  {
    if |walk| == 0 {
      idx := [];
    } else {
      var prev := KeptPositions(walk[..|walk| - 1], roots);
      idx := PositionsStep(walk, roots, prev);
    }
  }

  /** A path is linted exactly when some kept file resolves to it. */
  lemma LintedMembership(walk: seq<FoundFile>, roots: seq<Path>, p: Path)
    ensures p in LintedFiles(walk, roots) <==>
      exists i :: 0 <= i < |walk| && Keep(walk[i], roots) && walk[i].resolved == p
  {
    var idx := LintedFilesOrder(walk, roots);
    var out := LintedFiles(walk, roots);
    if p in out {
      var k :| 0 <= k < |out| && out[k] == p;
      assert Keep(walk[idx[k]], roots) && walk[idx[k]].resolved == p;
    }
    if exists i :: 0 <= i < |walk| && Keep(walk[i], roots) && walk[i].resolved == p {
      var i :| 0 <= i < |walk| && Keep(walk[i], roots) && walk[i].resolved == p;
      assert i in idx;
      var k :| 0 <= k < |idx| && idx[k] == i;
      assert out[k] == p;
    }
  }

  /** Nothing under cores, .venv, vunit_out or bench/models/spi of the
      repository is ever linted. */
  lemma NothingUnderExcludedDirs(walk: seq<FoundFile>, root: Path, p: Path)
    requires p in LintedFiles(walk, ExcludedRoots(root))
    ensures forall k :: 0 <= k < |ExcludedNames| ==>
      p != PathJoin(root, ExcludedNames[k]) && !IsPrefix(PathJoin(root, ExcludedNames[k]) + "/", p)
  {
    var roots := ExcludedRoots(root);
    LintedMembership(walk, roots, p);
    var i :| 0 <= i < |walk| && Keep(walk[i], roots) && walk[i].resolved == p;
    forall k | 0 <= k < |ExcludedNames|
      ensures p != PathJoin(root, ExcludedNames[k]) && !IsPrefix(PathJoin(root, ExcludedNames[k]) + "/", p)
    {
      assert roots[k] in roots;
    }
  }

  /** The vsg output format: syntastic when asked for, vsg's own otherwise. */
  method OutputFormat(syntastic: bool) returns (format: string)
    ensures syntastic ==> format == "-of syntastic"
    ensures !syntastic ==> format == "-of vsg"
  {
    format := "-of vsg";
    if syntastic {
      format := "-of syntastic";
    }
  }

  /** The debug-mode command for one file. */
  function DebugCommand(file: Path, format: string): Invocation
  {
    System(VsgCommand + file + " " + format)
  }

  /** The batch-mode command over all files. */
  function BatchCommand(files: seq<Path>, format: string): Invocation
  {
    System(VsgCommand + FilesToString(" ", files) + JunitReport + format)
  }

  function DebugFailed(file: Path): string
  {
    "Error: Linting of " + file + " failed - check report"
  }

  /** The debug commands of all files, in order. */
  function DebugCommands(files: seq<Path>, format: string): (r: seq<Invocation>)
    ensures |r| == |files|
  {
    seq(|files|, i requires 0 <= i < |files| => DebugCommand(files[i], format))
  }

  /** The position of the first command that fails, or the number of commands. */
  function FirstFailing(commands: seq<Invocation>, failing: set<Invocation>): (n: nat)
    ensures n <= |commands|
    ensures forall i :: 0 <= i < n ==> commands[i] !in failing
    ensures n < |commands| ==> commands[n] in failing
  {
    if |commands| == 0 then 0
    else if commands[0] in failing then 0
    else 1 + FirstFailing(commands[1..], failing)
  }

  /** Debug mode: lints the files one at a time and raises at the first
      failure, so the files after it are not linted. */
  method LintEach(files: seq<Path>, format: string, shell: Shell) returns (r: Outcome<Error>)
    modifies shell`history
    ensures var commands := DebugCommands(files, format);
      var n := FirstFailing(commands, shell.failing);
      if n < |files| then
        r == Fail(LintFailed(DebugFailed(files[n]))) && shell.history == old(shell.history) + commands[..n + 1]
      else
        r == Pass && shell.history == old(shell.history) + commands
  {
    ghost var commands := DebugCommands(files, format);
    ghost var n := FirstFailing(commands, shell.failing);
    for i := 0 to |files|
      invariant i <= n
      invariant shell.history == old(shell.history) + commands[..i]
    {
      var result := shell.RunLine(DebugCommand(files[i], format).line);
      assert commands[..i + 1] == commands[..i] + [commands[i]];
      if result != 0 {
        return Fail(LintFailed(DebugFailed(files[i])));
      }
    }
    assert commands[..|files|] == commands;
    r := Pass;
  }

  /** Batch mode: one vsg call over the space-joined files; a failure sets
      the error flag, which is then raised. */
  method LintAll(files: seq<Path>, format: string, shell: Shell) returns (r: Outcome<Error>)
    modifies shell`history
    ensures shell.history == old(shell.history) + [BatchCommand(files, format)]
    ensures r.Fail? <==> BatchCommand(files, format) in shell.failing
    ensures r.Fail? ==> r.error == LintFailed(BatchFailed)
  {
    var result := shell.RunLine(BatchCommand(files, format).line);
    var errorOccurred := false;
    if result != 0 {
      errorOccurred := true;
    }
    if errorOccurred {
      return Fail(LintFailed(BatchFailed));
    }
    r := Pass;
  }

  /** The script's run: the output format, the files to lint under the
      repository `root`, then the debug or the batch policy. */
  method LintProject(debug: bool, syntastic: bool, walk: seq<FoundFile>, root: Path, shell: Shell)
    returns (r: Outcome<Error>, vhdFiles: seq<Path>)
    modifies shell`history
    ensures vhdFiles == LintedFiles(walk, ExcludedRoots(root))
    ensures var format := if syntastic then "-of syntastic" else "-of vsg";
      if debug then
        var commands := DebugCommands(vhdFiles, format);
        var n := FirstFailing(commands, shell.failing);
        (r.Fail? <==> n < |vhdFiles|) &&
        shell.history == old(shell.history) + (if n < |vhdFiles| then commands[..n + 1] else commands)
      else
        shell.history == old(shell.history) + [BatchCommand(vhdFiles, format)] &&
        (r.Fail? <==> BatchCommand(vhdFiles, format) in shell.failing)
  {
    var format := OutputFormat(syntastic);
    vhdFiles := FindVhdFiles(walk, ExcludedRoots(root));
    if debug {
      r := LintEach(vhdFiles, format, shell);
    } else {
      r := LintAll(vhdFiles, format, shell);
    }
  }
}
