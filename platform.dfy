/** The operating environment the scripts touch, reduced to recorded state:
    the process environment and the executables `shutil.which` finds, a file
    system of paths to contents, and a shell that records what was run. */
module Platform {
  import opened Wrappers
  import opened Strings

  type Path = string

  /** The exceptions the scripts raise or let through. */
  datatype Error =
    | SystemExit(message: string)          // `raise SystemExit("...")`
    | ExitStatus(status: int)               // `sys.exit(status)`
    | ValueError(message: string)
    | RuntimeError(message: string, cause: Error)  // the exception it was raised from or during
    | FileNotFoundError(message: string)
    | OSError(path: Path)                   // a failed mkdir, write or copy of `path`
    | CalledProcessError(args: seq<string>) // `run(..., check=True)` with a non-zero exit
    | MergeFailed(fileName: Path)           // VUnit's `merge_coverage` raised
    | LintFailed(message: string)           // a bare `Exception` of the lint script
    | TypeError(message: string)            // a call with an argument the callee refuses

  /** `Path(dir) / name`, rendered with `str`. */
  function PathJoin(dir: Path, name: string): Path
  {
    dir + "/" + name
  }

  /** `Path(p).name`: what follows the last "/", so the longest suffix without one. */
  function BaseName(p: Path): (r: string)
    ensures IsSuffix(r, p) && '/' !in r
    ensures |r| == |p| || p[|p| - |r| - 1] == '/'
  {
    if |p| == 0 then ""
    else if p[|p| - 1] == '/' then ""
    else BaseName(p[..|p| - 1]) + [p[|p| - 1]]
  }

  /** `str.rstrip("/")`. */
  function StripTrailingSlashes(p: Path): (r: Path)
    ensures IsPrefix(r, p)
    ensures |r| == 0 || r[|r| - 1] != '/'
    ensures forall k :: |r| <= k < |p| ==> p[k] == '/'
  {
    if |p| == 0 || p[|p| - 1] != '/' then p else StripTrailingSlashes(p[..|p| - 1])
  }

  /** `os.path.expanduser` for "~" and "~/...": the leading "~" becomes the home
      directory without trailing slashes (or "/" when that leaves nothing).
      The "~user" form is left as it is. */
  function ExpandUser(p: Path, home: Path): Path
  {
    if |p| == 0 || p[0] != '~' then p
    else if |p| > 1 && p[1] != '/' then p
    else
      var expanded := StripTrailingSlashes(home) + p[1..];
      if expanded == "" then "/" else expanded
  }

  /** A home-relative path "~/rest" expands to the home directory joined with "/rest";
      a path that does not start with "~" is kept. */
  lemma ExpandUserHomeRelative(rest: string, home: Path)
    ensures ExpandUser("~/" + rest, home) == StripTrailingSlashes(home) + "/" + rest
    ensures forall p: Path :: (|p| == 0 || p[0] != '~') ==> ExpandUser(p, home) == p
  {
    var p := "~/" + rest;
    assert p[0] == '~' && p[1] == '/';
    assert p[1..] == "/" + rest;
  }

  /** The process environment (`os.environ`) and the result of `shutil.which`
      for every executable on the search path. */
  class Environment {
    const executables: map<string, Path>
    const accountHome: Path   // the password database's home, used when HOME is unset
    var vars: map<string, string>

    constructor (executables: map<string, Path>, accountHome: Path, vars: map<string, string>)
      ensures this.executables == executables && this.accountHome == accountHome
      ensures this.vars == vars
    {
      this.executables := executables;
      this.accountHome := accountHome;
      this.vars := vars;
    }

    /** `shutil.which(name)`. */
    function Which(name: string): (r: Option<Path>)
      ensures r.Some? <==> name in executables
    {
      if name in executables then Some(executables[name]) else None
    }

    /** The home directory `os.path.expanduser` uses. */
    function Home(): Path
      reads this
    {
      if "HOME" in vars then vars["HOME"] else accountHome
    }
  }

  // `Path(folder).glob("**/<name>")` matches `name` in `folder` or in any
  // directory below it.
  predicate MatchesRecursive(folder: Path, name: string, p: Path)
  {
    |p| >= |folder| + 1 + |name| &&
    IsPrefix(folder + "/", p) && IsSuffix("/" + name, p)
  }

  // The files of `files` that `Path(folder).glob("**/<name>")` finds.
  function MatchesIn(files: map<Path, string>, folder: Path, name: string): set<Path>
  {
    set p | p in files && MatchesRecursive(folder, name, p)
  }

  /** Files as a map from path to contents, and directories as a set. Creating
      a directory, writing or copying to a path in `failing` raises OSError. */
  class FileSystem {
    const failing: set<Path>
    var files: map<Path, string>
    var dirs: set<Path>

    constructor (failing: set<Path>, files: map<Path, string>, dirs: set<Path>)
      ensures this.failing == failing && this.files == files && this.dirs == dirs
    {
      this.failing := failing;
      this.files := files;
      this.dirs := dirs;
    }

    /** `Path(p).mkdir(parents=True, exist_ok=True)`. */
    method MakeDirs(p: Path) returns (ok: bool)
      modifies this`dirs
      ensures ok <==> p !in failing
      ensures dirs == if ok then old(dirs) + {p} else old(dirs)
    {
      ok := p !in failing;
      if ok {
        dirs := dirs + {p};
      }
    }

    /** `open(p, "w").write(text)`. */
    method Write(p: Path, text: string) returns (ok: bool)
      modifies this`files
      ensures ok <==> p !in failing
      ensures files == if ok then old(files)[p := text] else old(files)
    {
      ok := p !in failing;
      if ok {
        files := files[p := text];
      }
    }

    /** `shutil.copy2(src, dst)`: fails when the source is missing, the target is
        not writable, or both name the same file (`SameFileError`). */
    method Copy(src: Path, dst: Path) returns (ok: bool)
      modifies this`files
      ensures ok <==> src in old(files) && dst !in failing && src != dst
      ensures files == if ok then old(files)[dst := old(files)[src]] else old(files)
    {
      ok := src in files && dst !in failing && src != dst;
      if ok {
        files := files[dst := files[src]];
      }
    }

    // The files `Path(folder).glob("**/<name>")` finds, as a set.
    function Matches(folder: Path, name: string): set<Path>
      reads this
    {
      MatchesIn(files, folder, name)
    }

    // `list(Path(folder).glob("**/<name>"))`: every matching file once, in an
    // order the model leaves open.
    method Glob(folder: Path, name: string) returns (found: seq<Path>)
      ensures forall p :: p in found <==> p in files && MatchesRecursive(folder, name, p)
      ensures forall i, j :: 0 <= i < j < |found| ==> found[i] != found[j]
    {
      var rest := Matches(folder, name);
      found := [];
      while rest != {}
        invariant forall p :: p in found ==> p in files && MatchesRecursive(folder, name, p) && p !in rest
        invariant forall p :: p in rest ==> p in files && MatchesRecursive(folder, name, p)
        invariant forall p :: p in files && MatchesRecursive(folder, name, p) ==> p in found || p in rest
        invariant forall i, j :: 0 <= i < j < |found| ==> found[i] != found[j]
        decreases rest
      {
        var p :| p in rest;
        found := found + [p];
        rest := rest - {p};
      }
    }
  }

  /** One call to a subprocess: `run(args)` or `os.system(line)`. */
  datatype Invocation = Exec(args: seq<string>) | System(line: string)

  /** A shell that records every invocation. Invocations in `failing` exit
      with a non-zero status; the rest succeed. */
  class Shell {
    const failing: set<Invocation>
    var history: seq<Invocation>

    constructor (failing: set<Invocation>)
      ensures this.failing == failing && history == []
    {
      this.failing := failing;
      history := [];
    }

    /** `subprocess.run(args)`: the exit status. */
    method Run(args: seq<string>) returns (status: int)
      modifies this`history
      ensures history == old(history) + [Exec(args)]
      ensures status != 0 <==> Exec(args) in failing
    {
      history := history + [Exec(args)];
      status := if Exec(args) in failing then 1 else 0;
    }

    /** `os.system(line)`: the exit status. */
    method RunLine(line: string) returns (status: int)
      modifies this`history
      ensures history == old(history) + [System(line)]
      ensures status != 0 <==> System(line) in failing
    {
      history := history + [System(line)];
      status := if System(line) in failing then 1 else 0;
    }
  }
}
