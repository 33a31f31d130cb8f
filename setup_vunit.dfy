/** The simulator classes of bench/setup_vunit.py: selecting NVC or GHDL,
    registering the Xilinx vendor libraries, writing each simulator's flags
    into VUnit's option tables, setting up code coverage, and the post-run hook
    that copies the output log and produces the coverage report.

    The abstract base class and its two subclasses become one class whose
    `kind` says which simulator it is; the subclass methods dispatch on it. */
module SetupVunit {
  import opened Wrappers
  import opened Strings
  import opened Platform
  import opened VUnitApi

  // SimulatorConfig
  const NvcName: string := "nvc"
  const GhdlName: string := "ghdl"
  const NvcUnisimPath: Path := "~/.nvc/lib/unisim.08"
  const NvcUnifastPath: Path := "~/.nvc/lib/unifast.08"
  const GhdlUnisimPath: Path := "~/.ghdl/xilinx-vivado/unisim/v08"
  const GhdlUnifastPath: Path := "~/.ghdl/xilinx-vivado/unifast/v08"

  /** The environment variable VUnit reads to pick its simulator. */
  const SimulatorVar: string := "VUNIT_SIMULATOR"

  // Option and attribute names written into VUnit's tables.
  const RunAllInSameSim: string := "run_all_in_same_sim"
  const NvcGlobalFlags: string := "nvc.global_flags"
  const NvcElabFlags: string := "nvc.elab_flags"
  const GhdlAFlags: string := "ghdl.a_flags"
  const GhdlSimFlags: string := "ghdl.sim_flags"
  const GhdlElabFlags: string := "ghdl.elab_flags"
  const EnableCoverage: string := "enable_coverage"

  // Flag values.
  const IeeeWarningsOff: string := "--ieee-warnings=off-at-0"
  const CoverKinds: string :=
    "statement,branch,expression,fsm-state,count-from-undefined,exclude-unreachable"
  const CoverFlag: string := "--cover=" + CoverKinds
  const WarnNoHide: string := "--warn-no-hide"
  const AssertsOff: string := "--asserts=disable-at-0"
  const VendorFlags: seq<string> := ["-fsynopsys", "-frelaxed"]

  // Fixed file names.
  const OutputLogName: string := "output.txt"
  const NcdbName: string := "coverage.ncdb"
  const SpecName: string := "coverage.spec"
  const ReportDirName: string := "coverage_report"

  const NoSimulatorMessage: string := "ERROR: No supported simulator found in PATH!"
  const SpecWriteFailed: string := "Failed to create coverage spec file"
  const GhdlLibrariesRequired: string := "GHDL coverage requires (LIB_SRC, LIB_BENCH) libraries tuple"

  datatype Kind = Nvc | Ghdl {
    /** The executable, and the value written to VUNIT_SIMULATOR. */
    function Name(): string {
      if Nvc? then NvcName else GhdlName
    }

    function DefaultUnisimPath(): Path {
      if Nvc? then NvcUnisimPath else GhdlUnisimPath
    }

    function DefaultUnifastPath(): Path {
      if Nvc? then NvcUnifastPath else GhdlUnifastPath
    }
  }

  function NotFoundMessage(kind: Kind): string {
    "ERROR: " + kind.Name() + " executable not found!"
  }

  function UnsupportedMessage(name: string): string {
    "Unsupported simulator: " + name + ". Supported simulators: " + NvcName + ", " + GhdlName
  }

  /* ---------------------------------------------------------------------------
     Selection
     ------------------------------------------------------------------------- */

  /** The name `select_simulator` settles on when none is given: the first of
      nvc and ghdl found on the search path. */
  function AutoDetectedName(executables: map<string, Path>): Result<string, Error>
  {
    if NvcName in executables then Ok(NvcName)
    else if GhdlName in executables then Ok(GhdlName)
    else Err(SystemExit(NoSimulatorMessage))
  }

  /** The simulator class a name selects, compared case-insensitively. */
  function KindNamed(name: string): Result<Kind, Error>
  {
    var lower := ToLower(name);
    if lower == NvcName then Ok(Nvc)
    else if lower == GhdlName then Ok(Ghdl)
    else Err(ValueError(UnsupportedMessage(name)))
  }

  /** The decision of `select_simulator`: which class it instantiates, or what it raises. */
  function ResolveSimulator(name: Option<string>, executables: map<string, Path>): Result<Kind, Error>
  {
    var chosen := if name.Some? then Ok(name.value) else AutoDetectedName(executables);
    if chosen.Err? then Err(chosen.error) else KindNamed(chosen.value)
  }

  /** Without a name, NVC wins when nvc is on the path, GHDL when only ghdl is,
      and SystemExit is raised when neither is. */
  lemma AutoSelection(executables: map<string, Path>)
    ensures ResolveSimulator(None, executables) == Ok(Nvc) <==> NvcName in executables
    ensures ResolveSimulator(None, executables) == Ok(Ghdl) <==>
      NvcName !in executables && GhdlName in executables
    ensures ResolveSimulator(None, executables) == Err(SystemExit(NoSimulatorMessage)) <==>
      NvcName !in executables && GhdlName !in executables
  {
    assert ToLower(NvcName) == NvcName;
    assert ToLower(GhdlName) == GhdlName;
  }

  /** An automatically selected simulator is always one whose executable is on
      the path, so its constructor's own check cannot fail. */
  lemma AutoSelectedIsOnPath(executables: map<string, Path>)
    requires ResolveSimulator(None, executables).Ok?
    ensures ResolveSimulator(None, executables).value.Name() in executables
  {
    AutoSelection(executables);
  }

  /** An explicit name is matched case-insensitively and whatever is on the path:
      any spelling of "nvc" selects NVC, any spelling of "ghdl" selects GHDL,
      and every other name raises ValueError naming it. */
  lemma ExplicitName(name: string, executables: map<string, Path>)
    ensures ResolveSimulator(Some(name), executables) == Ok(Nvc) <==> CaseVariant(name, NvcName)
    ensures ResolveSimulator(Some(name), executables) == Ok(Ghdl) <==> CaseVariant(name, GhdlName)
    ensures ResolveSimulator(Some(name), executables).Err? <==>
      !CaseVariant(name, NvcName) && !CaseVariant(name, GhdlName)
    ensures ResolveSimulator(Some(name), executables).Err? ==>
      ResolveSimulator(Some(name), executables).error == ValueError(UnsupportedMessage(name))
  {
    ToLowerMatchesWord(name, NvcName);
    ToLowerMatchesWord(name, GhdlName);
  }

  /* ---------------------------------------------------------------------------
     Flags and file contents
     ------------------------------------------------------------------------- */

  /** Python's `path or default` for an optional library path. */
  function LibraryPathOrDefault(given: Option<Path>, default: Path): Path
  {
    if given.Some? && given.value != "" then given.value else default
  }

  /** The text of the coverage specification file: one rule per line, each
      line ended by a newline. */
  function SpecFileText(rules: seq<string>): string
  {
    Join("\n", rules) + "\n"
  }

  /** The specification file holds exactly the rules, one per line: it ends in a
      newline, has one newline per rule, and splitting what comes before the
      last newline gives the rules back. */
  lemma SpecFileLines(rules: seq<string>)
    requires |rules| >= 1
    requires forall i :: 0 <= i < |rules| ==> '\n' !in rules[i]
    ensures var text := SpecFileText(rules);
      |text| >= 1 && text[|text| - 1] == '\n' &&
      Split(text[..|text| - 1], '\n') == rules &&
      CountChar(text, '\n') == |rules|
  {
    var text := SpecFileText(rules);
    assert text[..|text| - 1] == Join("\n", rules);
    SplitJoin(rules, '\n');
    JoinSeparatorCount(rules, '\n');
    CountCharAppend(Join("\n", rules), "\n", '\n');
  }

  function NcdbPath(outputPath: Path): Path { PathJoin(outputPath, NcdbName) }
  function SpecPath(outputPath: Path): Path { PathJoin(outputPath, SpecName) }
  function ReportDir(outputPath: Path): Path { PathJoin(outputPath, ReportDirName) }

  /** NVC's elaboration flags under coverage: the coverage kinds, the database
      file, and the specification file when there is one. */
  function NvcCoverageFlags(outputPath: Path, withSpec: bool): seq<string>
  {
    [CoverFlag, "--cover-file=" + NcdbPath(outputPath)] +
    (if withSpec then ["--cover-spec=" + SpecPath(outputPath)] else [])
  }

  /** The coverage flags always start with the coverage kinds and the database
      under the output directory, and name a specification file exactly when
      one was written. */
  lemma NvcCoverageFlagsShape(outputPath: Path, withSpec: bool)
    ensures var flags := NvcCoverageFlags(outputPath, withSpec);
      |flags| >= 2 && flags[0] == CoverFlag &&
      flags[1] == "--cover-file=" + outputPath + "/coverage.ncdb" &&
      ((exists i :: 0 <= i < |flags| && IsPrefix("--cover-spec=", flags[i])) <==> withSpec)
  {
    var flags := NvcCoverageFlags(outputPath, withSpec);
    CoverFlagNamesNoSpec();
    DatabaseFlagNamesNoSpec(NcdbPath(outputPath));
    DatabaseFlagSpelled(outputPath);
    if withSpec {
      assert IsPrefix("--cover-spec=", flags[2]);
    }
  }

  /** The database flag names coverage.ncdb in the output directory. */
  lemma DatabaseFlagSpelled(outputPath: Path)
    ensures "--cover-file=" + NcdbPath(outputPath) == "--cover-file=" + outputPath + "/coverage.ncdb"
  {
    assert "/" + NcdbName == "/coverage.ncdb";
    assert NcdbPath(outputPath) == outputPath + "/coverage.ncdb";
  }

  /** The coverage-kinds flag is not a specification flag. */
  lemma CoverFlagNamesNoSpec()
    ensures !IsPrefix("--cover-spec=", CoverFlag)
  {
    var spec := "--cover-spec=";
    assert CoverFlag[7] == '=' && spec[7] == '-';
  }

  /** The database flag is not a specification flag. */
  lemma DatabaseFlagNamesNoSpec(database: Path)
    ensures !IsPrefix("--cover-spec=", "--cover-file=" + database)
  {
    var spec, f := "--cover-spec=", "--cover-file=" + database;
    assert f[8] == 'f' && spec[8] == 's';
  }

  /** GHDL's analysis flags: the hide warning always, the Synopsys and relaxed
      flags after it when a vendor library is in use. */
  function GhdlAnalysisFlags(vendor: bool): seq<string>
  {
    [WarnNoHide] + (if vendor then VendorFlags else [])
  }

  /** `["nvc", "--cover-report", "-o", <report dir>, <database>]`. */
  function NvcReportCommand(program: string, reportDir: Path, database: Path): seq<string>
  {
    [program, "--cover-report", "-o", reportDir, database]
  }

  function LcovCommand(reportDir: Path): seq<string>
  {
    ["lcov", "--capture", "--directory", reportDir,
     "--output-file", PathJoin(reportDir, "code_coverage.info"),
     "--rc", "branch_coverage=1", "--ignore-errors", "mismatch"]
  }

  function GenhtmlCommand(reportDir: Path): seq<string>
  {
    ["genhtml", PathJoin(reportDir, "code_coverage.info"),
     "--output-directory", PathJoin(reportDir, "html_report"),
     "--ignore-errors", "source", "--ignore-errors", "unmapped"]
  }

  /** What the GCC report runs: lcov, then genhtml only if lcov succeeded. */
  function GccReportTrace(reportDir: Path, failing: set<Invocation>): seq<Invocation>
  {
    [Exec(LcovCommand(reportDir))] +
    (if Exec(LcovCommand(reportDir)) in failing then [] else [Exec(GenhtmlCommand(reportDir))])
  }

  /** The copied log and the copied database land on different files. */
  lemma LogAndDatabaseTargetsDiffer(a: Path, b: Path)
    ensures PathJoin(a, OutputLogName) != PathJoin(b, NcdbName)
  {
    var x, y := PathJoin(a, OutputLogName), PathJoin(b, NcdbName);
    assert x[|x| - 1] == 't' && y[|y| - 1] == 'b';
  }

  /* ---------------------------------------------------------------------------
     The simulator objects
     ------------------------------------------------------------------------- */

  class Simulator {
    const kind: Kind
    var enableCoverage: bool
    var resultDir: Path
    var usesUnisim: bool
    var usesUnifast: bool
    var vu: VUnitSession?

    /** The field values `__init__` sets, for a process started in `cwd`. */
    ghost predicate Initial(cwd: Path)
      reads this
    {
      !enableCoverage && !usesUnisim && !usesUnifast && vu == null &&
      resultDir == PathJoin(PathJoin(cwd, "bench"), "results")
    }

    constructor (kind: Kind, cwd: Path)
      ensures this.kind == kind && Initial(cwd)
    {
      this.kind := kind;
      enableCoverage := false;
      resultDir := PathJoin(PathJoin(cwd, "bench"), "results");
      usesUnisim := false;
      usesUnifast := false;
      vu := null;
    }

    /** `add_library`: registers the library under its `~`-expanded path. */
    method AddLibrary(vu: VUnitSession, libraryName: string, libraryPath: Path, env: Environment)
      modifies vu`externalLibraries
      ensures vu.externalLibraries ==
        old(vu.externalLibraries) + [(libraryName, ExpandUser(libraryPath, env.Home()))]
    {
      var expanded := ExpandUser(libraryPath, env.Home());
      vu.AddExternalLibrary(libraryName, expanded);
    }

    /** `add_unisim_library`: the given path unless it is None or empty, else this
        simulator's default; only `usesUnisim` changes on the object. */
    method AddUnisimLibrary(vu: VUnitSession, unisimPath: Option<Path>, env: Environment)
      modifies this`usesUnisim, vu`externalLibraries
      ensures usesUnisim && usesUnifast == old(usesUnifast)
      ensures vu.externalLibraries == old(vu.externalLibraries) +
        [("unisim", ExpandUser(LibraryPathOrDefault(unisimPath, kind.DefaultUnisimPath()), env.Home()))]
    {
      var path := LibraryPathOrDefault(unisimPath, kind.DefaultUnisimPath());
      AddLibrary(vu, "unisim", path, env);
      usesUnisim := true;
    }

    /** `add_unifast_library`: as for Unisim, with the Unifast default and flag. */
    method AddUnifastLibrary(vu: VUnitSession, unifastPath: Option<Path>, env: Environment)
      modifies this`usesUnifast, vu`externalLibraries
      ensures usesUnifast && usesUnisim == old(usesUnisim)
      ensures vu.externalLibraries == old(vu.externalLibraries) +
        [("unifast", ExpandUser(LibraryPathOrDefault(unifastPath, kind.DefaultUnifastPath()), env.Home()))]
    {
      var path := LibraryPathOrDefault(unifastPath, kind.DefaultUnifastPath());
      AddLibrary(vu, "unifast", path, env);
      usesUnifast := true;
    }

    /** NVC's `configure`: the global flags become exactly the IEEE-warning
        suppression, and test cases run in separate simulations unless
        coverage is on. */
    method ConfigureNvc(vu: VUnitSession)
      requires kind == Nvc
      modifies vu`simOptions, vu`attributes
      ensures vu.simOptions == old(vu.simOptions)[NvcGlobalFlags := Flags([IeeeWarningsOff])]
      ensures vu.attributes == if enableCoverage then old(vu.attributes)
                               else old(vu.attributes)[RunAllInSameSim := false]
    {
      vu.SetSimOption(NvcGlobalFlags, Flags([IeeeWarningsOff]));
      if !enableCoverage {
        vu.SetAttribute(RunAllInSameSim, false);
      }
    }

    /** GHDL's `configure`: keeps the handle, sets the analysis and simulation
        flags, and adds the vendor flags to analysis and elaboration when a
        vendor library is in use. */
    method ConfigureGhdl(vu: VUnitSession)
      requires kind == Ghdl
      modifies this`vu, vu`simOptions, vu`compileOptions
      ensures var vendor := usesUnisim || usesUnifast;
        this.vu == vu &&
        vu.compileOptions == old(vu.compileOptions)[GhdlAFlags := Flags(GhdlAnalysisFlags(vendor))] &&
        vu.simOptions == (if vendor
          then old(vu.simOptions)[GhdlSimFlags := Flags([AssertsOff])][GhdlElabFlags := Flags(VendorFlags)]
          else old(vu.simOptions)[GhdlSimFlags := Flags([AssertsOff])])
    {
      this.vu := vu;
      vu.SetCompileOption(GhdlAFlags, Flags([WarnNoHide]));
      vu.SetSimOption(GhdlSimFlags, Flags([AssertsOff]));
      if usesUnisim || usesUnifast {
        assert FlagsOf(vu.compileOptions, GhdlAFlags) == [WarnNoHide];
        assert [WarnNoHide] + VendorFlags == GhdlAnalysisFlags(true);
        vu.AddCompileOption(GhdlAFlags, VendorFlags);
        vu.SetSimOption(GhdlElabFlags, Flags(VendorFlags));
      } else {
        assert [WarnNoHide] == GhdlAnalysisFlags(false);
      }
    }

    /** NVC's `setup_coverage`: turns coverage on, keeps the handle, makes all
        test cases share one simulation, and sets the elaboration flags to the
        coverage flags; a non-empty rule list is written to coverage.spec first
        and named in the flags. A failed write raises RuntimeError and leaves
        the flags unset. */
    method SetupNvcCoverage(vu: VUnitSession, specifications: Option<seq<string>>, fs: FileSystem)
      returns (r: Outcome<Error>)
      requires kind == Nvc
      modifies this`enableCoverage, this`vu, vu`attributes, vu`simOptions, fs`dirs, fs`files
      ensures enableCoverage && this.vu == vu
      ensures vu.attributes == old(vu.attributes)[RunAllInSameSim := true]
      ensures fs.dirs == if vu.outputPath in fs.failing then old(fs.dirs) else old(fs.dirs) + {vu.outputPath}
      ensures var out := vu.outputPath;
        var withSpec := specifications.Some? && |specifications.value| > 0;
        if out in fs.failing then
          r == Fail(OSError(out)) && vu.simOptions == old(vu.simOptions) && fs.files == old(fs.files)
        else if withSpec && SpecPath(out) in fs.failing then
          r == Fail(RuntimeError(SpecWriteFailed, OSError(SpecPath(out)))) &&
          vu.simOptions == old(vu.simOptions) && fs.files == old(fs.files)
        else
          r == Pass &&
          vu.simOptions == old(vu.simOptions)[NvcElabFlags := Flags(NvcCoverageFlags(out, withSpec))] &&
          fs.files == if withSpec then old(fs.files)[SpecPath(out) := SpecFileText(specifications.value)]
                      else old(fs.files)
    {
      enableCoverage := true;
      this.vu := vu;
      vu.SetAttribute(RunAllInSameSim, true);

      var out := vu.outputPath;
      var ok := fs.MakeDirs(out);
      if !ok {
        return Fail(OSError(out));
      }

      var coverageFlags := [CoverFlag, "--cover-file=" + NcdbPath(out)];
      if specifications.Some? && |specifications.value| > 0 {
        var specFile := SpecPath(out);
        var written := fs.Write(specFile, SpecFileText(specifications.value));
        if !written {
          return Fail(RuntimeError(SpecWriteFailed, OSError(specFile)));
        }
        coverageFlags := coverageFlags + ["--cover-spec=" + specFile];
        assert coverageFlags == NvcCoverageFlags(out, true);
      } else {
        assert coverageFlags == NvcCoverageFlags(out, false);
      }
      vu.SetSimOption(NvcElabFlags, Flags(coverageFlags));
      r := Pass;
    }

    /** GHDL's `setup_coverage`: without the (LIB_SRC, LIB_BENCH) pair it raises
        ValueError before touching anything; otherwise it turns coverage on,
        keeps the handle, and enables coverage for compiling both libraries and
        for simulating the bench library. */
    method SetupGhdlCoverage(vu: VUnitSession, libraries: Option<(Library, Library)>)
      returns (r: Outcome<Error>)
      requires kind == Ghdl
      modifies this`enableCoverage, this`vu
      modifies if libraries.Some? then {libraries.value.0, libraries.value.1} else {}
      ensures libraries.None? ==>
        r == Fail(ValueError(GhdlLibrariesRequired)) &&
        enableCoverage == old(enableCoverage) && this.vu == old(this.vu)
      ensures libraries.Some? ==>
        var (src, bench) := libraries.value;
        r == Pass && enableCoverage && this.vu == vu &&
        EnableCoverage in src.compileOptions && src.compileOptions[EnableCoverage] == Switch(true) &&
        bench.compileOptions == old(bench.compileOptions)[EnableCoverage := Switch(true)] &&
        bench.simOptions == old(bench.simOptions)[EnableCoverage := Switch(true)] &&
        (src != bench ==>
          src.compileOptions == old(src.compileOptions)[EnableCoverage := Switch(true)] &&
          src.simOptions == old(src.simOptions))
    {
      if libraries.None? {
        return Fail(ValueError(GhdlLibrariesRequired));
      }
      enableCoverage := true;
      this.vu := vu;
      var (src, bench) := libraries.value;
      src.SetCompileOption(EnableCoverage, Switch(true));
      bench.SetCompileOption(EnableCoverage, Switch(true));
      bench.SetSimOption(EnableCoverage, Switch(true));
      r := Pass;
    }

    /** Where `copy_output_log` puts the log. */
    function LogTarget(): Path
      reads this
    {
      PathJoin(resultDir, OutputLogName)
    }

    /** Whether copying the chosen log (if one was found) goes through: the
        result directory and its output.txt can be written, and the log is
        not that very file (`shutil.copy2` raises `SameFileError` then). */
    predicate LogCopyGoesThrough(failing: set<Path>, source: Option<Path>)
      reads this
    {
      source.None? ||
      (resultDir !in failing && LogTarget() !in failing && source.value != LogTarget())
    }

    /** The files after `copy_output_log` copied `source`: the log lands on
        output.txt of the result directory when the copy goes through. */
    function FilesAfterLogCopy(files: map<Path, string>, failing: set<Path>, source: Option<Path>): map<Path, string>
      reads this
    {
      if source.Some? && source.value in files && LogCopyGoesThrough(failing, source)
      then files[LogTarget() := files[source.value]]
      else files
    }

    /** The directories after `copy_output_log`: the result directory is
        created once a log was found and it can be. */
    function DirsAfterLogCopy(dirs: set<Path>, failing: set<Path>, source: Option<Path>): set<Path>
      reads this
    {
      if source.Some? && resultDir !in failing then dirs + {resultDir} else dirs
    }

    /** `copy_output_log`: with no handle, or no output.txt under the output
        directory, nothing happens; otherwise one of the logs found (the
        first the search returns, named by `copiedFrom`) is copied to
        output.txt in the result directory, and a failure is raised. */
    method CopyOutputLog(fs: FileSystem) returns (r: Outcome<Error>, ghost copiedFrom: Option<Path>)
      modifies fs`dirs, fs`files
      ensures copiedFrom.Some? <==> vu != null && old(fs.Matches(vu.outputPath, OutputLogName)) != {}
      ensures copiedFrom.Some? ==> copiedFrom.value in old(fs.Matches(vu.outputPath, OutputLogName))
      ensures r.Pass? <==> LogCopyGoesThrough(fs.failing, copiedFrom)
      ensures r.Fail? ==> r.error == OSError(if resultDir in fs.failing then resultDir else LogTarget())
      ensures fs.files == FilesAfterLogCopy(old(fs.files), fs.failing, copiedFrom)
      ensures fs.dirs == DirsAfterLogCopy(old(fs.dirs), fs.failing, copiedFrom)
    {
      copiedFrom := None;
      if vu == null {
        return Pass, copiedFrom;
      }
      var logs := fs.Glob(vu.outputPath, OutputLogName);
      if |logs| == 0 {
        assert fs.Matches(vu.outputPath, OutputLogName) == {};
        return Pass, copiedFrom;
      }
      var source := logs[0];
      assert source in fs.Matches(vu.outputPath, OutputLogName);
      copiedFrom := Some(source);
      var ok := fs.MakeDirs(resultDir);
      if !ok {
        return Fail(OSError(resultDir)), copiedFrom;
      }
      var target := PathJoin(resultDir, OutputLogName);
      ok := fs.Copy(source, target);
      if !ok {
        return Fail(OSError(target)), copiedFrom;
      }
      r := Pass;
    }

    /** NVC's `_generate_coverage_report`. Without the database it only warns:
        nothing is created, run or copied. Otherwise it creates the report
        directory and runs `nvc --cover-report`; a failure is raised again and
        the database is not copied; on success the result directory is
        created and the database copied into it, raising if that fails. */
    method GenerateNvcReport(fs: FileSystem, shell: Shell) returns (r: Outcome<Error>)
      requires kind == Nvc && vu != null
      modifies fs`dirs, fs`files, shell`history
      ensures var out := vu.outputPath;
        var command := NvcReportCommand(NvcName, ReportDir(out), NcdbPath(out));
        var target := PathJoin(resultDir, NcdbName);
        var present := NcdbPath(out) in old(fs.files);
        var ran := present && ReportDir(out) !in fs.failing;
        var reported := ran && Exec(command) !in shell.failing;
        var copied := reported && resultDir !in fs.failing && target !in fs.failing && NcdbPath(out) != target;
        (shell.history == if ran then old(shell.history) + [Exec(command)] else old(shell.history)) &&
        (r.Pass? <==> !present || copied) &&
        (fs.files == if copied then old(fs.files)[target := old(fs.files)[NcdbPath(out)]] else old(fs.files)) &&
        (fs.dirs == old(fs.dirs) + (if ran then {ReportDir(out)} else {}) +
                    (if reported && resultDir !in fs.failing then {resultDir} else {})) &&
        (present && !ran ==> r == Fail(OSError(ReportDir(out)))) &&
        (ran && Exec(command) in shell.failing ==> r == Fail(CalledProcessError(command)))
    {
      var out := vu.outputPath;
      var database := NcdbPath(out);
      var reportDir := ReportDir(out);
      if database !in fs.files {
        return Pass;
      }
      var ok := fs.MakeDirs(reportDir);
      if !ok {
        return Fail(OSError(reportDir));
      }
      var command := NvcReportCommand(NvcName, reportDir, database);
      var status := shell.Run(command);
      if status != 0 {
        return Fail(CalledProcessError(command));
      }
      ok := fs.MakeDirs(resultDir);
      if !ok {
        return Fail(OSError(resultDir));
      }
      var target := PathJoin(resultDir, NcdbName);
      ok := fs.Copy(database, target);
      if !ok {
        return Fail(OSError(target));
      }
      r := Pass;
    }

    /** GHDL's `_generate_coverage_report`: creates the report directory,
        merges the coverage data into it and, for the GCC backend only, runs
        lcov and then genhtml; every failure is raised again. */
    method GenerateGhdlReport(results: Results, fs: FileSystem, shell: Shell) returns (r: Outcome<Error>)
      requires kind == Ghdl && vu != null
      modifies fs`dirs, results`mergedInto, shell`history
      ensures var dir := ReportDir(vu.outputPath);
        var merged := dir !in fs.failing;
        var gcc := merged && !results.mergeFails && results.backend == "gcc";
        (fs.dirs == if merged then old(fs.dirs) + {dir} else old(fs.dirs)) &&
        (dir in fs.failing ==> r == Fail(OSError(dir))) &&
        (results.mergedInto == if merged then old(results.mergedInto) + [dir] else old(results.mergedInto)) &&
        (merged && results.mergeFails ==> r == Fail(MergeFailed(dir))) &&
        (shell.history == if gcc then old(shell.history) + GccReportTrace(dir, shell.failing)
                          else old(shell.history)) &&
        (r.Pass? <==> merged && !results.mergeFails &&
                      (gcc ==> Exec(LcovCommand(dir)) !in shell.failing &&
                               Exec(GenhtmlCommand(dir)) !in shell.failing))
    {
      var dir := ReportDir(vu.outputPath);
      var ok := fs.MakeDirs(dir);
      if !ok {
        return Fail(OSError(dir));
      }
      ok := results.MergeCoverage(dir);
      if !ok {
        return Fail(MergeFailed(dir));
      }
      if results.backend == "gcc" {
        r := GenerateGccReport(dir, shell);
      } else {
        r := Pass;
      }
    }

    /** `_generate_gcc_coverage_report`: lcov, then genhtml; a failing step raises. */
    method GenerateGccReport(dir: Path, shell: Shell) returns (r: Outcome<Error>)
      modifies shell`history
      ensures shell.history == old(shell.history) + GccReportTrace(dir, shell.failing)
      ensures Exec(LcovCommand(dir)) in shell.failing ==> r == Fail(CalledProcessError(LcovCommand(dir)))
      ensures Exec(LcovCommand(dir)) !in shell.failing && Exec(GenhtmlCommand(dir)) in shell.failing ==>
        r == Fail(CalledProcessError(GenhtmlCommand(dir)))
      ensures r.Pass? <==>
        Exec(LcovCommand(dir)) !in shell.failing && Exec(GenhtmlCommand(dir)) !in shell.failing
    {
      var lcov := LcovCommand(dir);
      var status := shell.Run(lcov);
      if status != 0 {
        return Fail(CalledProcessError(lcov));
      }
      var genhtml := GenhtmlCommand(dir);
      status := shell.Run(genhtml);
      if status != 0 {
        return Fail(CalledProcessError(genhtml));
      }
      r := Pass;
    }

    /** `post_run`: copies the output log first, and a failed copy is raised;
        then, only when coverage is enabled and a handle is set, builds the
        coverage report on the state the log copy left. `copiedFrom` names
        the log copied, as for `CopyOutputLog`. */
    method PostRun(results: Results, fs: FileSystem, shell: Shell) returns (r: Outcome<Error>, ghost copiedFrom: Option<Path>)
      modifies fs`dirs, fs`files, shell`history, results`mergedInto
      ensures copiedFrom.Some? <==> vu != null && old(fs.Matches(vu.outputPath, OutputLogName)) != {}
      ensures copiedFrom.Some? ==> copiedFrom.value in old(fs.Matches(vu.outputPath, OutputLogName))
      // No report: the state is the one the log copy leaves.
      ensures !LogCopyGoesThrough(fs.failing, copiedFrom) || !enableCoverage || vu == null ==>
        (r.Pass? <==> LogCopyGoesThrough(fs.failing, copiedFrom)) &&
        fs.files == FilesAfterLogCopy(old(fs.files), fs.failing, copiedFrom) &&
        fs.dirs == DirsAfterLogCopy(old(fs.dirs), fs.failing, copiedFrom) &&
        shell.history == old(shell.history) && results.mergedInto == old(results.mergedInto)
      // NVC: the report and the database copy, after the log copy.
      ensures LogCopyGoesThrough(fs.failing, copiedFrom) && enableCoverage && vu != null && kind == Nvc ==>
        var files := FilesAfterLogCopy(old(fs.files), fs.failing, copiedFrom);
        var dirs := DirsAfterLogCopy(old(fs.dirs), fs.failing, copiedFrom);
        var out := vu.outputPath;
        var command := NvcReportCommand(NvcName, ReportDir(out), NcdbPath(out));
        var target := PathJoin(resultDir, NcdbName);
        var present := NcdbPath(out) in old(fs.files);
        var ran := present && ReportDir(out) !in fs.failing;
        var reported := ran && Exec(command) !in shell.failing;
        var copied := reported && resultDir !in fs.failing && target !in fs.failing && NcdbPath(out) != target;
        results.mergedInto == old(results.mergedInto) &&
        (shell.history == if ran then old(shell.history) + [Exec(command)] else old(shell.history)) &&
        (r.Pass? <==> !present || copied) &&
        (fs.files == if copied then files[target := old(fs.files)[NcdbPath(out)]] else files) &&
        (fs.dirs == dirs + (if ran then {ReportDir(out)} else {}) +
                    (if reported && resultDir !in fs.failing then {resultDir} else {}))
      // GHDL: the merge and the GCC tools, after the log copy.
      ensures LogCopyGoesThrough(fs.failing, copiedFrom) && enableCoverage && vu != null && kind == Ghdl ==>
        var dir := ReportDir(vu.outputPath);
        var merged := dir !in fs.failing;
        var gcc := merged && !results.mergeFails && results.backend == "gcc";
        fs.files == FilesAfterLogCopy(old(fs.files), fs.failing, copiedFrom) &&
        (fs.dirs == DirsAfterLogCopy(old(fs.dirs), fs.failing, copiedFrom) + (if merged then {dir} else {})) &&
        (results.mergedInto == if merged then old(results.mergedInto) + [dir] else old(results.mergedInto)) &&
        (shell.history == if gcc then old(shell.history) + GccReportTrace(dir, shell.failing)
                          else old(shell.history)) &&
        (r.Pass? <==> merged && !results.mergeFails &&
                      (gcc ==> Exec(LcovCommand(dir)) !in shell.failing &&
                               Exec(GenhtmlCommand(dir)) !in shell.failing))
    {
      r, copiedFrom := CopyOutputLog(fs);
      if r.Fail? {
        return;
      }
      if !enableCoverage || vu == null {
        return;
      }
      if kind == Nvc {
        LogAndDatabaseTargetsDiffer(resultDir, vu.outputPath);
        r := GenerateNvcReport(fs, shell);
      } else {
        r := GenerateGhdlReport(results, fs, shell);
      }
    }
  }

  /** `__init__` of NVC or GHDL: the object with its initial fields, after
      checking that the executable is on the path and writing its name to
      VUNIT_SIMULATOR. Without the executable it raises SystemExit and
      changes nothing. */
  method NewSimulator(kind: Kind, env: Environment, cwd: Path) returns (r: Result<Simulator, Error>)
    modifies env`vars
    ensures r.Err? <==> kind.Name() !in env.executables
    ensures r.Err? ==> r.error == SystemExit(NotFoundMessage(kind)) && env.vars == old(env.vars)
    ensures r.Ok? ==>
      fresh(r.value) && r.value.kind == kind && r.value.Initial(cwd) &&
      env.vars == old(env.vars)[SimulatorVar := kind.Name()]
  {
    if env.Which(kind.Name()).None? {
      return Err(SystemExit(NotFoundMessage(kind)));
    }
    var simulator := new Simulator(kind, cwd);
    env.vars := env.vars[SimulatorVar := kind.Name()];
    r := Ok(simulator);
  }

  /** `select_simulator`: the class `ResolveSimulator` decides on, built by
      `NewSimulator`; a refused name builds nothing and changes nothing. */
  method SelectSimulator(name: Option<string>, env: Environment, cwd: Path) returns (r: Result<Simulator, Error>)
    modifies env`vars
    ensures ResolveSimulator(name, env.executables).Err? ==>
      r == Err(ResolveSimulator(name, env.executables).error) && env.vars == old(env.vars)
    ensures ResolveSimulator(name, env.executables).Ok? ==>
      var kind := ResolveSimulator(name, env.executables).value;
      (r.Ok? <==> kind.Name() in env.executables) &&
      (r.Ok? ==> fresh(r.value) && r.value.kind == kind && r.value.Initial(cwd) &&
                 env.vars == old(env.vars)[SimulatorVar := kind.Name()]) &&
      (r.Err? ==> r.error == SystemExit(NotFoundMessage(kind)) && env.vars == old(env.vars))
  {
    var decision := ResolveSimulator(name, env.executables);
    if decision.Err? {
      return Err(decision.error);
    }
    r := NewSimulator(decision.value, env, cwd);
  }

  /** NVC with coverage: `setup_coverage` followed by `configure` leaves all
      test cases in one simulation, as NVC's coverage needs, and the
      elaboration flags name the coverage database. */
  method CoverageThenConfigure(simulator: Simulator, vu: VUnitSession, fs: FileSystem)
    returns (r: Outcome<Error>)
    requires simulator.kind == Nvc && vu.outputPath !in fs.failing
    modifies simulator, vu, fs
    ensures r == Pass
    ensures RunAllInSameSim in vu.attributes && vu.attributes[RunAllInSameSim]
    ensures FlagsOf(vu.simOptions, NvcGlobalFlags) == [IeeeWarningsOff]
    ensures var elab := FlagsOf(vu.simOptions, NvcElabFlags);
      |elab| == 2 && elab[1] == "--cover-file=" + vu.outputPath + "/coverage.ncdb"
  {
    r := simulator.SetupNvcCoverage(vu, None, fs);
    if r.Fail? {
      return;
    }
    simulator.ConfigureNvc(vu);
    NvcCoverageFlagsShape(vu.outputPath, false);
  }
}
