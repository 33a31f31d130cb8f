/** The earlier helper functions of bench/utils.py: detecting a simulator
    (NVC, then GHDL, then ModelSim), fixed flag settings per simulator,
    generating the NVC coverage report, copying the artifacts to the result
    directory, and the post-run callback that chains the two. */
module BenchUtils {
  import opened Wrappers
  import opened Platform
  import opened VUnitApi
  import SetupVunit

  const ModelsimName: string := "modelsim"
  const VsimName: string := "vsim"

  const DefaultNcdb: Path := "vunit_out/coverage.ncdb"
  const DefaultReportFolder: Path := "vunit_out/coverage_report"
  const DefaultOutputFolder: Path := "vunit_out/test_output"
  const DefaultResultDir: Path := "bench/results"

  const NvcNotFound: string := "nvc executable not found in PATH"
  const ReportFailed: string := "Failed to generate coverage report with error"

  /** `shutil.which` found `name`: the test is on truthiness, so an empty
      path counts as not found. */
  predicate OnPath(executables: map<string, Path>, name: string) {
    name in executables && executables[name] != ""
  }

  /** The simulator `setup_simulator` detects: the first of nvc, ghdl and vsim
      on the path (vsim is reported as "modelsim"); exit status 1 if none is,
      which is what the exit call is evidently meant to give (see
      `DetectSimulatorAsWritten`). */
  function DetectSimulator(executables: map<string, Path>): Result<string, Error>
  {
    if OnPath(executables, SetupVunit.NvcName) then Ok(SetupVunit.NvcName)
    else if OnPath(executables, SetupVunit.GhdlName) then Ok(SetupVunit.GhdlName)
    else if OnPath(executables, VsimName) then Ok(ModelsimName)
    else Err(ExitStatus(1))
  }

  /** The priority is nvc, then ghdl, then vsim, and the process exits with
      status 1 exactly when none of them is found. */
  lemma DetectionPriority(executables: map<string, Path>)
    ensures DetectSimulator(executables) == Ok("nvc") <==> OnPath(executables, "nvc")
    ensures DetectSimulator(executables) == Ok("ghdl") <==>
      !OnPath(executables, "nvc") && OnPath(executables, "ghdl")
    ensures DetectSimulator(executables) == Ok("modelsim") <==>
      !OnPath(executables, "nvc") && !OnPath(executables, "ghdl") && OnPath(executables, "vsim")
    ensures DetectSimulator(executables) == Err(ExitStatus(1)) <==>
      !OnPath(executables, "nvc") && !OnPath(executables, "ghdl") && !OnPath(executables, "vsim")
  {
  }

  const SysExitKeyword: string := "sys.exit() takes no keyword arguments"

  /** Detection as bench/utils.py:67 writes it: `sys.exit` takes its status
      positionally only, so `sys.exit(status=1)` raises TypeError instead of
      exiting with status 1. */
  function DetectSimulatorAsWritten(executables: map<string, Path>): Result<string, Error>
  {
    if OnPath(executables, SetupVunit.NvcName) then Ok(SetupVunit.NvcName)
    else if OnPath(executables, SetupVunit.GhdlName) then Ok(SetupVunit.GhdlName)
    else if OnPath(executables, VsimName) then Ok(ModelsimName)
    else Err(TypeError(SysExitKeyword))
  }

  /** The code as written agrees with the intended detection whenever a
      simulator is found, and raises TypeError exactly where exit status 1
      is meant. */
  lemma ExitKeywordRaisesTypeError(executables: map<string, Path>)
    ensures DetectSimulatorAsWritten(executables).Ok? <==> DetectSimulator(executables).Ok?
    ensures DetectSimulatorAsWritten(executables).Ok? ==>
      DetectSimulatorAsWritten(executables) == DetectSimulator(executables)
    ensures DetectSimulatorAsWritten(executables) == Err(TypeError(SysExitKeyword)) <==>
      DetectSimulator(executables) == Err(ExitStatus(1))
  {
  }

  /** With no simulator on the path the two differ. */
  lemma NothingFoundRaisesTypeError()
    ensures DetectSimulatorAsWritten(map[]) == Err(TypeError(SysExitKeyword))
    ensures DetectSimulator(map[]) == Err(ExitStatus(1))
  {
  }

  /** `setup_simulator`: returns the detected name; VUNIT_SIMULATOR keeps a
      value that is already set and is set to the detected name only when it
      is not. Nothing changes when no simulator is found. */
  method SetupSimulator(env: Environment) returns (r: Result<string, Error>)
    modifies env`vars
    ensures r == DetectSimulator(env.executables)
    ensures r.Err? ==> env.vars == old(env.vars)
    ensures r.Ok? ==> env.vars == if SetupVunit.SimulatorVar in old(env.vars) then old(env.vars)
                                  else old(env.vars)[SetupVunit.SimulatorVar := r.value]
  {
    var detected: string;
    var nvc := env.Which(SetupVunit.NvcName);
    var ghdl := env.Which(SetupVunit.GhdlName);
    var vsim := env.Which(VsimName);
    if nvc.Some? && nvc.value != "" {
      detected := SetupVunit.NvcName;
    } else if ghdl.Some? && ghdl.value != "" {
      detected := SetupVunit.GhdlName;
    } else if vsim.Some? && vsim.value != "" {
      detected := ModelsimName;
    } else {
      return Err(ExitStatus(1));
    }
    var value := if SetupVunit.SimulatorVar in env.vars then env.vars[SetupVunit.SimulatorVar] else detected;
    env.vars := env.vars[SetupVunit.SimulatorVar := value];
    r := Ok(detected);
  }

  /** `setup_nvc`: the elaboration flags become exactly the coverage kinds and the
      database vunit_out/coverage.ncdb, the flags the later revision writes for
      the output directory vunit_out without a specification file. */
  method SetupNvc(vu: VUnitSession)
    modifies vu`simOptions
    ensures vu.simOptions == old(vu.simOptions)[SetupVunit.NvcElabFlags :=
      Flags(SetupVunit.NvcCoverageFlags("vunit_out", false))]
    ensures vu.simOptions[SetupVunit.NvcElabFlags].flags ==
      [SetupVunit.CoverFlag, "--cover-file=" + DefaultNcdb]
  {
    var flags := [SetupVunit.CoverFlag, "--cover-file=" + DefaultNcdb];
    DefaultDatabase();
    assert flags == SetupVunit.NvcCoverageFlags("vunit_out", false);
    vu.SetSimOption(SetupVunit.NvcElabFlags, Flags(flags));
  }

  /** The database `setup_nvc` names is the one in the output directory vunit_out. */
  lemma DefaultDatabase()
    ensures DefaultNcdb == SetupVunit.NcdbPath("vunit_out")
  {
    assert "/" + SetupVunit.NcdbName == "/coverage.ncdb";
  }

  /** `setup_ghdl`: the analysis flags become exactly the hide warning, GHDL's
      analysis flags without vendor libraries. */
  method SetupGhdl(vu: VUnitSession)
    modifies vu`compileOptions
    ensures vu.compileOptions == old(vu.compileOptions)[SetupVunit.GhdlAFlags :=
      Flags(SetupVunit.GhdlAnalysisFlags(false))]
  {
    vu.SetCompileOption(SetupVunit.GhdlAFlags, Flags(["--warn-no-hide"]));
    assert ["--warn-no-hide"] == SetupVunit.GhdlAnalysisFlags(false);
  }

  /** `setup_modelsim`: turns on the enable_coverage simulation option. */
  method SetupModelsim(vu: VUnitSession)
    modifies vu`simOptions
    ensures vu.simOptions == old(vu.simOptions)[SetupVunit.EnableCoverage := Switch(true)]
  {
    vu.SetSimOption(SetupVunit.EnableCoverage, Switch(true));
  }

  /** Whether `generate_coverage_report_nvc` raises. */
  predicate NvcReportFails(env: Environment, fs: FileSystem, shell: Shell, ncdb: Path, outputFolder: Path)
  {
    var nvc := env.Which(SetupVunit.NvcName);
    nvc.None? || nvc.value == "" || outputFolder in fs.failing ||
    Exec(SetupVunit.NvcReportCommand(nvc.value, outputFolder, ncdb)) in shell.failing
  }

  /** `generate_coverage_report_nvc`: raises FileNotFoundError when nvc is not
      on the path, before creating the folder or running anything; otherwise
      creates the folder and runs exactly
      `[<nvc path>, "--cover-report", "-o", <folder>, <database>]`, turning a
      failure of that process into RuntimeError. */
  method GenerateCoverageReportNvc(env: Environment, fs: FileSystem, shell: Shell, ncdb: Path, outputFolder: Path)
    returns (r: Outcome<Error>)
    modifies fs`dirs, shell`history
    ensures r.Fail? <==> NvcReportFails(env, fs, shell, ncdb, outputFolder)
    ensures var nvc := env.Which(SetupVunit.NvcName);
      if nvc.None? || nvc.value == "" then
        r == Fail(FileNotFoundError(NvcNotFound)) &&
        fs.dirs == old(fs.dirs) && shell.history == old(shell.history)
      else if outputFolder in fs.failing then
        r == Fail(OSError(outputFolder)) && fs.dirs == old(fs.dirs) && shell.history == old(shell.history)
      else
        var command := SetupVunit.NvcReportCommand(nvc.value, outputFolder, ncdb);
        fs.dirs == old(fs.dirs) + {outputFolder} &&
        shell.history == old(shell.history) + [Exec(command)] &&
        (r.Fail? ==> r == Fail(RuntimeError(ReportFailed, CalledProcessError(command))))
  {
    var nvc := env.Which(SetupVunit.NvcName);
    if nvc.None? || nvc.value == "" {
      return Fail(FileNotFoundError(NvcNotFound));
    }
    var ok := fs.MakeDirs(outputFolder);
    if !ok {
      return Fail(OSError(outputFolder));
    }
    var command := SetupVunit.NvcReportCommand(nvc.value, outputFolder, ncdb);
    var status := shell.Run(command);
    if status != 0 {
      return Fail(RuntimeError(ReportFailed, CalledProcessError(command)));
    }
    r := Pass;
  }

  /** What `copy_to_result_dir` reports for one artifact. */
  datatype Notice =
    | Copied(source: Path, target: Path)
    | CopyFailed(source: Path)
    | NcdbMissing(path: Path)
    | NoOutputLog(folder: Path)

  /** What `copy_to_result_dir` does, from the files and directories
      `files0`, `dirs0` to `files1`, `dirs1`, with result `r` and the notices
      it reports. Only a failure to create the result directory is raised.
      The database is copied under its own name when it exists, else a
      warning is given; then one of the output.txt logs found (the first the
      search returns) is copied, else a warning is given. A copy onto an
      unwritable target or onto the source itself is reported as failed and
      the function goes on. */
  predicate CopiedToResultDir(failing: set<Path>, files0: map<Path, string>, dirs0: set<Path>,
                              files1: map<Path, string>, dirs1: set<Path>,
                              ncdb: Path, outputFolder: Path, resultDir: Path,
                              r: Outcome<Error>, notices: seq<Notice>)
  {
    if resultDir in failing then
      r == Fail(OSError(resultDir)) && notices == [] && files1 == files0 && dirs1 == dirs0
    else
      var ncdbTarget := PathJoin(resultDir, BaseName(ncdb));
      var logTarget := PathJoin(resultDir, SetupVunit.OutputLogName);
      var ncdbCopied := ncdb in files0 && ncdbTarget !in failing && ncdb != ncdbTarget;
      var middle := if ncdbCopied then files0[ncdbTarget := files0[ncdb]] else files0;
      var logs := MatchesIn(middle, outputFolder, SetupVunit.OutputLogName);
      r == Pass && dirs1 == dirs0 + {resultDir} && |notices| == 2 &&
      notices[0] == (if ncdb !in files0 then NcdbMissing(ncdb)
                     else if ncdbCopied then Copied(ncdb, ncdbTarget) else CopyFailed(ncdb)) &&
      (logs == {} ==> notices[1] == NoOutputLog(outputFolder) && files1 == middle) &&
      (logs != {} ==>
        (notices[1].Copied? || notices[1].CopyFailed?) && notices[1].source in logs &&
        (notices[1].Copied? <==> logTarget !in failing && notices[1].source != logTarget) &&
        (notices[1].Copied? ==> notices[1].target == logTarget &&
                                files1 == middle[logTarget := middle[notices[1].source]]) &&
        (notices[1].CopyFailed? ==> files1 == middle))
  }

  /** `copy_to_result_dir` raises only when the result directory cannot be
      created, creates it otherwise, and writes no file but the two targets. */
  lemma CopyTouchesOnlyTargets(failing: set<Path>, files0: map<Path, string>, dirs0: set<Path>,
                               files1: map<Path, string>, dirs1: set<Path>,
                               ncdb: Path, outputFolder: Path, resultDir: Path,
                               r: Outcome<Error>, notices: seq<Notice>)
    requires CopiedToResultDir(failing, files0, dirs0, files1, dirs1, ncdb, outputFolder, resultDir, r, notices)
    ensures r.Pass? <==> resultDir !in failing
    ensures r.Pass? ==> resultDir in dirs1
    ensures files1.Keys <= files0.Keys + {PathJoin(resultDir, BaseName(ncdb)), PathJoin(resultDir, SetupVunit.OutputLogName)}
    ensures forall p :: p in files0 && p != PathJoin(resultDir, BaseName(ncdb)) &&
                          p != PathJoin(resultDir, SetupVunit.OutputLogName)
                        ==> p in files1 && files1[p] == files0[p]
  {
    if resultDir !in failing {
      var ncdbTarget := PathJoin(resultDir, BaseName(ncdb));
      var logTarget := PathJoin(resultDir, SetupVunit.OutputLogName);
      var ncdbCopied := ncdb in files0 && ncdbTarget !in failing && ncdb != ncdbTarget;
      var middle := if ncdbCopied then files0[ncdbTarget := files0[ncdb]] else files0;
      assert middle.Keys <= files0.Keys + {ncdbTarget};
      assert files1 == middle || (notices[1].Copied? && files1 == middle[logTarget := middle[notices[1].source]]);
    }
  }

  /** `copy_to_result_dir`. */
  method CopyToResultDir(fs: FileSystem, ncdb: Path, outputFolder: Path, resultDir: Path)
    returns (r: Outcome<Error>, notices: seq<Notice>)
    modifies fs`dirs, fs`files
    ensures CopiedToResultDir(fs.failing, old(fs.files), old(fs.dirs), fs.files, fs.dirs,
                              ncdb, outputFolder, resultDir, r, notices)
  {
    var ok := fs.MakeDirs(resultDir);
    if !ok {
      return Fail(OSError(resultDir)), [];
    }

    var first: Notice;
    if ncdb in fs.files {
      var target := PathJoin(resultDir, BaseName(ncdb));
      ok := fs.Copy(ncdb, target);
      first := if ok then Copied(ncdb, target) else CopyFailed(ncdb);
    } else {
      first := NcdbMissing(ncdb);
    }

    var second: Notice;
    var logs := fs.Glob(outputFolder, SetupVunit.OutputLogName);
    if |logs| > 0 {
      var source := logs[0];
      assert source in fs.Matches(outputFolder, SetupVunit.OutputLogName);
      var target := PathJoin(resultDir, SetupVunit.OutputLogName);
      ok := fs.Copy(source, target);
      second := if ok then Copied(source, target) else CopyFailed(source);
    } else {
      assert fs.Matches(outputFolder, SetupVunit.OutputLogName) == {};
      second := NoOutputLog(outputFolder);
    }
    r, notices := Pass, [first, second];
  }

  /** `post_run_callback`: the NVC coverage report only for "nvc" (the
      simulator argument's default); a report failure is raised and nothing
      is copied; otherwise the artifacts are copied for every simulator, on
      the state the report left. */
  method PostRunCallback(simulator: string, env: Environment, fs: FileSystem, shell: Shell)
    returns (r: Outcome<Error>, notices: seq<Notice>)
    modifies fs`dirs, fs`files, shell`history
    ensures simulator != SetupVunit.NvcName ==>
      shell.history == old(shell.history) &&
      CopiedToResultDir(fs.failing, old(fs.files), old(fs.dirs), fs.files, fs.dirs,
                        DefaultNcdb, DefaultOutputFolder, DefaultResultDir, r, notices)
    ensures simulator == SetupVunit.NvcName ==>
      var nvc := env.Which(SetupVunit.NvcName);
      var ran := OnPath(env.executables, SetupVunit.NvcName) && DefaultReportFolder !in fs.failing;
      var reportDirs := if ran then old(fs.dirs) + {DefaultReportFolder} else old(fs.dirs);
      (shell.history == if ran then old(shell.history) +
                          [Exec(SetupVunit.NvcReportCommand(nvc.value, DefaultReportFolder, DefaultNcdb))]
                        else old(shell.history)) &&
      (NvcReportFails(env, fs, shell, DefaultNcdb, DefaultReportFolder) ==>
        r.Fail? && notices == [] && fs.files == old(fs.files) && fs.dirs == reportDirs) &&
      (!NvcReportFails(env, fs, shell, DefaultNcdb, DefaultReportFolder) ==>
        CopiedToResultDir(fs.failing, old(fs.files), reportDirs, fs.files, fs.dirs,
                          DefaultNcdb, DefaultOutputFolder, DefaultResultDir, r, notices))
  {
    if simulator == SetupVunit.NvcName {
      r := GenerateCoverageReportNvc(env, fs, shell, DefaultNcdb, DefaultReportFolder);
      if r.Fail? {
        return r, [];
      }
    }
    r, notices := CopyToResultDir(fs, DefaultNcdb, DefaultOutputFolder, DefaultResultDir);
  }
}
