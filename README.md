# FPGA test-bench helpers, modelled in Dafny

This project models the Python glue of an FPGA repository's VHDL test and lint flow:

- **bench/setup_vunit.py** (`SetupVunit`): choosing NVC or GHDL and building the simulator object. It covers registering the Xilinx Unisim/Unifast libraries, the flags each simulator writes into VUnit's option tables, and coverage set-up, including the NVC coverage specification file. It also covers the post-run hook, which copies the output log and builds the coverage report.
- **bench/utils.py** (`BenchUtils`): the older helpers.
  - Simulator detection (nvc, then ghdl, then vsim), keeping any existing `VUNIT_SIMULATOR`.
  - The fixed per-simulator flags.
  - The NVC coverage report and the copy of the artifacts to `bench/results`.
- **bench/spi/run.py** (`SpiRun`): one SPI master test configuration per (CPOL, CPHA) pair. Each has its mode number, name and generics.
- **lint/script/lint.py** (`Lint`): which `.vhd` files are linted, how the paths are joined, the vsg output format, and the fail-fast (debug) and batch error policies.

Supporting modules:

- `Wrappers`: `Option`, `Result`, `Outcome`.
- `Strings`: join/split, lower-casing, decimal rendering.
- `Platform`: the process environment with `shutil.which`, a file system as a map from path to contents, and a shell that records every command and fails the ones listed as failing.
- `VUnitApi`: VUnit's option tables, where `set_*` replaces and `add_*` appends, plus libraries, results and test benches.

The Python exceptions become `Error` values. A method that can raise returns an `Outcome` or a `Result`.

The `NVC` and `GHDL` subclasses of the abstract `Simulator` become one class `Simulator` whose `kind` is `Nvc` or `Ghdl`:

- A subclass method is a method with `requires kind == Nvc` or `requires kind == Ghdl`.
- Methods both subclasses implement the same way, apart from a constant, branch on `kind`.
- A Dafny constructor cannot fail, so the PATH check and the environment write of `__init__` are in `NewSimulator`, which returns a `Result`.

Three behaviours worth knowing, as the code has them:

- The post-run hook copies only the first `output.txt` that the search returns. It does not merge several logs in sorted order with banners.
- `select_simulator` does not look at any environment override such as `VUNIT_SIMULATOR`.
- A missing vendor-library path is not an error: the default path is used.

## Model

| member | source | states |
|---|---|---|
| SetupVunit.AutoSelection | bench/setup_vunit.py:451-464 | Without a name, NVC is chosen exactly when nvc is on the path. GHDL is chosen exactly when only ghdl is. SystemExit("ERROR: No supported simulator found in PATH!") exactly when neither is. |
| SetupVunit.AutoSelectedIsOnPath | bench/setup_vunit.py:451-457 | An automatically chosen simulator's executable is on the path, so its constructor's check passes. |
| SetupVunit.ExplicitName | bench/setup_vunit.py:459-469 | An explicit name selects NVC iff it spells "nvc" in any letter case, and GHDL iff it spells "ghdl". Every other name gives ValueError with the "Unsupported simulator: <name>. Supported simulators: nvc, ghdl" message. |
| SetupVunit.NewSimulator | bench/setup_vunit.py:77-86 | Fails with SystemExit("ERROR: <sim> executable not found!") exactly when the executable is missing, leaving the environment unchanged. Otherwise it returns a fresh object with coverage off, no vendor libraries, no handle and result_dir = cwd/bench/results, and VUNIT_SIMULATOR is set to the simulator's name. |
| SetupVunit.SelectSimulator | bench/setup_vunit.py:430-469 | Builds the class `ResolveSimulator` decides on, through `NewSimulator`. A refused or undetectable name builds nothing and leaves the environment unchanged. |
| SetupVunit.Simulator.constructor | bench/setup_vunit.py:77-83 | The initial field values. |
| SetupVunit.Simulator.AddLibrary | bench/setup_vunit.py:104-117 | Appends exactly (name, the `~`-expanded path) to VUnit's external libraries. |
| SetupVunit.Simulator.AddUnisimLibrary | bench/setup_vunit.py:210-214 | Uses the given path unless it is None or empty, else the simulator's default (NVC here, GHDL at 322-326). The path is `~`-expanded and registered as "unisim". `uses_unisim` becomes true and `uses_unifast` is unchanged. |
| SetupVunit.Simulator.AddUnifastLibrary | bench/setup_vunit.py:216-220 | The same for "unifast" (GHDL at 328-332). Only `uses_unifast` changes. |
| SetupVunit.Simulator.ConfigureNvc | bench/setup_vunit.py:222-227 | `nvc.global_flags` becomes exactly ["--ieee-warnings=off-at-0"]. `run_all_in_same_sim` is set to false only when coverage is off, otherwise the attributes are unchanged. |
| SetupVunit.Simulator.ConfigureGhdl | bench/setup_vunit.py:334-343 | Stores the handle. `ghdl.a_flags` becomes ["--warn-no-hide"], followed by "-fsynopsys", "-frelaxed" iff a vendor library is used. `ghdl.sim_flags` becomes ["--asserts=disable-at-0"]. `ghdl.elab_flags` becomes the vendor pair only in the vendor case. |
| SetupVunit.Simulator.SetupNvcCoverage | bench/setup_vunit.py:229-264 | Turns coverage on, stores the handle and sets `run_all_in_same_sim` to true. With a non-empty rule list it writes coverage.spec with the text the rules give. `nvc.elab_flags` becomes the cover flag and `--cover-file=<out>/coverage.ncdb`, plus `--cover-spec=<out>/coverage.spec` iff rules were written. A failed write becomes RuntimeError and leaves the flags unset. |
| SetupVunit.SpecFileLines | bench/setup_vunit.py:255-260 | The spec file ends in a newline and has one newline per rule. The text before the final newline splits back into exactly the rules. |
| SetupVunit.NvcCoverageFlagsShape | bench/setup_vunit.py:249-260 | The coverage flags start with the `--cover=` kinds and `--cover-file=<out>/coverage.ncdb`. A `--cover-spec=` flag is present iff a spec file was written. |
| SetupVunit.CoverageThenConfigure | bench/setup_vunit.py:222-264 | After `setup_coverage`, NVC's `configure` keeps `run_all_in_same_sim` true, and the database flag names `<out>/coverage.ncdb`. |
| SetupVunit.Simulator.SetupGhdlCoverage | bench/setup_vunit.py:345-364 | Without the library pair it raises ValueError and changes neither `enable_coverage` nor the handle. With the pair it turns coverage on and stores the handle. `enable_coverage` is then set to true for LIB_SRC's compile options and for LIB_BENCH's compile and simulation options, and nothing else changes. |
| SetupVunit.Simulator.CopyOutputLog | bench/setup_vunit.py:169-181 | A log is taken exactly when there is a handle and an output.txt below the output path, and it is one of those found. With none, nothing changes. Otherwise the result directory is created if it can be, and the log lands on result_dir/output.txt. It fails, with OSError naming the directory or the file, exactly when the directory or that file cannot be written or the log is that very file. |
| SetupVunit.LogAndDatabaseTargetsDiffer | bench/setup_vunit.py:298-300 | The copied log and the copied database never land on the same file. |
| SetupVunit.Simulator.GenerateNvcReport | bench/setup_vunit.py:275-304 | Without coverage.ncdb it passes and nothing is created, run or copied. Otherwise it creates the report directory (OSError if it cannot) and runs exactly `nvc --cover-report -o <out>/coverage_report <out>/coverage.ncdb`. A failure is raised as CalledProcessError and the database is not copied. After a successful run it creates the result directory and copies the database to result_dir/coverage.ncdb. It passes iff the database is absent or that copy is made; the copy fails onto an unwritable target or onto the database itself. |
| SetupVunit.Simulator.GenerateGhdlReport | bench/setup_vunit.py:375-389 | Creates the report directory (OSError if it cannot, and then nothing else happens) and merges coverage into it. Only for the "gcc" backend, after a successful merge, does it run lcov and then genhtml. It passes iff the directory, the merge and (for gcc) both tools succeed; every failure is raised. |
| SetupVunit.Simulator.GenerateGccReport | bench/setup_vunit.py:391-427 | Runs the exact lcov command, then the exact genhtml command only if lcov succeeded. The first failure is raised. |
| SetupVunit.Simulator.PostRun | bench/setup_vunit.py:266-273 | The log copy comes first and its failure stops everything. Without coverage or a handle the files and directories are those the log copy leaves, and nothing runs. For NVC the whole new state is stated: the report runs only when the database exists, the database lands on result_dir/coverage.ncdb only after the report succeeded, over the files the log copy left, and the result passes iff the database is absent or copied. GHDL (366-373) merges and runs the GCC tools as `GenerateGhdlReport` states, after the log copy. |
| Strings.ToLowerMatchesWord | bench/setup_vunit.py:459 | `str.lower` of a name equals a lower-case word iff the name spells that word in any letter case. |
| Platform.ExpandUserHomeRelative | bench/setup_vunit.py:116 | `~/rest` expands to the home directory without trailing slashes, followed by `/rest`. A path not starting with `~` is unchanged. |
| Platform.FileSystem.Glob | bench/setup_vunit.py:175 | Returns every file named output.txt in or below the folder exactly once, and nothing else. |
| Platform.BaseName | bench/utils.py:188 | `Path.name` is the longest suffix of the path without any "/": the whole path, or what follows its last "/". |
| Platform.FileSystem.Copy | bench/utils.py:188 | `shutil.copy2`, as called here and at bench/utils.py:202 and bench/setup_vunit.py:181 and 300, succeeds iff the source exists, the target can be written and the two differ (else SameFileError); the target then holds the source's contents and no other file changes. |
| BenchUtils.DetectionPriority | bench/utils.py:59-67 | Detection gives "nvc" iff nvc is on the path. It gives "ghdl" iff only ghdl of the two is, and "modelsim" iff only vsim is. It gives exit status 1 iff none is. The test is on truthiness, so an empty path counts as not found. |
| BenchUtils.ExitKeywordRaisesTypeError | bench/utils.py:59-67 | The detection as written agrees with the intended one whenever a simulator is found, and raises TypeError("sys.exit() takes no keyword arguments") exactly where exit status 1 is meant. |
| BenchUtils.NothingFoundRaisesTypeError | bench/utils.py:66-67 | With nothing on the path the code as written raises TypeError, while the intended result is exit status 1. |
| BenchUtils.SetupSimulator | bench/utils.py:44-72 | Returns the detected name. VUNIT_SIMULATOR keeps an existing value and is set to the detected name only when unset. When nothing is detected the environment is unchanged. |
| BenchUtils.SetupNvc | bench/utils.py:75-84 | `nvc.elab_flags` becomes exactly the cover flag and `--cover-file=vunit_out/coverage.ncdb`. These are the flags SetupVunit builds for the output path vunit_out without a spec file. |
| BenchUtils.SetupGhdl | bench/utils.py:87-90 | `ghdl.a_flags` becomes exactly ["--warn-no-hide"], GHDL's analysis flags without vendor libraries. |
| BenchUtils.SetupModelsim | bench/utils.py:93-96 | The `enable_coverage` simulation option becomes true. |
| BenchUtils.GenerateCoverageReportNvc | bench/utils.py:99-152 | Raises FileNotFoundError when nvc is not found (or found as ""), before any mkdir or run. Otherwise it creates the folder and runs exactly `[<nvc path>, "--cover-report", "-o", <folder>, <database>]`. A failure becomes RuntimeError caused by CalledProcessError of that command. It fails iff one of these conditions holds. |
| BenchUtils.CopyToResultDir | bench/utils.py:155-209 | Only a failed mkdir of the result directory is raised, and then nothing else happens. The database is copied under its own name when it exists, otherwise NcdbMissing is reported. Then one found output.txt, searched after the database copy, goes to result/output.txt, otherwise NoOutputLog is reported. A copy onto an unwritable target or onto its own source is reported as CopyFailed and not raised. |
| BenchUtils.CopyTouchesOnlyTargets | bench/utils.py:155-209 | The copy raises iff the result directory cannot be created, creates it otherwise, and changes no file but the two targets. |
| BenchUtils.PostRunCallback | bench/utils.py:212-225 | For "nvc" the report command runs exactly when nvc is found and the report folder can be created, and its failure is raised with no file copied. Otherwise the copy runs as `CopyToResultDir` states, on the directories the report left, and returns its notices. Non-NVC simulators run no command and only copy. |
| SpiRun.ModeOfBits | bench/spi/run.py:123 | For bit inputs the mode is in 0..3, its high bit is CPOL and its low bit is CPHA, so distinct pairs give distinct modes. |
| SpiRun.ModeCoversAll | bench/spi/run.py:123 | Each of the modes 0..3 comes from a bit pair. |
| SpiRun.GenerateSpiTests | bench/spi/run.py:111-126 | Appends exactly the configurations of the product of the CPOL and CPHA lists, in `product` order, to the test bench. |
| SpiRun.ProductSize | bench/spi/run.py:120 | The product has \|cpols\|·\|cphas\| pairs. |
| SpiRun.ProductAt | bench/spi/run.py:120 | Pair i·\|ys\|+j of the product is (xs[i], ys[j]). |
| SpiRun.SpiConfigsAt | bench/spi/run.py:120-126 | Configuration i·\|cphas\|+j is the one of (cpols[i], cphas[j]), and there are \|cpols\|·\|cphas\| configurations. |
| SpiRun.GenericsAreCharLiterals | bench/spi/run.py:126 | The generics are exactly G_CLK_POLARITY and G_CLK_PHASE, each a three-character VHDL literal '0' or '1' matching the bit. |
| SpiRun.NameShowsMode | bench/spi/run.py:124 | For bits the name has 24 characters and its character 9 is the mode digit. |
| SpiRun.NamesDistinct | bench/spi/run.py:124 | Distinct bit pairs give distinct configuration names. |
| SpiRun.BitConfig | bench/spi/run.py:123-126 | The configuration of a bit pair is spelled `SPI_Mode_<m>_CPOL=<cpol>_CPHA=<cpha>` with generics `'<cpol>'` and `'<cpha>'`. |
| SpiRun.SweepPairs | bench/spi/run.py:132 | The [0,1]×[0,1] sweep visits (0,0), (0,1), (1,0), (1,1) in this order. |
| SpiRun.Mode0Spelled | bench/spi/run.py:123-126 | CPOL=0, CPHA=0 gives the configuration SPI_Mode_0_CPOL=0_CPHA=0 with generics '0' and '0'. |
| SpiRun.Mode1Spelled | bench/spi/run.py:123-126 | CPOL=0, CPHA=1 gives the configuration SPI_Mode_1_CPOL=0_CPHA=1 with generics '0' and '1'. |
| SpiRun.Mode2Spelled | bench/spi/run.py:123-126 | CPOL=1, CPHA=0 gives the configuration SPI_Mode_2_CPOL=1_CPHA=0 with generics '1' and '0'. |
| SpiRun.Mode3Spelled | bench/spi/run.py:123-126 | CPOL=1, CPHA=1 gives the configuration SPI_Mode_3_CPOL=1_CPHA=1 with generics '1' and '1'. |
| SpiRun.StandardSweep | bench/spi/run.py:129-132 | The sweep gives exactly four configurations, modes 0 to 3 in order, with their exact names and generics. |
| SpiRun.SpiTestBench | bench/spi/run.py:129-132 | The tb_spi_master bench holds four configurations, and configuration k is the one of mode k. |
| Lint.FilesToStringSeparators | lint/script/lint.py:66-81 | No paths give "". n paths joined by a one-character separator they do not contain hold n-1 separators and split back into the paths. |
| Lint.ExcludedRoots | lint/script/lint.py:58-63 | The excluded directories resolve to cores, .venv, vunit_out and bench/models/spi directly under the repository root. |
| Lint.FindVhdFiles | lint/script/lint.py:84-112 | Returns exactly the kept files' resolved paths, in the order they were found. |
| Lint.LintedFilesOrder | lint/script/lint.py:99-112 | There is an increasing list of positions in the walk that holds every kept file and no other file, and the result is those files' resolved paths in that order. |
| Lint.LintedMembership | lint/script/lint.py:101-111 | A path is returned iff some found file resolves to it and lies under no excluded directory with a name outside NOT_LINTED. |
| Lint.NothingUnderExcludedDirs | lint/script/lint.py:101-104 | No returned path is, or lies below, root/cores, root/.venv, root/vunit_out or root/bench/models/spi. |
| Lint.OutputFormat | lint/script/lint.py:115-118 | "-of syntastic" when asked for, "-of vsg" otherwise. |
| Lint.FirstFailing | lint/script/lint.py:133-137 | The position of the first failing command: every earlier command succeeds and the one at that position fails. |
| Lint.LintEach | lint/script/lint.py:132-137 | Runs the per-file vsg commands in order and stops at the first failure, which is raised naming that file. No later file is linted. Without a failure every file is linted and the result is a pass. |
| Lint.LintAll | lint/script/lint.py:138-147 | Runs exactly one vsg command over the space-joined files and the JUnit report. It fails, with the batch message, iff that command fails. |
| Lint.LintProject | lint/script/lint.py:115-147 | The files are the filtered walk. The output format follows `--syntastic`. Debug mode is fail-fast and batch mode is one command, as above. |

## Left out

- BenchUtils.DetectSimulator, BenchUtils.DetectionPriority and BenchUtils.SetupSimulator give the intended `sys.exit(1)` when no simulator is found. The code as written raises TypeError there (see "## Findings"). The process still ends with status 1, but the exception's type differs.
- Printed diagnostics (stdout/stderr text, the "VHDL Files" listing, the success message) are not modelled. Neither are the exact text of an exception's `{e}` suffix (a `RuntimeError` keeps its fixed prefix and its cause) or the distinction between exit statuses other than zero and non-zero.
- The external tools (nvc, lcov, genhtml, vsg) are not modelled. Each command is recorded exactly and succeeds unless it is listed as failing.
- Platform.ExpandUser: the `~user` form is left unexpanded, as if that user did not exist, because the password database is not part of this model.
- Strings.ToLower: lower-cases ASCII letters only. Python's Unicode case mapping is not part of this model.
- Platform.FileSystem.Glob: the order of matches is left open, because the order `Path.glob` returns is unspecified. An OSError raised while searching (caught and reported at bench/utils.py:208-209) is not modelled.
- Platform.FileSystem: only regular files are modelled, so `Path.exists()` is true only for files. Symbolic links, permissions and copy metadata are not modelled.
- Platform.BaseName: paths are taken as already normalised (no trailing "/"), as `Path` objects are.
- Platform.FileSystem.Copy: "the same file" is decided by comparing path strings, so two spellings of one file (a symbolic link, "a/./b") are not recognised as one.
- Lint.ResolveFromScriptDir: resolves paths lexically from the script directory, without symbolic links. The resolved paths of the files found are inputs to `Lint.FindVhdFiles`.
- Lint.IsRelativeTo: compares whole path strings, and assumes neither path ends in "/".
- Lint.LintEach: command lines are built as the source formats them, without shell quoting, so a path with spaces would change the command as in the source.
- BenchUtils.SetupSimulator: the module-level global `VUNIT_SIMULATOR` that the function also assigns is not modelled, only the environment variable and the return value.
- BenchUtils.GenerateCoverageReportNvc: the unused `results` parameter is dropped.
- SetupVunit.Simulator.SetupNvcCoverage and SetupVunit.Simulator.SetupGhdlCoverage take their own keyword argument. The extra `**kwargs` the source accepts and ignores are dropped.
- SetupVunit.Simulator.CopyOutputLog: which log is copied when several match is named only by a ghost result, because the search order is left open.
- VUnit's own checks (duplicate libraries or configurations, option-name validation) are not modelled: the option tables are plain maps.
- The command-line driver code of bench/spi/run.py (argument parsing, library set-up, `VU.main`) is not modelled. Lines 103-104 call `select_simulator(enable_coverage=...)` and `attach(VU).configure()`, which bench/setup_vunit.py does not define, so they are not modelled either.
- bench/uart/run.py, bench/top_fpga/run.py and docs/source/conf.py are not part of this model.

## Findings

| source | as written | input that shows it | evidently intended | confidence | as-written member | corrected member |
|---|---|---|---|---|---|---|
| bench/utils.py:67 | `sys.exit(status=1)`: `sys.exit` takes its status positionally only, so the call raises TypeError("sys.exit() takes no keyword arguments") | no nvc, ghdl or vsim on the path | `sys.exit(1)`, exit status 1 through SystemExit | high, not executed | BenchUtils.NothingFoundRaisesTypeError | BenchUtils.DetectionPriority |
