/** The parts of VUnit the scripts call, as recorded state: option tables in
    which `set_*` replaces a value and `add_*` appends flags, the list of
    external libraries, the coverage merge of a run's results, and the
    configurations of a test bench. */
module VUnitApi {
  import opened Platform

  /** An option value: a list of tool flags or a boolean switch. */
  datatype OptionValue = Flags(flags: seq<string>) | Switch(on: bool)

  /** The flags an option holds so far; an unset option holds none. */
  function FlagsOf(table: map<string, OptionValue>, name: string): seq<string>
  {
    if name in table && table[name].Flags? then table[name].flags else []
  }

  /** A VUnit project (`VU`): its output directory and what was set on it. */
  class VUnitSession {
    const outputPath: Path
    var simOptions: map<string, OptionValue>
    var compileOptions: map<string, OptionValue>
    var attributes: map<string, bool>
    var externalLibraries: seq<(string, Path)>

    constructor (outputPath: Path)
      ensures this.outputPath == outputPath
      ensures simOptions == map[] && compileOptions == map[] && attributes == map[]
      ensures externalLibraries == []
    {
      this.outputPath := outputPath;
      simOptions := map[];
      compileOptions := map[];
      attributes := map[];
      externalLibraries := [];
    }

    /** `VU.set_sim_option(name, value)`. */
    method SetSimOption(name: string, value: OptionValue)
      modifies this`simOptions
      ensures simOptions == old(simOptions)[name := value]
    {
      simOptions := simOptions[name := value];
    }

    /** `VU.set_compile_option(name, value)`. */
    method SetCompileOption(name: string, value: OptionValue)
      modifies this`compileOptions
      ensures compileOptions == old(compileOptions)[name := value]
    {
      compileOptions := compileOptions[name := value];
    }

    /** `VU.add_compile_option(name, flags)`: the flags go after those already set. */
    method AddCompileOption(name: string, flags: seq<string>)
      modifies this`compileOptions
      ensures compileOptions == old(compileOptions)[name := Flags(FlagsOf(old(compileOptions), name) + flags)]
    {
      compileOptions := compileOptions[name := Flags(FlagsOf(compileOptions, name) + flags)];
    }

    /** `VU.set_attribute(name, value)`. */
    method SetAttribute(name: string, value: bool)
      modifies this`attributes
      ensures attributes == old(attributes)[name := value]
    {
      attributes := attributes[name := value];
    }

    /** `VU.add_external_library(library_name, path)`. */
    method AddExternalLibrary(libraryName: string, path: Path)
      modifies this`externalLibraries
      ensures externalLibraries == old(externalLibraries) + [(libraryName, path)]
    {
      externalLibraries := externalLibraries + [(libraryName, path)];
    }
  }

  /** A VUnit library (`LIB_SRC`, `LIB_BENCH`) and its option tables. */
  class Library {
    const name: string
    var compileOptions: map<string, OptionValue>
    var simOptions: map<string, OptionValue>

    constructor (name: string)
      ensures this.name == name && compileOptions == map[] && simOptions == map[]
    {
      this.name := name;
      compileOptions := map[];
      simOptions := map[];
    }

    /** `lib.set_compile_option(name, value)`. */
    method SetCompileOption(option: string, value: OptionValue)
      modifies this`compileOptions
      ensures compileOptions == old(compileOptions)[option := value]
    {
      compileOptions := compileOptions[option := value];
    }

    /** `lib.set_sim_option(name, value)`. */
    method SetSimOption(option: string, value: OptionValue)
      modifies this`simOptions
      ensures simOptions == old(simOptions)[option := value]
    {
      simOptions := simOptions[option := value];
    }
  }

  /** The results VUnit hands to a post-run hook: the simulator's compiler
      backend (`results._simulator_if._backend`) and whether merging the
      coverage data raises. */
  class Results {
    const backend: string
    const mergeFails: bool
    var mergedInto: seq<Path>

    constructor (backend: string, mergeFails: bool)
      ensures this.backend == backend && this.mergeFails == mergeFails && mergedInto == []
    {
      this.backend := backend;
      this.mergeFails := mergeFails;
      mergedInto := [];
    }

    /** `results.merge_coverage(file_name)`: records the merge; false when it raises. */
    method MergeCoverage(fileName: Path) returns (ok: bool)
      modifies this`mergedInto
      ensures ok <==> !mergeFails
      ensures mergedInto == old(mergedInto) + [fileName]
    {
      mergedInto := mergedInto + [fileName];
      ok := !mergeFails;
    }
  }

  /** One test configuration: its name and its generics. */
  datatype Config = Config(name: string, generics: map<string, string>)

  /** A VUnit test bench and the configurations added to it, in order. */
  class TestBench {
    const name: string
    var configs: seq<Config>

    constructor (name: string)
      ensures this.name == name && configs == []
    {
      this.name := name;
      configs := [];
    }

    /** `tb.add_config(name, generics)`. */
    method AddConfig(configName: string, generics: map<string, string>)
      modifies this`configs
      ensures configs == old(configs) + [Config(configName, generics)]
    {
      configs := configs + [Config(configName, generics)];
    }
  }
}
