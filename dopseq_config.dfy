/**
 * Configuration handling of the `dopseq` driver: the defaults filled in once
 * for the whole run, the per-sample reset-and-override, the aligner choice,
 * and the checks made before a sample's first stage (dopseq_pipeline.py).
 */
module DopseqConfig {
  import opened Wrappers
  import opened PyStr
  import opened Files
  import opened DopseqNames

  /** A scalar value of the YAML configuration. */
  datatype Value = Str(s: string) | Int(i: int) | Bool(b: bool) | Null

  /** A configuration mapping, global or per sample. */
  type Conf = map<string, Value>

  /** The exceptions and exits that end a run of the driver. */
  datatype Error =
    | KeyError(key: string)            // a `conf[key]` lookup of a missing key
    | NotText(key: string)             // `.split` on a value that is not a string
    | NotNumber(key: string)           // `%d` on a value that is not a number
    | InvalidAligner(aln: Value)       // the ValueError for an unknown aligner
    | MissingFile(file: Value)         // `utils.check_file` rejects the path
    | MissingExecutable(exe: Value)    // `utils.check_exec` rejects the program
    | StatFailed(path: Path)           // `os.stat` of a file that does not exist
    | MkdirFailed(path: Path)          // `os.mkdir` of a path that is a regular file

  /** `conf[key]`. */
  function Get(conf: Conf, key: string): Result<Value, Error>
  {
    if key in conf then Success(conf[key]) else Failure(KeyError(key))
  }

  /** The string held by `conf[key]`, for a `.split` on it. */
  function GetText(conf: Conf, key: string): Result<string, Error>
  {
    if key !in conf then Failure(KeyError(key))
    else if conf[key].Str? then Success(conf[key].s)
    else Failure(NotText(key))
  }

  /** The number `%d` prints for the value of `key` (a Python bool is an int). */
  function AsNumber(key: string, v: Value): (r: Result<int, Error>)
    ensures r.Failure? <==> !v.Int? && !v.Bool?
    ensures v.Int? ==> r == Success(v.i)
  {
    match v
    case Int(i) => Success(i)
    case Bool(b) => Success(if b then 1 else 0)
    case _ => Failure(NotNumber(key))
  }

  /** Python truthiness of a scalar. */
  predicate Truthy(v: Value)
  {
    match v
    case Str(s) => s != ""
    case Int(i) => i != 0
    case Bool(b) => b
    case Null => false
  }

  /** `utils.check_file(f)`: the path names an existing file. */
  function CheckFile(f: Value, fs: FileSystem): Outcome<Error>
  {
    if f.Str? && fs.Exists(f.s) then Pass else Fail(MissingFile(f))
  }

  /** `utils.check_exec(e)`: the program is one of the executables found on the search path. */
  function CheckExec(e: Value, executables: set<string>): Outcome<Error>
  {
    if e.Str? && e.s in executables then Pass else Fail(MissingExecutable(e))
  }

  /** `if key not in conf: conf[key] = v`. */
  function SetDefault(conf: Conf, key: string, v: Value): Conf
  {
    if key in conf then conf else conf[key := v]
  }

  /** The optional keys that get a default before the samples are processed. */
  const DefaultedKeys: set<string> := {"contam_genome", "bowtie2_path", "bwa_path", "plot_height", "plot_width"}

  /**
   * The global configuration with its defaults filled in: the contamination
   * genome falls back to the target genome, the aligner programs to `bowtie2`
   * and `bwa`, the plot to 20 by 20. A key already present keeps its value.
   * The only failure is the lookup of a missing target genome when the
   * contamination genome is missing too.
   */
  function Defaulted(conf: Conf): (r: Result<Conf, Error>)
    ensures r.Failure? <==> "contam_genome" !in conf && "target_genome" !in conf
    ensures r.Failure? ==> r.error == KeyError("target_genome")
    ensures r.Success? ==> r.value.Keys == conf.Keys + DefaultedKeys
    ensures r.Success? ==> forall k :: k in conf ==> r.value[k] == conf[k]
    ensures r.Success? && "contam_genome" !in conf ==> r.value["contam_genome"] == conf["target_genome"]
    ensures r.Success? && "bowtie2_path" !in conf ==> r.value["bowtie2_path"] == Str("bowtie2")
    ensures r.Success? && "bwa_path" !in conf ==> r.value["bwa_path"] == Str("bwa")
    ensures r.Success? && "plot_height" !in conf ==> r.value["plot_height"] == Int(20)
    ensures r.Success? && "plot_width" !in conf ==> r.value["plot_width"] == Int(20)
  {
    if "contam_genome" !in conf && "target_genome" !in conf then Failure(KeyError("target_genome"))
    else
      var c := if "contam_genome" in conf then conf else conf["contam_genome" := conf["target_genome"]];
      Success(DefaultRest(c))
  }

  /** The four defaults after the contamination genome, each set only where missing. */
  function DefaultRest(c: Conf): (r: Conf)
    ensures r.Keys == c.Keys + {"bowtie2_path", "bwa_path", "plot_height", "plot_width"}
    ensures forall k :: k in c ==> r[k] == c[k]
    ensures "bowtie2_path" !in c ==> r["bowtie2_path"] == Str("bowtie2")
    ensures "bwa_path" !in c ==> r["bwa_path"] == Str("bwa")
    ensures "plot_height" !in c ==> r["plot_height"] == Int(20)
    ensures "plot_width" !in c ==> r["plot_width"] == Int(20)
  {
    var c := SetDefault(c, "bowtie2_path", Str("bowtie2"));
    var c := SetDefault(c, "bwa_path", Str("bwa"));
    var c := SetDefault(c, "plot_height", Int(20));
    SetDefault(c, "plot_width", Int(20))
  }

  /** A sample key may replace a global one: it is not a read file and the global configuration has it. */
  predicate Overrides(key: string, defaults: Conf)
  {
    !StartsWith(key, "fastq_") && key in defaults
  }

  /** The configuration of one sample: the global snapshot with the sample's eligible keys copied over it. */
  function EffectiveConfig(defaults: Conf, sampleConf: Conf): Conf
  {
    map k | k in defaults :: if k in sampleConf && Overrides(k, defaults) then sampleConf[k] else defaults[k]
  }

  /**
   * Reset to the snapshot and override key by key, as the loop over the
   * sample's keys does: the result has exactly the snapshot's keys; a key
   * takes the sample's value when it does not start with `fastq_`, and the
   * snapshot's otherwise; a sample key the snapshot lacks is dropped.
   */
  method ResetAndOverride(defaults: Conf, sampleConf: Conf) returns (conf: Conf)
    ensures conf.Keys == defaults.Keys
    ensures forall k :: k in conf && k in sampleConf && !StartsWith(k, "fastq_") ==> conf[k] == sampleConf[k]
    ensures forall k :: k in conf && (k !in sampleConf || StartsWith(k, "fastq_")) ==> conf[k] == defaults[k]
    ensures conf == EffectiveConfig(defaults, sampleConf)
  {
    conf := defaults;
    var todo := sampleConf.Keys;
    while todo != {}
      invariant todo <= sampleConf.Keys
      invariant conf.Keys == defaults.Keys
      invariant forall k :: k in conf ==>
        conf[k] == if k in sampleConf && k !in todo && Overrides(k, defaults) then sampleConf[k] else defaults[k]
      decreases todo
    {
      var param :| param in todo;
      if !StartsWith(param, "fastq_") && param in conf {
        conf := conf[param := sampleConf[param]];
      }
      todo := todo - {param};
    }
  }

  /**
   * The aligner program and its arguments: `bowtie2_path`/`bowtie2_args`
   * for `bt2`, `bwa_path`/`bwa_args` for `bwa`; any other choice is the
   * ValueError.
   */
  function ResolveAligner(conf: Conf): (r: Result<(Value, Value), Error>)
    ensures "aln" !in conf ==> r == Failure(KeyError("aln"))
    ensures "aln" in conf && conf["aln"] != Str("bt2") && conf["aln"] != Str("bwa") ==>
      r == Failure(InvalidAligner(conf["aln"]))
    ensures r.Success? <==>
      "aln" in conf &&
      ((conf["aln"] == Str("bt2") && "bowtie2_path" in conf && "bowtie2_args" in conf) ||
       (conf["aln"] == Str("bwa") && "bwa_path" in conf && "bwa_args" in conf))
    ensures r.Success? && conf["aln"] == Str("bt2") ==> r.value == (conf["bowtie2_path"], conf["bowtie2_args"])
    ensures r.Success? && conf["aln"] == Str("bwa") ==> r.value == (conf["bwa_path"], conf["bwa_args"])
  {
    var aln :- Get(conf, "aln");
    if aln == Str("bt2") then
      var path :- Get(conf, "bowtie2_path");
      var args :- Get(conf, "bowtie2_args");
      Success((path, args))
    else if aln == Str("bwa") then
      var path :- Get(conf, "bwa_path");
      var args :- Get(conf, "bwa_args");
      Success((path, args))
    else Failure(InvalidAligner(aln))
  }

  /** Everything a sample's stages need once its configuration has passed the checks. */
  datatype Context = Context(
    sample: string,
    names: FileNames,
    sampleConf: Conf,
    conf: Conf,
    alignerPath: Value,
    alignerArgs: Value)

  /** The effective configuration with the two tool defaults set after the override. */
  function WithToolDefaults(conf: Conf): (r: Conf)
    ensures r.Keys == conf.Keys + {"cutadapt_path", "bedtools_path"}
    ensures forall k :: k in conf ==> r[k] == conf[k]
    ensures "cutadapt_path" !in conf ==> r["cutadapt_path"] == Str("cutadapt")
    ensures "bedtools_path" !in conf ==> r["bedtools_path"] == Str("bedtools")
  {
    SetDefault(SetDefault(conf, "cutadapt_path", Str("cutadapt")), "bedtools_path", Str("bedtools"))
  }

  /** `if f: utils.check_file(f)`. */
  function CheckRead(f: Value, fs: FileSystem): Outcome<Error>
  {
    if Truthy(f) then CheckFile(f, fs) else Pass
  }

  /**
   * The file names of a sample, from the genomes of the configuration the
   * pass starts with, and the single-end case: without a reverse read file
   * the sample's `fastq_R_file` becomes null and there are no trimmed
   * reverse reads.
   */
  function SampleNames(sample: string, namesConf: Conf, sampleConf: Conf): (r: Result<(FileNames, Conf), Error>)
    ensures r.Success? <==>
      "target_genome" in namesConf && namesConf["target_genome"].Str? &&
      "contam_genome" in namesConf && namesConf["contam_genome"].Str?
    ensures r.Success? ==>
      var g := GenerateFilenames(sample, namesConf["target_genome"].s, namesConf["contam_genome"].s);
      && r.value.0 == (if "fastq_R_file" in sampleConf then g else g.(rTrimReads := None))
      && r.value.1.Keys == sampleConf.Keys + {"fastq_R_file"}
      && (forall k :: k in sampleConf ==> r.value.1[k] == sampleConf[k])
      && ("fastq_R_file" !in sampleConf ==> r.value.1["fastq_R_file"] == Null)
  {
    var targetPath :- GetText(namesConf, "target_genome");
    var contamPath :- GetText(namesConf, "contam_genome");
    var names := GenerateFilenames(sample, targetPath, contamPath);
    if "fastq_R_file" in sampleConf then Success((names, sampleConf))
    else Success((names.(rTrimReads := None), sampleConf["fastq_R_file" := Null]))
  }

  /**
   * The input checks of a sample: the read files when given, then the
   * contamination genome, the target genome and the chromosome sizes file
   * of its effective configuration.
   */
  function CheckInputs(sc: Conf, conf: Conf, fs: FileSystem): (r: Result<(), Error>)
    requires "fastq_R_file" in sc
    ensures r.Success? <==>
      && "fastq_F_file" in sc
      && (Truthy(sc["fastq_F_file"]) ==> CheckFile(sc["fastq_F_file"], fs).Pass?)
      && (Truthy(sc["fastq_R_file"]) ==> CheckFile(sc["fastq_R_file"], fs).Pass?)
      && (forall k :: k in {"target_genome", "contam_genome", "sizes_file"} ==>
            k in conf && conf[k].Str? && fs.Exists(conf[k].s))
  {
    var fastqF :- Get(sc, "fastq_F_file");
    :- CheckRead(fastqF, fs);
    :- CheckRead(sc["fastq_R_file"], fs);
    var contamGenome :- Get(conf, "contam_genome");
    var targetGenome :- Get(conf, "target_genome");
    var sizesFile :- Get(conf, "sizes_file");
    :- CheckFile(contamGenome, fs);
    :- CheckFile(targetGenome, fs);
    :- CheckFile(sizesFile, fs);
    Success(())
  }

  /**
   * The executable checks: the trimming program, the chosen aligner and
   * bedtools, after the two tool defaults are set. The result is the
   * completed configuration with the aligner's program and arguments.
   */
  function CheckTools(conf: Conf, executables: set<string>): (r: Result<(Conf, Value, Value), Error>)
    ensures r.Success? ==>
      && r.value.0 == WithToolDefaults(conf)
      && ResolveAligner(r.value.0) == Success((r.value.1, r.value.2))
      && r.value.1.Str? && r.value.1.s in executables
      && (forall k :: k in {"cutadapt_path", "bedtools_path"} ==>
            k in r.value.0 && r.value.0[k].Str? && r.value.0[k].s in executables)
    ensures ResolveAligner(WithToolDefaults(conf)).Failure? ==> r.Failure?
    ensures var c := WithToolDefaults(conf);
      ResolveAligner(c).Success? ==>
        (r.Success? <==>
           && c["cutadapt_path"].Str? && c["cutadapt_path"].s in executables
           && ResolveAligner(c).value.0.Str? && ResolveAligner(c).value.0.s in executables
           && c["bedtools_path"].Str? && c["bedtools_path"].s in executables)
  {
    var conf := WithToolDefaults(conf);
    var aligner :- ResolveAligner(conf);
    :- CheckExec(conf["cutadapt_path"], executables);
    :- CheckExec(aligner.0, executables);
    :- CheckExec(conf["bedtools_path"], executables);
    Success((conf, aligner.0, aligner.1))
  }

  /**
   * The part of one pass of the per-sample loop before its first stage: the
   * file names (from `namesConf`, the configuration the loop holds when the
   * pass begins), the single-end case, the reset and override, the input
   * checks, the tool defaults, the aligner and the executable checks.
   */
  function Prepare(sample: string, namesConf: Conf, defaults: Conf, sampleConf: Conf,
                   fs: FileSystem, executables: set<string>): (r: Result<Context, Error>)
    ensures r.Success? ==>
      && SampleNames(sample, namesConf, sampleConf) == Success((r.value.names, r.value.sampleConf))
      && CheckInputs(r.value.sampleConf, EffectiveConfig(defaults, r.value.sampleConf), fs).Success?
      && CheckTools(EffectiveConfig(defaults, r.value.sampleConf), executables)
           == Success((r.value.conf, r.value.alignerPath, r.value.alignerArgs))
    ensures SampleNames(sample, namesConf, sampleConf).Failure? ==> r.Failure?
    ensures var named := SampleNames(sample, namesConf, sampleConf);
      r.Success? <==>
        && named.Success?
        && CheckInputs(named.value.1, EffectiveConfig(defaults, named.value.1), fs).Success?
        && CheckTools(EffectiveConfig(defaults, named.value.1), executables).Success?
  {
    var (names, sc) :- SampleNames(sample, namesConf, sampleConf);
    var conf := EffectiveConfig(defaults, sc);
    var _ :- CheckInputs(sc, conf, fs);
    var (conf, alignerPath, alignerArgs) :- CheckTools(conf, executables);
    Success(Context(sample, names, sc, conf, alignerPath, alignerArgs))
  }

  /**
   * What a successful preparation guarantees before any stage runs: the
   * read files that are given, the genomes and the sizes file exist; the
   * trimming program, the aligner and bedtools are available; the aligner
   * is `bt2` or `bwa`; the sample's own eligible settings are in force.
   */
  lemma PreparedIsChecked(sample: string, namesConf: Conf, defaults: Conf, sampleConf: Conf,
                          fs: FileSystem, executables: set<string>)
    requires Prepare(sample, namesConf, defaults, sampleConf, fs, executables).Success?
    ensures var ctx := Prepare(sample, namesConf, defaults, sampleConf, fs, executables).value;
      && "target_genome" in namesConf && namesConf["target_genome"].Str?
      && ctx.names.targetBam == GenerateFilenames(sample, namesConf["target_genome"].s, namesConf["contam_genome"].s).targetBam
      && (ctx.names.rTrimReads.None? <==> "fastq_R_file" !in sampleConf)
      && "fastq_F_file" in sampleConf
      && (Truthy(sampleConf["fastq_F_file"]) ==> sampleConf["fastq_F_file"].Str? && fs.Exists(sampleConf["fastq_F_file"].s))
      && ("fastq_R_file" in sampleConf && Truthy(sampleConf["fastq_R_file"]) ==>
            sampleConf["fastq_R_file"].Str? && fs.Exists(sampleConf["fastq_R_file"].s))
      && (forall k :: k in {"target_genome", "contam_genome", "sizes_file"} ==>
            k in ctx.conf && ctx.conf[k].Str? && fs.Exists(ctx.conf[k].s))
      && (forall k :: k in {"cutadapt_path", "bedtools_path"} ==>
            k in ctx.conf && ctx.conf[k].Str? && ctx.conf[k].s in executables)
      && ctx.alignerPath.Str? && ctx.alignerPath.s in executables
      && "aln" in ctx.conf && ctx.conf["aln"] in {Str("bt2"), Str("bwa")}
      && (forall k :: k in defaults && k in sampleConf && Overrides(k, defaults) ==> ctx.conf[k] == sampleConf[k])
  {
    var ctx := Prepare(sample, namesConf, defaults, sampleConf, fs, executables).value;
    var eff := EffectiveConfig(defaults, ctx.sampleConf);
    PreparedInputs(sample, namesConf, sampleConf, ctx.names, ctx.sampleConf, eff, fs);
    PreparedTools(eff, executables, ctx.conf, ctx.alignerPath, ctx.alignerArgs);
    forall k | k in defaults && k in sampleConf && Overrides(k, defaults)
      ensures ctx.conf[k] == sampleConf[k]
    {
      assert ctx.sampleConf[k] == sampleConf[k];
      assert eff[k] == sampleConf[k];
    }
  }

  /** The name and input half of `PreparedIsChecked`. */
  lemma PreparedInputs(sample: string, namesConf: Conf, sampleConf: Conf, names: FileNames, sc: Conf,
                       eff: Conf, fs: FileSystem)
    requires SampleNames(sample, namesConf, sampleConf) == Success((names, sc))
    requires CheckInputs(sc, eff, fs).Success?
    ensures && "target_genome" in namesConf && namesConf["target_genome"].Str?
      && names.targetBam == GenerateFilenames(sample, namesConf["target_genome"].s, namesConf["contam_genome"].s).targetBam
      && (names.rTrimReads.None? <==> "fastq_R_file" !in sampleConf)
      && "fastq_F_file" in sampleConf
      && (Truthy(sampleConf["fastq_F_file"]) ==> sampleConf["fastq_F_file"].Str? && fs.Exists(sampleConf["fastq_F_file"].s))
      && ("fastq_R_file" in sampleConf && Truthy(sampleConf["fastq_R_file"]) ==>
            sampleConf["fastq_R_file"].Str? && fs.Exists(sampleConf["fastq_R_file"].s))
      && (forall k :: k in {"target_genome", "contam_genome", "sizes_file"} ==>
            k in eff && eff[k].Str? && fs.Exists(eff[k].s))
  {
    assert "fastq_F_file" in sc;
  }

  /** The tool half of `PreparedIsChecked`. */
  lemma PreparedTools(eff: Conf, executables: set<string>, conf: Conf, alignerPath: Value, alignerArgs: Value)
    requires CheckTools(eff, executables) == Success((conf, alignerPath, alignerArgs))
    ensures forall k :: k in eff ==> k in conf && conf[k] == eff[k]
    ensures forall k :: k in {"cutadapt_path", "bedtools_path"} ==>
      k in conf && conf[k].Str? && conf[k].s in executables
    ensures alignerPath.Str? && alignerPath.s in executables
    ensures "aln" in conf && conf["aln"] in {Str("bt2"), Str("bwa")}
  {
    assert ResolveAligner(conf).Success?;
  }

  /** The read-file entries of a sample never reach its effective configuration. */
  lemma EffectiveIgnoresReadFiles(defaults: Conf, sampleConf: Conf, key: string, v: Value)
    requires StartsWith(key, "fastq_")
    ensures EffectiveConfig(defaults, sampleConf[key := v]) == EffectiveConfig(defaults, sampleConf)
  {
  }

  /** `generate_filenames` is given the genomes of `namesConf`; a successful preparation keeps them as the alignment references. */
  lemma PreparedReferences(sample: string, namesConf: Conf, defaults: Conf, sampleConf: Conf,
                           fs: FileSystem, executables: set<string>)
    requires Prepare(sample, namesConf, defaults, sampleConf, fs, executables).Success?
    ensures var ctx := Prepare(sample, namesConf, defaults, sampleConf, fs, executables).value;
      && ctx.names.targetPath == namesConf["target_genome"].s
      && ctx.names.contamPath == namesConf["contam_genome"].s
      && ctx.conf["target_genome"] == EffectiveConfig(defaults, sampleConf)["target_genome"]
      && ctx.conf["contam_genome"] == EffectiveConfig(defaults, sampleConf)["contam_genome"]
  {
    var ctx := Prepare(sample, namesConf, defaults, sampleConf, fs, executables).value;
    if "fastq_R_file" !in sampleConf {
      EffectiveIgnoresReadFiles(defaults, sampleConf, "fastq_R_file", Null);
    }
    assert ctx.sampleConf == sampleConf || ctx.sampleConf == sampleConf["fastq_R_file" := Null];
  }

  /**
   * As written, the names of a pass come from the configuration the loop
   * holds when the pass begins, which on the first pass is the global one:
   * a sample that sets its own target genome has that genome checked but
   * its reads aligned to, and its files named after, the global genome.
   */
  lemma StaleGenomeNames(sample: string, defaults: Conf, sampleConf: Conf, fs: FileSystem, executables: set<string>)
    requires "target_genome" in defaults && "target_genome" in sampleConf
    requires sampleConf["target_genome"] != defaults["target_genome"]
    requires Prepare(sample, defaults, defaults, sampleConf, fs, executables).Success?
    ensures var ctx := Prepare(sample, defaults, defaults, sampleConf, fs, executables).value;
      && ctx.conf["target_genome"] == sampleConf["target_genome"]
      && ctx.names.targetPath != ctx.conf["target_genome"].s
  {
    PreparedReferences(sample, defaults, defaults, sampleConf, fs, executables);
    assert "target_genome"[0] != "fastq_"[0];
    assert !StartsWith("target_genome", "fastq_");
  }

  /**
   * Corrected: with the names taken from the sample's own effective
   * configuration, the genomes it aligns to are the genomes it checked.
   */
  lemma OwnGenomeNames(sample: string, defaults: Conf, sampleConf: Conf, fs: FileSystem, executables: set<string>)
    requires Prepare(sample, EffectiveConfig(defaults, sampleConf), defaults, sampleConf, fs, executables).Success?
    ensures var ctx := Prepare(sample, EffectiveConfig(defaults, sampleConf), defaults, sampleConf, fs, executables).value;
      && ctx.names.targetPath == ctx.conf["target_genome"].s
      && ctx.names.contamPath == ctx.conf["contam_genome"].s
  {
    PreparedReferences(sample, EffectiveConfig(defaults, sampleConf), defaults, sampleConf, fs, executables);
  }
}
