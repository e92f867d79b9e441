/**
 * The `__main__` block of the older driver (pipeline/b_dopseq_pipe.py): the
 * settings read by `parse_config`, the file names derived from one base
 * name, and six steps, each skipped when the files it would write exist.
 * There is no dry run: every tool that runs writes its files.
 */
module BPipe {
  import opened Wrappers
  import opened PyStr
  import opened Files
  import opened BPipeConfig

  type Conf = map<string, string>

  /** The exceptions that end the older driver. */
  datatype Error =
    | KeyError(key: string)
    | GetSizeFailed(path: Path)
    | AssertionFailed(path: Path)
    | ConfigError(cause: ParseError)

  /** `conf[key]`. */
  function Lookup(conf: Conf, key: string): (r: Result<string, Error>)
    ensures r.Success? <==> key in conf
    ensures r.Success? ==> r.value == conf[key]
    ensures r.Failure? ==> r.error == KeyError(key)
  {
    if key in conf then Success(conf[key]) else Failure(KeyError(key))
  }

  /** The names the block derives from the settings before its first step. */
  datatype Names = Names(
    sample: string,
    targetGenome: Path,
    contamGenome: Path,
    targetName: string,
    contamName: string,
    base: string,
    filteredBam: Path,
    targetSam: Path,
    contamSam: Path,
    readsBed: Path,
    posBed: Path,
    statFile: Path,
    controlPlot: Path,
    regTable: Path,
    regPlot: Path)

  /**
   * The genome names are the whole last '/'-segment of each genome path,
   * extension included, and every file of the run is named after
   * `<sample>.<target name>.filter`; the keys are read in the order
   * `target_genome`, `contam_genome`, `sample`.
   */
  function BaseNames(conf: Conf): (r: Result<Names, Error>)
    ensures r.Success? <==> "target_genome" in conf && "contam_genome" in conf && "sample" in conf
    ensures "target_genome" !in conf ==> r == Failure(KeyError("target_genome"))
    ensures "target_genome" in conf && "contam_genome" !in conf ==> r == Failure(KeyError("contam_genome"))
    ensures "target_genome" in conf && "contam_genome" in conf && "sample" !in conf ==> r == Failure(KeyError("sample"))
    ensures r.Success? ==>
      && r.value.sample == conf["sample"]
      && r.value.targetGenome == conf["target_genome"] && r.value.contamGenome == conf["contam_genome"]
  {
    var targetGenome :- Lookup(conf, "target_genome");
    var contamGenome :- Lookup(conf, "contam_genome");
    var targetName := Basename(targetGenome);
    var contamName := Basename(contamGenome);
    var sample :- Lookup(conf, "sample");
    var base := Join([sample, targetName, "filter"], '.');
    Success(Names(
      sample := sample,
      targetGenome := targetGenome,
      contamGenome := contamGenome,
      targetName := targetName,
      contamName := contamName,
      base := base,
      filteredBam := base + ".bam",
      targetSam := Join([sample, targetName, "sam"], '.'),
      contamSam := Join([sample, contamName, "sam"], '.'),
      readsBed := base + ".reads.bed",
      posBed := base + ".pos.bed",
      statFile := base + ".chrom.tsv",
      controlPlot := base + ".chrom.pdf",
      regTable := base + ".reg.tsv",
      regPlot := base + ".reg.pdf"))
  }

  /** `'.'.join([a, b, c])`. */
  lemma JoinThree(a: string, b: string, c: string)
    ensures Join([a, b, c], '.') == a + "." + b + "." + c
  {
    assert [a, b, c][1..] == [b, c];
    assert [b, c][1..] == [c];
    assert Join([b, c], '.') == b + ['.'] + c;
    assert a + ['.'] + (b + ['.'] + c) == a + "." + b + "." + c;
  }

  /**
   * What the names are, written out: the base name keeps the genome file's
   * extension, and every file of the run is the base name with a suffix.
   */
  lemma NamesSpec(conf: Conf, n: Names)
    requires BaseNames(conf) == Success(n)
    ensures n.targetName == Basename(n.targetGenome) && n.contamName == Basename(n.contamGenome)
    ensures n.base == n.sample + "." + n.targetName + ".filter"
    ensures n.targetSam == n.sample + "." + n.targetName + ".sam"
    ensures n.contamSam == n.sample + "." + n.contamName + ".sam"
    ensures && n.filteredBam == n.base + ".bam"
            && n.readsBed == n.base + ".reads.bed" && n.posBed == n.base + ".pos.bed"
            && n.statFile == n.base + ".chrom.tsv" && n.controlPlot == n.base + ".chrom.pdf"
            && n.regTable == n.base + ".reg.tsv" && n.regPlot == n.base + ".reg.pdf"
  {
    JoinThree(n.sample, n.targetName, "filter");
    JoinThree(n.sample, n.targetName, "sam");
    JoinThree(n.sample, n.contamName, "sam");
  }

  /** Genomes `<dir>/<file>`: the genome names are the files, extension included. */
  lemma BaseNamesOf(conf: Conf, dir: string, targetFile: string, contamFile: string)
    requires '/' !in targetFile && '/' !in contamFile
    requires "sample" in conf
    requires "target_genome" in conf && conf["target_genome"] == dir + ['/'] + targetFile
    requires "contam_genome" in conf && conf["contam_genome"] == dir + ['/'] + contamFile
    ensures BaseNames(conf).Success?
    ensures var n := BaseNames(conf).value;
      && n.base == conf["sample"] + "." + targetFile + ".filter"
      && n.filteredBam == conf["sample"] + "." + targetFile + ".filter" + ".bam"
      && n.contamSam == conf["sample"] + "." + contamFile + ".sam"
  {
    BasenameAfterSlash(dir, targetFile);
    BasenameAfterSlash(dir, contamFile);
    NamesSpec(conf, BaseNames(conf).value);
  }

  /** Sample `S1` with target `/ref/genomeA.fa`: the base name is `S1.genomeA.fa.filter`. */
  lemma BaseNameExample(conf: Conf)
    requires conf == map["target_genome" := "/ref" + "/" + "genomeA.fa", "contam_genome" := "/ref" + "/" + "genomeB.fa",
                         "sample" := "S1"]
    ensures BaseNames(conf).Success?
    ensures BaseNames(conf).value.base == "S1" + "." + "genomeA.fa" + ".filter"
    ensures BaseNames(conf).value.filteredBam == "S1" + "." + "genomeA.fa" + ".filter" + ".bam"
    ensures BaseNames(conf).value.contamSam == "S1" + "." + "genomeB.fa" + ".sam"
  {
    BaseNamesOf(conf, "/ref", "genomeA.fa", "genomeB.fa");
  }

  // ---------------------------------------------------------------------
  // The steps

  /** A tool call with the arguments the block passes and the files it is taken to write. */
  datatype Invocation =
    | FastqToBam(fastqF: Path, fastqR: Path, sampleName: string, targetGenome: Path, contamGenome: Path,
                 procBowtie2: string, cutadaptPath: string, bowtie2Path: string, targetSam: Path, contamSam: Path)
    | ContamFilter(targetFile: Path, contamFile: Path, minQuality: int, preSortByName: bool, outBam: Path)
    | BamToBeds(bamFile: Path, bedtoolsPath: string, readsBed: Path, posBed: Path)
    | ControlStats(bedBasename: string, sizesFile: string, output: Path)
    | ControlPlots(posBed: Path, sizesFile: string, plot: Path)
    | RegionDnacopy(posBed: Path, sizesFile: string, width: string, height: string, table: Path, plot: Path)

  datatype Step = FastqToBamStep | ContamFilterStep | BamToBedsStep | ControlStatsStep | ControlPlotsStep | RegionDnacopyStep

  function StepOf(inv: Invocation): Step
  {
    match inv
    case FastqToBam(_, _, _, _, _, _, _, _, _, _) => FastqToBamStep
    case ContamFilter(_, _, _, _, _) => ContamFilterStep
    case BamToBeds(_, _, _, _) => BamToBedsStep
    case ControlStats(_, _, _) => ControlStatsStep
    case ControlPlots(_, _, _) => ControlPlotsStep
    case RegionDnacopy(_, _, _, _, _, _) => RegionDnacopyStep
  }

  /** The files a tool writes; the statistics file is opened for writing by the driver itself. */
  function Outputs(inv: Invocation): seq<Path>
  {
    match inv
    case FastqToBam(_, _, _, _, _, _, _, _, targetSam, contamSam) => [targetSam, contamSam]
    case ContamFilter(_, _, _, _, outBam) => [outBam]
    case BamToBeds(_, _, readsBed, posBed) => [readsBed, posBed]
    case ControlStats(_, _, output) => [output]
    case ControlPlots(_, _, plot) => [plot]
    case RegionDnacopy(_, _, _, _, table, plot) => [table, plot]
  }

  /** The steps of a list of invocations, in order. */
  function StepsOf(events: seq<Invocation>): (ss: seq<Step>)
    ensures |ss| == |events|
    ensures forall i :: 0 <= i < |events| ==> ss[i] == StepOf(events[i])
  {
    if |events| == 0 then [] else StepsOf(events[..|events| - 1]) + [StepOf(events[|events| - 1])]
  }

  lemma StepsOfAppend(events: seq<Invocation>, inv: Invocation)
    ensures StepsOf(events + [inv]) == StepsOf(events) + [StepOf(inv)]
  {
    assert (events + [inv])[..|events|] == events;
  }

  /** The files, the tools invoked so far, and the exception that ended the run, if any. */
  datatype BRun = BRun(fs: FileSystem, events: seq<Invocation>, error: Option<Error>)

  /** A tool call: it is listed and its outputs are written, with the sizes `size` gives them. */
  function Invoke(r: BRun, inv: Invocation, size: Path -> nat): (r': BRun)
    ensures r'.events == r.events + [inv] && r'.error == r.error
    ensures r'.fs == r.fs.Create(Outputs(inv), size)
  {
    BRun(r.fs.Create(Outputs(inv), size), r.events + [inv], r.error)
  }

  /** A tool call whose arguments are looked up first; a failed lookup ends the run. */
  function Call(r: BRun, c: Result<Invocation, Error>, size: Path -> nat): BRun
  {
    match c
    case Failure(e) => r.(error := Some(e))
    case Success(inv) => Invoke(r, inv, size)
  }

  /**
   * Whether alignment is redone: when neither SAM file exists, or the target
   * SAM file is empty. With the target SAM missing but the contamination SAM
   * present, `getsize` on the missing file raises.
   */
  function AlignWanted(fs: FileSystem, n: Names): (r: Result<bool, Error>)
    ensures r.Failure? <==> !fs.Exists(n.targetSam) && fs.Exists(n.contamSam)
    ensures r.Failure? ==> r.error == GetSizeFailed(n.targetSam)
    ensures r == Success(true) <==>
      (!fs.Exists(n.targetSam) && !fs.Exists(n.contamSam)) || (fs.Exists(n.targetSam) && fs.sizes[n.targetSam] == 0)
  {
    if !fs.Exists(n.targetSam) && !fs.Exists(n.contamSam) then Success(true)
    else if !fs.Exists(n.targetSam) then Failure(GetSizeFailed(n.targetSam))
    else Success(fs.sizes[n.targetSam] == 0)
  }

  /** The arguments of `fastq_to_bam`, then the two assertions that the read files exist. */
  function FastqToBamCall(conf: Conf, n: Names, fs: FileSystem): (r: Result<Invocation, Error>)
    ensures "fastq_F_file" !in conf ==> r == Failure(KeyError("fastq_F_file"))
    ensures "fastq_F_file" in conf && "fastq_R_file" !in conf ==> r == Failure(KeyError("fastq_R_file"))
    ensures "fastq_F_file" in conf && "fastq_R_file" in conf && "proc_bowtie2" !in conf ==>
      r == Failure(KeyError("proc_bowtie2"))
    ensures r.Success? <==>
      && "fastq_F_file" in conf && "fastq_R_file" in conf && "proc_bowtie2" in conf
      && fs.Exists(conf["fastq_F_file"]) && fs.Exists(conf["fastq_R_file"])
    ensures r.Success? ==> StepOf(r.value) == FastqToBamStep && Outputs(r.value) == [n.targetSam, n.contamSam]
  {
    var fastqF :- Lookup(conf, "fastq_F_file");
    var fastqR :- Lookup(conf, "fastq_R_file");
    var procBowtie2 :- Lookup(conf, "proc_bowtie2");
    if !fs.Exists(fastqF) then Failure(AssertionFailed(fastqF))
    else if !fs.Exists(fastqR) then Failure(AssertionFailed(fastqR))
    else Success(FastqToBam(fastqF, fastqR, n.sample, n.targetGenome, n.contamGenome, procBowtie2,
                            "cutadapt", "bowtie2", n.targetSam, n.contamSam))
  }

  /** Steps 1 and 2: unless the filtered BAM exists, align if needed, then filter. */
  function AlignFilterStep(conf: Conf, n: Names, r: BRun, size: Path -> nat): BRun
  {
    if r.error.Some? || r.fs.Exists(n.filteredBam) then r
    else match AlignWanted(r.fs, n)
      case Failure(e) => r.(error := Some(e))
      case Success(want) =>
        var r1 := if want then Call(r, FastqToBamCall(conf, n, r.fs), size) else r;
        if r1.error.Some? then r1
        else Invoke(r1, ContamFilter(n.targetSam, n.contamSam, 20, true, n.filteredBam), size)
  }

  /** Step 3: the BED files, unless one of them exists. */
  function BedsStep(n: Names, r: BRun, size: Path -> nat): BRun
  {
    if r.error.Some? || r.fs.Exists(n.readsBed) || r.fs.Exists(n.posBed) then r
    else Invoke(r, BamToBeds(n.filteredBam, "bedtools", n.readsBed, n.posBed), size)
  }

  function StatsCall(conf: Conf, n: Names): Result<Invocation, Error>
  {
    var sizes :- Lookup(conf, "sizes_file");
    Success(ControlStats(n.base, sizes, n.statFile))
  }

  /** Step 3a: the per-chromosome statistics, unless they exist. */
  function StatsStep(conf: Conf, n: Names, r: BRun, size: Path -> nat): BRun
  {
    if r.error.Some? || r.fs.Exists(n.statFile) then r
    else Call(r, StatsCall(conf, n), size)
  }

  function PlotCall(conf: Conf, n: Names): Result<Invocation, Error>
  {
    var sizes :- Lookup(conf, "sizes_file");
    Success(ControlPlots(n.posBed, sizes, n.controlPlot))
  }

  /** Step 3b: the control plot, unless it exists. */
  function PlotStep(conf: Conf, n: Names, r: BRun, size: Path -> nat): BRun
  {
    if r.error.Some? || r.fs.Exists(n.controlPlot) then r
    else Call(r, PlotCall(conf, n), size)
  }

  function RegionCall(conf: Conf, n: Names): Result<Invocation, Error>
  {
    var sizes :- Lookup(conf, "sizes_file");
    Success(RegionDnacopy(n.posBed, sizes, "20", "20", n.regTable, n.regPlot))
  }

  /** Step 4: region segmentation, unless both its table and its plot exist. */
  function RegionStep(conf: Conf, n: Names, r: BRun, size: Path -> nat): BRun
  {
    if r.error.Some? || (r.fs.Exists(n.regTable) && r.fs.Exists(n.regPlot)) then r
    else Call(r, RegionCall(conf, n), size)
  }

  /** The six steps in the order the block takes them. */
  function Steps(conf: Conf, n: Names, r: BRun, size: Path -> nat): BRun
  {
    RegionStep(conf, n, PlotStep(conf, n, StatsStep(conf, n, BedsStep(n, AlignFilterStep(conf, n, r, size), size), size), size), size)
  }

  /** The whole block on a configuration file given as its lines. */
  function Main(lines: seq<string>, fs: FileSystem, size: Path -> nat): BRun
  {
    match Parse(lines)
    case Failure(e) => BRun(fs, [], Some(ConfigError(e)))
    case Success(conf) =>
      match BaseNames(conf)
      case Failure(e) => BRun(fs, [], Some(e))
      case Success(n) => Steps(conf, n, BRun(fs, [], None), size)
  }

  // ---------------------------------------------------------------------
  // The plan: which steps run, read off the files present at the start

  function If(c: bool, s: Step): seq<Step>
  {
    if c then [s] else []
  }

  function FrontPlan(n: Names, fs: FileSystem): seq<Step>
  {
    if fs.Exists(n.filteredBam) then []
    else If(AlignWanted(fs, n) == Success(true), FastqToBamStep) + [ContamFilterStep]
  }

  function BedsPlan(n: Names, fs: FileSystem): seq<Step>
  {
    If(!fs.Exists(n.readsBed) && !fs.Exists(n.posBed), BamToBedsStep)
  }

  function StatsPlan(n: Names, fs: FileSystem): seq<Step>
  {
    If(!fs.Exists(n.statFile), ControlStatsStep)
  }

  function PlotPlan(n: Names, fs: FileSystem): seq<Step>
  {
    If(!fs.Exists(n.controlPlot), ControlPlotsStep)
  }

  function RegionPlan(n: Names, fs: FileSystem): seq<Step>
  {
    If(!fs.Exists(n.regTable) || !fs.Exists(n.regPlot), RegionDnacopyStep)
  }

  /** The steps that run, as a function of the files present when the block starts. */
  function Plan(n: Names, fs: FileSystem): seq<Step>
  {
    FrontPlan(n, fs) + BedsPlan(n, fs) + StatsPlan(n, fs) + PlotPlan(n, fs) + RegionPlan(n, fs)
  }

  /** The plan after the steps before step 3 depends only on the files steps 3 to 4 look at. */
  function Later(n: Names, fs: FileSystem): (bool, bool, bool, bool, bool, bool)
  {
    (fs.Exists(n.readsBed), fs.Exists(n.posBed), fs.Exists(n.statFile), fs.Exists(n.controlPlot),
     fs.Exists(n.regTable), fs.Exists(n.regPlot))
  }

  /**
   * No step writes a file that a later step looks at: the SAM and BAM files
   * end in `m`, the BED files in `d`, the tables in `v` and the plots in `f`,
   * and files with the same ending differ in length.
   */
  predicate Separate(n: Names)
  {
    && n.targetSam !in [n.readsBed, n.posBed, n.statFile, n.controlPlot, n.regTable, n.regPlot]
    && n.contamSam !in [n.readsBed, n.posBed, n.statFile, n.controlPlot, n.regTable, n.regPlot]
    && n.filteredBam !in [n.readsBed, n.posBed, n.statFile, n.controlPlot, n.regTable, n.regPlot]
    && n.readsBed !in [n.statFile, n.controlPlot, n.regTable, n.regPlot]
    && n.posBed !in [n.statFile, n.controlPlot, n.regTable, n.regPlot]
    && n.statFile !in [n.controlPlot, n.regTable, n.regPlot]
    && n.controlPlot !in [n.regTable, n.regPlot]
  }

  lemma LastOf(a: string, b: string)
    requires |b| > 0
    ensures |a + b| > 0 && (a + b)[|a + b| - 1] == b[|b| - 1]
  {
  }

  lemma SeparateNames(conf: Conf, n: Names)
    requires BaseNames(conf) == Success(n)
    ensures Separate(n)
  {
    NamesSpec(conf, n);
    var t, c := n.targetSam, n.contamSam;
    assert t == (n.sample + "." + n.targetName + ".") + "sam";
    assert c == (n.sample + "." + n.contamName + ".") + "sam";
    LastOf(n.sample + "." + n.targetName + ".", "sam");
    LastOf(n.sample + "." + n.contamName + ".", "sam");
    LastOf(n.base, ".bam");
    LastOf(n.base, ".reads.bed");
    LastOf(n.base, ".pos.bed");
    LastOf(n.base, ".chrom.tsv");
    LastOf(n.base, ".chrom.pdf");
    LastOf(n.base, ".reg.tsv");
    LastOf(n.base, ".reg.pdf");
  }

  // ---------------------------------------------------------------------
  // One step at a time

  /** Writing files none of which a later step looks at leaves the later steps' view unchanged. */
  lemma CreateKeepsLater(n: Names, fs: FileSystem, outs: seq<Path>, size: Path -> nat)
    requires n.readsBed !in outs && n.posBed !in outs && n.statFile !in outs
    requires n.controlPlot !in outs && n.regTable !in outs && n.regPlot !in outs
    ensures Later(n, fs.Create(outs, size)) == Later(n, fs)
  {
  }

  /** The alignment, when it runs and succeeds, adds one event and none of the later files. */
  lemma AlignPlanned(conf: Conf, n: Names, r: BRun, size: Path -> nat)
    requires r.error.None? && Separate(n)
    ensures var r1 := Call(r, FastqToBamCall(conf, n, r.fs), size);
      r1.error.None? ==>
        && StepsOf(r1.events) == StepsOf(r.events) + [FastqToBamStep]
        && Later(n, r1.fs) == Later(n, r.fs)
  {
    var c := FastqToBamCall(conf, n, r.fs);
    if c.Success? {
      StepsOfAppend(r.events, c.value);
      CreateKeepsLater(n, r.fs, [n.targetSam, n.contamSam], size);
    }
  }

  /** The filter adds one event and none of the later files. */
  lemma FilterPlanned(n: Names, r: BRun, size: Path -> nat)
    requires Separate(n)
    ensures var r' := Invoke(r, ContamFilter(n.targetSam, n.contamSam, 20, true, n.filteredBam), size);
      && StepsOf(r'.events) == StepsOf(r.events) + [ContamFilterStep]
      && Later(n, r'.fs) == Later(n, r.fs)
  {
    StepsOfAppend(r.events, ContamFilter(n.targetSam, n.contamSam, 20, true, n.filteredBam));
    CreateKeepsLater(n, r.fs, [n.filteredBam], size);
  }

  /** Alignment followed by the filter: two events, and none of the later files written. */
  lemma AlignThenFilter(conf: Conf, n: Names, r: BRun, size: Path -> nat)
    requires r.error.None? && Separate(n)
    ensures var r1 := Call(r, FastqToBamCall(conf, n, r.fs), size);
      var r' := Invoke(r1, ContamFilter(n.targetSam, n.contamSam, 20, true, n.filteredBam), size);
      r1.error.None? ==>
        && StepsOf(r'.events) == StepsOf(r.events) + [FastqToBamStep, ContamFilterStep]
        && Later(n, r'.fs) == Later(n, r.fs)
  {
    var r1 := Call(r, FastqToBamCall(conf, n, r.fs), size);
    if r1.error.None? {
      AlignPlanned(conf, n, r, size);
      FilterPlanned(n, r1, size);
    }
  }

  lemma AlignFilterPlanned(conf: Conf, n: Names, r: BRun, size: Path -> nat)
    requires r.error.None? && Separate(n)
    ensures var r' := AlignFilterStep(conf, n, r, size);
      r'.error.None? ==>
        && StepsOf(r'.events) == StepsOf(r.events) + FrontPlan(n, r.fs)
        && Later(n, r'.fs) == Later(n, r.fs)
  {
    if !r.fs.Exists(n.filteredBam) {
      match AlignWanted(r.fs, n)
      case Failure(_) =>
      case Success(want) =>
        var filter := ContamFilter(n.targetSam, n.contamSam, 20, true, n.filteredBam);
        if want {
          var r1 := Call(r, FastqToBamCall(conf, n, r.fs), size);
          AlignThenFilter(conf, n, r, size);
          assert FrontPlan(n, r.fs) == [FastqToBamStep, ContamFilterStep];
          assert r1.error.None? ==> AlignFilterStep(conf, n, r, size) == Invoke(r1, filter, size);
        } else {
          FilterPlanned(n, r, size);
          assert FrontPlan(n, r.fs) == [ContamFilterStep];
          assert AlignFilterStep(conf, n, r, size) == Invoke(r, filter, size);
        }
    }
  }

  lemma BedsPlanned(n: Names, r: BRun, size: Path -> nat)
    requires r.error.None?
    requires n.readsBed !in [n.statFile, n.controlPlot, n.regTable, n.regPlot]
    requires n.posBed !in [n.statFile, n.controlPlot, n.regTable, n.regPlot]
    ensures var r' := BedsStep(n, r, size);
      && r'.error.None?
      && StepsOf(r'.events) == StepsOf(r.events) + BedsPlan(n, r.fs)
      && StatsPlan(n, r'.fs) == StatsPlan(n, r.fs) && PlotPlan(n, r'.fs) == PlotPlan(n, r.fs)
      && RegionPlan(n, r'.fs) == RegionPlan(n, r.fs)
  {
    if !r.fs.Exists(n.readsBed) && !r.fs.Exists(n.posBed) {
      var inv := BamToBeds(n.filteredBam, "bedtools", n.readsBed, n.posBed);
      var outs := [n.readsBed, n.posBed];
      assert Outputs(inv) == outs;
      var fs' := r.fs.Create(outs, size);
      assert BedsStep(n, r, size) == BRun(fs', r.events + [inv], None);
      StepsOfAppend(r.events, inv);
      CreateKeeps(r.fs, outs, size, n.statFile);
      CreateKeeps(r.fs, outs, size, n.controlPlot);
      CreateKeeps(r.fs, outs, size, n.regTable);
      CreateKeeps(r.fs, outs, size, n.regPlot);
    }
  }

  lemma StatsPlanned(conf: Conf, n: Names, r: BRun, size: Path -> nat)
    requires r.error.None?
    requires n.statFile != n.controlPlot && n.statFile != n.regTable && n.statFile != n.regPlot
    ensures var r' := StatsStep(conf, n, r, size);
      r'.error.None? ==>
        && StepsOf(r'.events) == StepsOf(r.events) + StatsPlan(n, r.fs)
        && PlotPlan(n, r'.fs) == PlotPlan(n, r.fs) && RegionPlan(n, r'.fs) == RegionPlan(n, r.fs)
  {
    if !r.fs.Exists(n.statFile) && StatsCall(conf, n).Success? {
      var inv := StatsCall(conf, n).value;
      StepsOfAppend(r.events, inv);
      assert Outputs(inv) == [n.statFile];
      assert StatsStep(conf, n, r, size) == BRun(r.fs.Create([n.statFile], size), r.events + [inv], None);
      CreateKeeps(r.fs, [n.statFile], size, n.controlPlot);
      CreateKeeps(r.fs, [n.statFile], size, n.regTable);
      CreateKeeps(r.fs, [n.statFile], size, n.regPlot);
    }
  }

  lemma PlotPlanned(conf: Conf, n: Names, r: BRun, size: Path -> nat)
    requires r.error.None? && n.controlPlot != n.regTable && n.controlPlot != n.regPlot
    ensures var r' := PlotStep(conf, n, r, size);
      r'.error.None? ==>
        && StepsOf(r'.events) == StepsOf(r.events) + PlotPlan(n, r.fs)
        && RegionPlan(n, r'.fs) == RegionPlan(n, r.fs)
  {
    if !r.fs.Exists(n.controlPlot) && PlotCall(conf, n).Success? {
      var inv := PlotCall(conf, n).value;
      StepsOfAppend(r.events, inv);
      assert Outputs(inv) == [n.controlPlot];
      assert PlotStep(conf, n, r, size) == BRun(r.fs.Create([n.controlPlot], size), r.events + [inv], None);
      CreateKeeps(r.fs, [n.controlPlot], size, n.regTable);
      CreateKeeps(r.fs, [n.controlPlot], size, n.regPlot);
    }
  }

  lemma RegionPlanned(conf: Conf, n: Names, r: BRun, size: Path -> nat)
    requires r.error.None?
    ensures var r' := RegionStep(conf, n, r, size);
      r'.error.None? ==> StepsOf(r'.events) == StepsOf(r.events) + RegionPlan(n, r.fs)
  {
    if (!r.fs.Exists(n.regTable) || !r.fs.Exists(n.regPlot)) && RegionCall(conf, n).Success? {
      StepsOfAppend(r.events, RegionCall(conf, n).value);
    }
  }

  /** A step never clears an exception, and it leaves a run that has one as it is. */
  lemma ErrorsStick(conf: Conf, n: Names, r: BRun, size: Path -> nat)
    ensures r.error.Some? ==> AlignFilterStep(conf, n, r, size) == r && BedsStep(n, r, size) == r
    ensures r.error.Some? ==> StatsStep(conf, n, r, size) == r && PlotStep(conf, n, r, size) == r
    ensures r.error.Some? ==> RegionStep(conf, n, r, size) == r
    ensures AlignFilterStep(conf, n, r, size).error.None? ==> r.error.None?
  {
  }

  lemma Chain(e0: seq<Step>, a: seq<Step>, b: seq<Step>, c: seq<Step>, d: seq<Step>, e: seq<Step>,
              s1: seq<Step>, s2: seq<Step>, s3: seq<Step>, s4: seq<Step>, s5: seq<Step>)
    requires s1 == e0 + a && s2 == s1 + b && s3 == s2 + c && s4 == s3 + d && s5 == s4 + e
    ensures s5 == e0 + (a + b + c + d + e)
  {
  }

  /**
   * When the block ends without an exception, the steps it ran are exactly
   * the plan read off the files present at the start, in order.
   */
  lemma PlannedSteps(conf: Conf, n: Names, r: BRun, size: Path -> nat)
    requires BaseNames(conf) == Success(n) && r.error.None?
    ensures var r' := Steps(conf, n, r, size);
      r'.error.None? ==> StepsOf(r'.events) == StepsOf(r.events) + Plan(n, r.fs)
  {
    SeparateNames(conf, n);
    var r1 := AlignFilterStep(conf, n, r, size);
    var r2 := BedsStep(n, r1, size);
    var r3 := StatsStep(conf, n, r2, size);
    var r4 := PlotStep(conf, n, r3, size);
    var r5 := RegionStep(conf, n, r4, size);
    if r5.error.None? {
      ErrorsStick(conf, n, r, size);
      ErrorsStick(conf, n, r1, size);
      ErrorsStick(conf, n, r2, size);
      ErrorsStick(conf, n, r3, size);
      ErrorsStick(conf, n, r4, size);
      AlignFilterPlanned(conf, n, r, size);
      BedsPlanned(n, r1, size);
      StatsPlanned(conf, n, r2, size);
      PlotPlanned(conf, n, r3, size);
      RegionPlanned(conf, n, r4, size);
      assert BedsPlan(n, r1.fs) == BedsPlan(n, r.fs);
      assert StatsPlan(n, r1.fs) == StatsPlan(n, r.fs) && PlotPlan(n, r1.fs) == PlotPlan(n, r.fs);
      assert RegionPlan(n, r1.fs) == RegionPlan(n, r.fs);
      Chain(StepsOf(r.events), FrontPlan(n, r.fs), BedsPlan(n, r.fs), StatsPlan(n, r.fs), PlotPlan(n, r.fs),
            RegionPlan(n, r.fs), StepsOf(r1.events), StepsOf(r2.events), StepsOf(r3.events), StepsOf(r4.events),
            StepsOf(r5.events));
    }
  }

  /** `Steps` for a run started from the files `fs`, once the names are known. */
  lemma PlannedFromStart(conf: Conf, n: Names, fs: FileSystem, size: Path -> nat)
    requires BaseNames(conf) == Success(n)
    ensures var r := Steps(conf, n, BRun(fs, [], None), size);
      r.error.None? ==> StepsOf(r.events) == Plan(n, fs)
  {
    PlannedSteps(conf, n, BRun(fs, [], None), size);
  }

  /**
   * The whole block: a configuration that does not parse, or lacks one of
   * the three name keys, ends it before any tool runs; otherwise, when it
   * ends without an exception, it ran exactly the plan.
   */
  lemma MainPlanned(lines: seq<string>, fs: FileSystem, size: Path -> nat)
    ensures Parse(lines).Failure? ==> Main(lines, fs, size) == BRun(fs, [], Some(ConfigError(Parse(lines).error)))
    ensures Parse(lines).Success? && BaseNames(Parse(lines).value).Failure? ==>
      Main(lines, fs, size) == BRun(fs, [], Some(BaseNames(Parse(lines).value).error))
    ensures Main(lines, fs, size).error.None? ==>
      && Parse(lines).Success? && BaseNames(Parse(lines).value).Success?
      && StepsOf(Main(lines, fs, size).events) == Plan(BaseNames(Parse(lines).value).value, fs)
  {
    if Parse(lines).Success? && BaseNames(Parse(lines).value).Success? {
      PlannedFromStart(Parse(lines).value, BaseNames(Parse(lines).value).value, fs, size);
    }
  }

  // ---------------------------------------------------------------------
  // Reruns

  /** Every file that existed still exists. */
  ghost predicate Grows(fs: FileSystem, fs': FileSystem)
  {
    forall p :: fs.Exists(p) ==> fs'.Exists(p)
  }

  /** The files whose presence makes every step skip. */
  predicate Done(n: Names, fs: FileSystem)
  {
    && fs.Exists(n.filteredBam)
    && (fs.Exists(n.readsBed) || fs.Exists(n.posBed))
    && fs.Exists(n.statFile) && fs.Exists(n.controlPlot)
    && fs.Exists(n.regTable) && fs.Exists(n.regPlot)
  }

  lemma InvokeGrows(r: BRun, inv: Invocation, size: Path -> nat)
    ensures Grows(r.fs, Invoke(r, inv, size).fs)
    ensures forall p :: p in Outputs(inv) ==> Invoke(r, inv, size).fs.Exists(p)
  {
  }

  lemma CallGrows(r: BRun, c: Result<Invocation, Error>, size: Path -> nat)
    ensures Grows(r.fs, Call(r, c, size).fs)
    ensures c.Success? ==> forall p :: p in Outputs(c.value) ==> Call(r, c, size).fs.Exists(p)
  {
    if c.Success? {
      InvokeGrows(r, c.value, size);
    }
  }

  lemma AlignFilterWrites(conf: Conf, n: Names, r: BRun, size: Path -> nat)
    ensures var r' := AlignFilterStep(conf, n, r, size);
      && Grows(r.fs, r'.fs)
      && (r.error.None? && r'.error.None? ==> r'.fs.Exists(n.filteredBam))
  {
    if r.error.None? && !r.fs.Exists(n.filteredBam) && AlignWanted(r.fs, n).Success? {
      var want := AlignWanted(r.fs, n).value;
      var r1 := if want then Call(r, FastqToBamCall(conf, n, r.fs), size) else r;
      CallGrows(r, FastqToBamCall(conf, n, r.fs), size);
      InvokeGrows(r1, ContamFilter(n.targetSam, n.contamSam, 20, true, n.filteredBam), size);
    }
  }

  lemma BedsWrites(n: Names, r: BRun, size: Path -> nat)
    ensures var r' := BedsStep(n, r, size);
      Grows(r.fs, r'.fs) && (r'.error.None? ==> r'.fs.Exists(n.readsBed) || r'.fs.Exists(n.posBed))
  {
    InvokeGrows(r, BamToBeds(n.filteredBam, "bedtools", n.readsBed, n.posBed), size);
  }

  lemma StatsWrites(conf: Conf, n: Names, r: BRun, size: Path -> nat)
    ensures var r' := StatsStep(conf, n, r, size);
      Grows(r.fs, r'.fs) && (r'.error.None? ==> r'.fs.Exists(n.statFile))
  {
    CallGrows(r, StatsCall(conf, n), size);
  }

  lemma PlotWrites(conf: Conf, n: Names, r: BRun, size: Path -> nat)
    ensures var r' := PlotStep(conf, n, r, size);
      Grows(r.fs, r'.fs) && (r'.error.None? ==> r'.fs.Exists(n.controlPlot))
  {
    CallGrows(r, PlotCall(conf, n), size);
  }

  lemma RegionWrites(conf: Conf, n: Names, r: BRun, size: Path -> nat)
    ensures var r' := RegionStep(conf, n, r, size);
      Grows(r.fs, r'.fs) && (r'.error.None? ==> r'.fs.Exists(n.regTable) && r'.fs.Exists(n.regPlot))
  {
    CallGrows(r, RegionCall(conf, n), size);
  }

  /** A run that ends without an exception leaves every file that makes a rerun skip its steps. */
  lemma StepsLeaveOutputs(conf: Conf, n: Names, r: BRun, size: Path -> nat)
    requires r.error.None?
    ensures var r' := Steps(conf, n, r, size);
      r'.error.None? ==> Done(n, r'.fs)
  {
    var r1 := AlignFilterStep(conf, n, r, size);
    var r2 := BedsStep(n, r1, size);
    var r3 := StatsStep(conf, n, r2, size);
    var r4 := PlotStep(conf, n, r3, size);
    var r5 := RegionStep(conf, n, r4, size);
    if r5.error.None? {
      ErrorsStick(conf, n, r1, size);
      ErrorsStick(conf, n, r2, size);
      ErrorsStick(conf, n, r3, size);
      ErrorsStick(conf, n, r4, size);
      AlignFilterWrites(conf, n, r, size);
      BedsWrites(n, r1, size);
      StatsWrites(conf, n, r2, size);
      PlotWrites(conf, n, r3, size);
      RegionWrites(conf, n, r4, size);
    }
  }

  /** With every output present, the block runs nothing and changes nothing. */
  lemma DoneSkipsAll(conf: Conf, n: Names, r: BRun, size: Path -> nat)
    requires Done(n, r.fs)
    ensures Steps(conf, n, r, size) == r
  {
  }

  /** Running the block again after a run without exception invokes no tool and changes no file. */
  lemma CompleteRerunIsNoOp(lines: seq<string>, fs: FileSystem, size: Path -> nat)
    requires Main(lines, fs, size).error.None?
    ensures Main(lines, Main(lines, fs, size).fs, size) == BRun(Main(lines, fs, size).fs, [], None)
  {
    var conf := Parse(lines).value;
    var n := BaseNames(conf).value;
    StepsLeaveOutputs(conf, n, BRun(fs, [], None), size);
    DoneSkipsAll(conf, n, BRun(Main(lines, fs, size).fs, [], None), size);
  }

  // ---------------------------------------------------------------------
  // The exceptions of the steps

  /**
   * A missing target SAM next to an existing contamination SAM makes
   * `getsize` raise before any tool runs.
   */
  lemma MissingTargetSamRaises(conf: Conf, n: Names, r: BRun, size: Path -> nat)
    requires r.error.None?
    requires !r.fs.Exists(n.filteredBam) && !r.fs.Exists(n.targetSam) && r.fs.Exists(n.contamSam)
    ensures Steps(conf, n, r, size) == r.(error := Some(GetSizeFailed(n.targetSam)))
  {
    ErrorsStick(conf, n, r.(error := Some(GetSizeFailed(n.targetSam))), size);
  }

  /** When alignment is due, a missing read file fails its assertion before the tool runs. */
  lemma MissingReadsRaise(conf: Conf, n: Names, r: BRun, size: Path -> nat)
    requires r.error.None? && !r.fs.Exists(n.filteredBam) && AlignWanted(r.fs, n) == Success(true)
    requires "fastq_F_file" in conf && "fastq_R_file" in conf && "proc_bowtie2" in conf
    requires !r.fs.Exists(conf["fastq_F_file"]) || !r.fs.Exists(conf["fastq_R_file"])
    ensures var f := conf["fastq_F_file"];
      Steps(conf, n, r, size) ==
        r.(error := Some(AssertionFailed(if !r.fs.Exists(f) then f else conf["fastq_R_file"])))
  {
    var f := conf["fastq_F_file"];
    var e := AssertionFailed(if !r.fs.Exists(f) then f else conf["fastq_R_file"]);
    assert FastqToBamCall(conf, n, r.fs) == Failure(e);
    ErrorsStick(conf, n, r.(error := Some(e)), size);
  }

  /** The skip rules, read off the plan. */
  lemma SkipRules(n: Names, fs: FileSystem)
    ensures ContamFilterStep in Plan(n, fs) <==> !fs.Exists(n.filteredBam)
    ensures FastqToBamStep in Plan(n, fs) <==> !fs.Exists(n.filteredBam) && AlignWanted(fs, n) == Success(true)
    ensures BamToBedsStep in Plan(n, fs) <==> !fs.Exists(n.readsBed) && !fs.Exists(n.posBed)
    ensures ControlStatsStep in Plan(n, fs) <==> !fs.Exists(n.statFile)
    ensures ControlPlotsStep in Plan(n, fs) <==> !fs.Exists(n.controlPlot)
    ensures RegionDnacopyStep in Plan(n, fs) <==> !fs.Exists(n.regTable) || !fs.Exists(n.regPlot)
  {
  }

  // ---------------------------------------------------------------------
  // The block as the script runs it

  /** Steps 1 and 2, in the order the script takes them. */
  method RunAlignFilter(conf: Conf, n: Names, r0: BRun, size: Path -> nat) returns (r: BRun)
    requires r0.error.None?
    ensures r == AlignFilterStep(conf, n, r0, size)
  {
    r := r0;
    if r.fs.Exists(n.filteredBam) {
      return;
    }
    var want: bool;
    if !r.fs.Exists(n.targetSam) && !r.fs.Exists(n.contamSam) {
      want := true;
    } else if !r.fs.Exists(n.targetSam) {
      r := r.(error := Some(GetSizeFailed(n.targetSam)));
      return;
    } else {
      want := r.fs.sizes[n.targetSam] == 0;
    }
    if want {
      r := Call(r, FastqToBamCall(conf, n, r.fs), size);
      if r.error.Some? {
        return;
      }
    }
    r := Invoke(r, ContamFilter(n.targetSam, n.contamSam, 20, true, n.filteredBam), size);
  }

  /** The six steps, each guarded by the existence of its files. */
  method RunSteps(conf: Conf, n: Names, r0: BRun, size: Path -> nat) returns (r: BRun)
    requires r0.error.None?
    ensures r == Steps(conf, n, r0, size)
  {
    r := RunAlignFilter(conf, n, r0, size);
    if r.error.Some? {
      return;
    }
    if !r.fs.Exists(n.readsBed) && !r.fs.Exists(n.posBed) {
      r := Invoke(r, BamToBeds(n.filteredBam, "bedtools", n.readsBed, n.posBed), size);
    }
    if !r.fs.Exists(n.statFile) {
      r := Call(r, StatsCall(conf, n), size);
      if r.error.Some? {
        return;
      }
    }
    if !r.fs.Exists(n.controlPlot) {
      r := Call(r, PlotCall(conf, n), size);
      if r.error.Some? {
        return;
      }
    }
    if !r.fs.Exists(n.regTable) || !r.fs.Exists(n.regPlot) {
      r := Call(r, RegionCall(conf, n), size);
    }
  }

  /** The whole block: read the settings, derive the names, run the steps. */
  method RunMain(lines: seq<string>, fs: FileSystem, size: Path -> nat) returns (r: BRun)
    ensures r == Main(lines, fs, size)
  {
    var parsed := ParseConfig(lines);
    if parsed.Failure? {
      return BRun(fs, [], Some(ConfigError(parsed.error)));
    }
    var named := BaseNames(parsed.value);
    if named.Failure? {
      return BRun(fs, [], Some(named.error));
    }
    r := RunSteps(parsed.value, named.value, BRun(fs, [], None), size);
  }
}
