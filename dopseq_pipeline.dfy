/**
 * The resumable stage sequence of the `dopseq` driver and its loop over the
 * samples (dopseq/dopseq_pipeline.py). Each external tool is an invocation
 * event; outside a dry run it creates the files it is asked to write.
 */
module DopseqPipeline {
  import opened Wrappers
  import opened PyStr
  import opened Files
  import opened DopseqNames
  import opened DopseqConfig

  datatype Role = Target | Contam

  /** A call of one of the pipeline's tools, with the arguments the driver passes. */
  datatype Invocation =
    | Trim(sample: string, fastqF: Value, fastqR: Value, outF: Path, outR: Option<Path>, log: Path,
           cutadaptPath: Value, trimIllumina: Value, ampl: Value, params: Value)
    | Align(role: Role, readsF: Path, readsR: Option<Path>, reference: Path, outBam: Path,
            aligner: Value, alignerPath: Value, alignerArgs: Value)
    | Filter(targetBam: Path, contamBam: Path, outBam: Path, statFile: Path, minQuality: Value, minLength: Value)
    | BamToBed(inBam: Path, outBed: Path, bedtoolsPath: Value)
    | Regions(posBed: Path, sizesFile: Value, width: int, height: int, regTsv: Path, regPdf: Path)
    | Stats(caLog: Path, filterLog: Path, posBed: Path, output: Path)
    | RepExpl(fFastq: Path, rFastq: Path, outFasta: Path)

  datatype Stage = TrimStage | AlignStage(role: Role) | FilterStage | BedStage | RegionStage | StatsStage | RepExplStage

  function StageOf(inv: Invocation): Stage
  {
    match inv
    case Trim(_, _, _, _, _, _, _, _, _, _) => TrimStage
    case Align(role, _, _, _, _, _, _, _) => AlignStage(role)
    case Filter(_, _, _, _, _, _) => FilterStage
    case BamToBed(_, _, _) => BedStage
    case Regions(_, _, _, _, _, _) => RegionStage
    case Stats(_, _, _, _) => StatsStage
    case RepExpl(_, _, _) => RepExplStage
  }

  /** The files a tool writes. */
  function Outputs(inv: Invocation): seq<Path>
  {
    match inv
    case Trim(_, _, _, outF, outR, log, _, _, _, _) => [outF] + (if outR.Some? then [outR.value] else []) + [log]
    case Align(_, _, _, _, outBam, _, _, _) => [outBam]
    case Filter(_, _, outBam, statFile, _, _) => [outBam, statFile]
    case BamToBed(_, outBed, _) => [outBed]
    case Regions(_, _, _, _, regTsv, regPdf) => [regTsv, regPdf]
    case Stats(_, _, _, output) => [output]
    case RepExpl(_, _, outFasta) => [outFasta]
  }

  /** The stages of a list of invocations, in order. */
  function Kinds(events: seq<Invocation>): (ks: seq<Stage>)
    ensures |ks| == |events|
    ensures forall i :: 0 <= i < |events| ==> ks[i] == StageOf(events[i])
  {
    if |events| == 0 then [] else Kinds(events[..|events| - 1]) + [StageOf(events[|events| - 1])]
  }

  /**
   * What the run depends on besides the configuration: the dry-run switch,
   * the programs found on the search path, and the size of each file a tool
   * writes.
   */
  datatype Env = Env(dryRun: bool, executables: set<string>, outputSize: Path -> nat)

  /** The state of a run: the files, the tools invoked so far, and the exception that ended it, if any. */
  datatype Run = Run(fs: FileSystem, events: seq<Invocation>, error: Option<Error>)

  /** A tool call: it is listed, and outside a dry run its outputs are written. */
  function Invoke(r: Run, inv: Invocation, env: Env): (r': Run)
    ensures r'.events == r.events + [inv] && r'.error == r.error
    ensures env.dryRun ==> r'.fs == r.fs
    ensures !env.dryRun ==> r'.fs == r.fs.Create(Outputs(inv), env.outputSize)
  {
    Run(if env.dryRun then r.fs else r.fs.Create(Outputs(inv), env.outputSize), r.events + [inv], r.error)
  }

  /** A tool call whose arguments are looked up first; a failed lookup ends the run. */
  function Call(r: Run, c: Result<Invocation, Error>, env: Env): Run
  {
    match c
    case Failure(e) => r.(error := Some(e))
    case Success(inv) => Invoke(r, inv, env)
  }

  /** The files of a sample's stages sit in the numbered directories `0_fastq` to `6_fasta`. */
  predicate Layout(n: FileNames)
  {
    && |n.fTrimReads| > 0 && n.fTrimReads[0] == '0'
    && (n.rTrimReads.Some? ==> |n.rTrimReads.value| > 0 && n.rTrimReads.value[0] == '0')
    && |n.caLog| > 0 && n.caLog[0] == '0'
    && |n.targetBam| > 0 && n.targetBam[0] == '1'
    && |n.contamBam| > 0 && n.contamBam[0] == '1'
    && |n.filterBam| > 0 && n.filterBam[0] == '2'
    && |n.filterLog| > 0 && n.filterLog[0] == '2'
    && |n.posBed| > 0 && n.posBed[0] == '3'
    && |n.regTsv| > 0 && n.regTsv[0] == '4'
    && |n.regPdf| > 0 && n.regPdf[0] == '4'
    && |n.statFile| > 0 && n.statFile[0] == '5'
    && |n.repexplFasta| > 0 && n.repexplFasta[0] == '6'
  }

  lemma GeneratedLayout(sample: string, targetPath: Path, contamPath: Path)
    ensures Layout(GenerateFilenames(sample, targetPath, contamPath))
    ensures Layout(GenerateFilenames(sample, targetPath, contamPath).(rTrimReads := None))
  {
  }

  // ---------------------------------------------------------------------
  // The stages of one sample

  function TrimCall(ctx: Context): Result<Invocation, Error>
  {
    var fastqF :- Get(ctx.sampleConf, "fastq_F_file");
    var fastqR :- Get(ctx.sampleConf, "fastq_R_file");
    var cutadaptPath :- Get(ctx.conf, "cutadapt_path");
    var trimIllumina :- Get(ctx.conf, "trim_illumina");
    var ampl :- Get(ctx.conf, "ampl");
    var params :- Get(ctx.conf, "cutadapt_args");
    Success(Trim(ctx.sample, fastqF, fastqR, ctx.names.fTrimReads, ctx.names.rTrimReads, ctx.names.caLog,
                 cutadaptPath, trimIllumina, ampl, params))
  }

  /** Read trimming runs unless the trimmed forward reads exist. */
  function TrimStep(ctx: Context, r: Run, env: Env): Run
  {
    if r.error.Some? || r.fs.Exists(ctx.names.fTrimReads) then r
    else Call(r, TrimCall(ctx), env)
  }

  function AlignCall(ctx: Context, role: Role): Result<Invocation, Error>
  {
    var aln :- Get(ctx.conf, "aln");
    var n := ctx.names;
    Success(Align(role, n.fTrimReads, n.rTrimReads,
                  if role == Target then n.targetPath else n.contamPath,
                  if role == Target then n.targetBam else n.contamBam,
                  aln, ctx.alignerPath, ctx.alignerArgs))
  }

  function BamOf(n: FileNames, role: Role): Path
  {
    if role == Target then n.targetBam else n.contamBam
  }

  /** Each alignment runs unless its own BAM file exists. */
  function AlignStep(ctx: Context, role: Role, r: Run, env: Env): Run
  {
    if r.error.Some? || r.fs.Exists(BamOf(ctx.names, role)) then r
    else Call(r, AlignCall(ctx, role), env)
  }

  function FilterCall(ctx: Context): Result<Invocation, Error>
  {
    var minQuality :- Get(ctx.conf, "min_mapq");
    var minLength :- Get(ctx.conf, "min_len");
    var n := ctx.names;
    Success(Filter(n.targetBam, n.contamBam, n.filterBam, n.filterLog, minQuality, minLength))
  }

  /** The contamination filter always runs once the front stages are entered. */
  function FilterStep(ctx: Context, r: Run, env: Env): Run
  {
    if r.error.Some? then r else Call(r, FilterCall(ctx), env)
  }

  /** Trimming, both alignments and the filter, all skipped when the filtered BAM exists. */
  function FrontStages(ctx: Context, r: Run, env: Env): Run
  {
    if r.error.Some? || r.fs.Exists(ctx.names.filterBam) then r
    else
      var r := TrimStep(ctx, r, env);
      var r := AlignStep(ctx, Target, r, env);
      var r := AlignStep(ctx, Contam, r, env);
      FilterStep(ctx, r, env)
  }

  function BedCall(ctx: Context): Result<Invocation, Error>
  {
    var bedtoolsPath :- Get(ctx.conf, "bedtools_path");
    Success(BamToBed(ctx.names.filterBam, ctx.names.posBed, bedtoolsPath))
  }

  /** BED conversion runs unless the BED file of read positions exists. */
  function BedStep(ctx: Context, r: Run, env: Env): Run
  {
    if r.error.Some? || r.fs.Exists(ctx.names.posBed) then r
    else Call(r, BedCall(ctx), env)
  }

  function RegionCall(ctx: Context): Result<Invocation, Error>
  {
    var sizesFile :- Get(ctx.conf, "sizes_file");
    var width :- Get(ctx.conf, "plot_width");
    var height :- Get(ctx.conf, "plot_height");
    var w :- AsNumber("plot_width", width);
    var h :- AsNumber("plot_height", height);
    Success(Regions(ctx.names.posBed, sizesFile, w, h, ctx.names.regTsv, ctx.names.regPdf))
  }

  /**
   * Region segmentation: outside a dry run an empty BED file skips it (and
   * a BED file that does not exist cannot be measured); otherwise it runs
   * unless the region table exists.
   */
  function RegionStep(ctx: Context, r: Run, env: Env): Run
  {
    var bed := ctx.names.posBed;
    if r.error.Some? then r
    else if !env.dryRun && !r.fs.Exists(bed) then r.(error := Some(StatFailed(bed)))
    else if !env.dryRun && r.fs.sizes[bed] == 0 then r
    else if r.fs.Exists(ctx.names.regTsv) then r
    else Call(r, RegionCall(ctx), env)
  }

  /** The statistics stage runs unless the statistics file exists. */
  function StatsStep(ctx: Context, r: Run, env: Env): Run
  {
    var n := ctx.names;
    if r.error.Some? || r.fs.Exists(n.statFile) then r
    else Invoke(r, Stats(n.caLog, n.filterLog, n.posBed, n.statFile), env)
  }

  /**
   * The RepeatExplorer stage: when asked for, it is skipped for single-end
   * reads and otherwise runs unless its FASTA file exists.
   */
  function RepExplStep(ctx: Context, r: Run, env: Env): Run
  {
    var n := ctx.names;
    if r.error.Some? then r
    else if "fastq_repexpl" !in ctx.conf then r.(error := Some(KeyError("fastq_repexpl")))
    else if !Truthy(ctx.conf["fastq_repexpl"]) || n.rTrimReads.None? || r.fs.Exists(n.repexplFasta) then r
    else Invoke(r, RepExpl(n.fTrimReads, n.rTrimReads.value, n.repexplFasta), env)
  }

  /** All stages of one sample, in order. */
  function Stages(ctx: Context, r: Run, env: Env): Run
  {
    var r := FrontStages(ctx, r, env);
    var r := BedStep(ctx, r, env);
    var r := RegionStep(ctx, r, env);
    var r := StatsStep(ctx, r, env);
    RepExplStep(ctx, r, env)
  }

  // ---------------------------------------------------------------------
  // The stage plan, read off the files that exist before the sample's stages

  /** The size of the BED file when region segmentation looks at it. */
  function BedSize(n: FileNames, fs: FileSystem, env: Env): nat
  {
    if fs.Exists(n.posBed) then fs.sizes[n.posBed] else env.outputSize(n.posBed)
  }

  function If(c: bool, s: Stage): seq<Stage>
  {
    if c then [s] else []
  }

  /**
   * Which stages a sample runs, decided from the files present before any
   * of them: with the filtered BAM present, trimming, alignment and
   * filtering are all skipped; otherwise trimming runs when the trimmed
   * reads are absent, each alignment when its BAM is absent (the second
   * one also sees the BAM the first wrote when both coincide), and the
   * filter always. Each later stage runs when its output is absent, except
   * that outside a dry run an empty BED file skips region segmentation, and
   * the RepeatExplorer stage needs paired reads and the switch.
   */
  function Plan(ctx: Context, fs: FileSystem, env: Env): seq<Stage>
  {
    var n := ctx.names;
    FrontPlan(n, fs, env)
    + If(!fs.Exists(n.posBed), BedStage)
    + If(!fs.Exists(n.regTsv) && (env.dryRun || BedSize(n, fs, env) != 0), RegionStage)
    + If(!fs.Exists(n.statFile), StatsStage)
    + If(RepExplWanted(ctx) && !fs.Exists(n.repexplFasta), RepExplStage)
  }

  /** The front stages of the plan. */
  function FrontPlan(n: FileNames, fs: FileSystem, env: Env): seq<Stage>
  {
    if fs.Exists(n.filterBam) then []
    else
      If(!fs.Exists(n.fTrimReads), TrimStage)
      + If(!fs.Exists(n.targetBam), AlignStage(Target))
      + If(!fs.Exists(n.contamBam) && (env.dryRun || n.contamBam != n.targetBam), AlignStage(Contam))
      + [FilterStage]
  }

  /** The RepeatExplorer stage is asked for and the reads are paired. */
  predicate RepExplWanted(ctx: Context)
  {
    "fastq_repexpl" in ctx.conf && Truthy(ctx.conf["fastq_repexpl"]) && ctx.names.rTrimReads.Some?
  }

  /** A file is neither created nor resized between two states. */
  predicate Keeps(fs: FileSystem, fs': FileSystem, p: Path)
  {
    (fs'.Exists(p) <==> fs.Exists(p)) && (fs.Exists(p) ==> fs'.sizes[p] == fs.sizes[p])
  }

  /** Only files whose directory digit lies in `[lo, hi)` may change between two states. */
  ghost predicate Untouched(fs: FileSystem, fs': FileSystem, lo: char, hi: char)
  {
    forall p {:trigger Keeps(fs, fs', p)} :: |p| > 0 && (p[0] < lo || p[0] >= hi) ==> Keeps(fs, fs', p)
  }

  lemma UntouchedTrans(fs1: FileSystem, fs2: FileSystem, fs3: FileSystem, lo: char, m: char, m': char, hi: char)
    requires Untouched(fs1, fs2, lo, m) && Untouched(fs2, fs3, m', hi) && lo <= m' && m <= hi
    ensures Untouched(fs1, fs3, lo, hi)
  {
    forall p | |p| > 0 && (p[0] < lo || p[0] >= hi)
      ensures Keeps(fs1, fs3, p)
    {
      assert Keeps(fs1, fs2, p) && Keeps(fs2, fs3, p);
    }
  }

  lemma KindsAppend(events: seq<Invocation>, inv: Invocation)
    ensures Kinds(events + [inv]) == Kinds(events) + [StageOf(inv)]
  {
    assert (events + [inv])[..|events|] == events;
  }

  /**
   * A tool call appends its own stage, writes only in the directories
   * `[lo, hi)`, and outside a dry run leaves all its outputs in place.
   */
  lemma CallStep(r: Run, c: Result<Invocation, Error>, env: Env, lo: char, hi: char)
    requires c.Success? ==> forall p :: p in Outputs(c.value) ==> |p| > 0 && lo <= p[0] < hi
    ensures var r' := Call(r, c, env);
      && Untouched(r.fs, r'.fs, lo, hi)
      && (c.Success? ==> Kinds(r'.events) == Kinds(r.events) + [StageOf(c.value)] && r'.error == r.error)
      && (c.Success? && !env.dryRun ==> forall p :: p in Outputs(c.value) ==> r'.fs.Exists(p))
      && (c.Failure? ==> r'.error == Some(c.error))
  {
    if c.Success? {
      KindsAppend(r.events, c.value);
    }
  }

  lemma CallOutputs(ctx: Context)
    requires Layout(ctx.names)
    ensures TrimCall(ctx).Success? ==>
      StageOf(TrimCall(ctx).value) == TrimStage && forall p :: p in Outputs(TrimCall(ctx).value) ==> |p| > 0 && p[0] == '0'
    ensures forall role :: AlignCall(ctx, role).Success? ==>
      StageOf(AlignCall(ctx, role).value) == AlignStage(role) && Outputs(AlignCall(ctx, role).value) == [BamOf(ctx.names, role)]
    ensures FilterCall(ctx).Success? ==>
      StageOf(FilterCall(ctx).value) == FilterStage && Outputs(FilterCall(ctx).value) == [ctx.names.filterBam, ctx.names.filterLog]
    ensures BedCall(ctx).Success? ==>
      StageOf(BedCall(ctx).value) == BedStage && Outputs(BedCall(ctx).value) == [ctx.names.posBed]
    ensures RegionCall(ctx).Success? ==>
      StageOf(RegionCall(ctx).value) == RegionStage && Outputs(RegionCall(ctx).value) == [ctx.names.regTsv, ctx.names.regPdf]
  {
  }

  lemma TrimPlanned(ctx: Context, r: Run, env: Env)
    requires Layout(ctx.names) && r.error.None? && TrimStep(ctx, r, env).error.None?
    ensures var r' := TrimStep(ctx, r, env);
      && Untouched(r.fs, r'.fs, '0', '1')
      && Kinds(r'.events) == Kinds(r.events) + If(!r.fs.Exists(ctx.names.fTrimReads), TrimStage)
  {
    if !r.fs.Exists(ctx.names.fTrimReads) {
      CallOutputs(ctx);
      CallStep(r, TrimCall(ctx), env, '0', '1');
    }
  }

  lemma AlignPlanned(ctx: Context, role: Role, r: Run, env: Env)
    requires Layout(ctx.names) && r.error.None? && AlignStep(ctx, role, r, env).error.None?
    ensures var r' := AlignStep(ctx, role, r, env);
      && Untouched(r.fs, r'.fs, '1', '2')
      && Kinds(r'.events) == Kinds(r.events) + If(!r.fs.Exists(BamOf(ctx.names, role)), AlignStage(role))
  {
    if !r.fs.Exists(BamOf(ctx.names, role)) {
      CallOutputs(ctx);
      CallStep(r, AlignCall(ctx, role), env, '1', '2');
    }
  }

  /** After an alignment the BAM files that exist are the earlier ones and, outside a dry run, its own. */
  lemma AlignWrites(ctx: Context, role: Role, r: Run, env: Env, p: Path)
    requires r.error.None? && AlignStep(ctx, role, r, env).error.None?
    ensures AlignStep(ctx, role, r, env).fs.Exists(p) <==>
      r.fs.Exists(p) || (!env.dryRun && !r.fs.Exists(BamOf(ctx.names, role)) && p == BamOf(ctx.names, role))
  {
    var bam := BamOf(ctx.names, role);
    if !r.fs.Exists(bam) {
      var c := AlignCall(ctx, role);
      assert c.Success?;
      assert Outputs(c.value) == [bam];
    }
  }

  lemma FilterPlanned(ctx: Context, r: Run, env: Env)
    requires Layout(ctx.names) && r.error.None? && FilterStep(ctx, r, env).error.None?
    ensures var r' := FilterStep(ctx, r, env);
      && Untouched(r.fs, r'.fs, '2', '3')
      && Kinds(r'.events) == Kinds(r.events) + [FilterStage]
      && (!env.dryRun ==> r'.fs.Exists(ctx.names.filterBam))
  {
    CallOutputs(ctx);
    CallStep(r, FilterCall(ctx), env, '2', '3');
  }

  /** The front stages when the filtered BAM is absent: each step in turn, on the state the previous one left. */
  lemma FrontRan(ctx: Context, r: Run, r1: Run, r2: Run, r3: Run, r4: Run, env: Env)
    requires Layout(ctx.names) && r.error.None? && !r.fs.Exists(ctx.names.filterBam)
    requires r1 == TrimStep(ctx, r, env) && r2 == AlignStep(ctx, Target, r1, env)
    requires r3 == AlignStep(ctx, Contam, r2, env) && r4 == FilterStep(ctx, r3, env)
    requires r4.error.None?
    ensures Untouched(r.fs, r4.fs, '0', '3')
    ensures Kinds(r4.events) == Kinds(r.events) + FrontPlan(ctx.names, r.fs, env)
    ensures !env.dryRun ==> r4.fs.Exists(ctx.names.filterBam)
  {
    var n := ctx.names;
    assert r3.error.None? && r2.error.None? && r1.error.None?;
    TrimPlanned(ctx, r, env);
    AlignPlanned(ctx, Target, r1, env);
    AlignPlanned(ctx, Contam, r2, env);
    AlignWrites(ctx, Target, r1, env, n.contamBam);
    assert Keeps(r.fs, r1.fs, n.targetBam) && Keeps(r.fs, r1.fs, n.contamBam);
    FilterPlanned(ctx, r3, env);
    UntouchedTrans(r.fs, r1.fs, r2.fs, '0', '1', '1', '2');
    UntouchedTrans(r.fs, r2.fs, r3.fs, '0', '2', '1', '2');
    UntouchedTrans(r.fs, r3.fs, r4.fs, '0', '2', '2', '3');
    var trim := If(!r.fs.Exists(n.fTrimReads), TrimStage);
    var target := If(!r.fs.Exists(n.targetBam), AlignStage(Target));
    var contam := If(!r.fs.Exists(n.contamBam) && (env.dryRun || n.contamBam != n.targetBam), AlignStage(Contam));
    assert If(!r2.fs.Exists(n.contamBam), AlignStage(Contam)) == contam;
    Chain4(Kinds(r.events), Kinds(r1.events), Kinds(r2.events), Kinds(r3.events), Kinds(r4.events),
           trim, target, contam, [FilterStage]);
  }

  lemma FrontPlanned(ctx: Context, r: Run, env: Env)
    requires Layout(ctx.names) && r.error.None?
    requires FrontStages(ctx, r, env).error.None?
    ensures var r' := FrontStages(ctx, r, env);
      && Untouched(r.fs, r'.fs, '0', '3')
      && Kinds(r'.events) == Kinds(r.events) + FrontPlan(ctx.names, r.fs, env)
      && (!env.dryRun ==> r'.fs.Exists(ctx.names.filterBam))
  {
    if !r.fs.Exists(ctx.names.filterBam) {
      var r1 := TrimStep(ctx, r, env);
      var r2 := AlignStep(ctx, Target, r1, env);
      var r3 := AlignStep(ctx, Contam, r2, env);
      FrontRan(ctx, r, r1, r2, r3, FilterStep(ctx, r3, env), env);
    } else {
      assert FrontPlan(ctx.names, r.fs, env) == [];
      assert Kinds(r.events) + [] == Kinds(r.events);
    }
  }

  lemma BedPlanned(ctx: Context, r: Run, env: Env)
    requires Layout(ctx.names) && r.error.None? && BedStep(ctx, r, env).error.None?
    ensures var r' := BedStep(ctx, r, env);
      var bed := ctx.names.posBed;
      && Untouched(r.fs, r'.fs, '3', '4')
      && Kinds(r'.events) == Kinds(r.events) + If(!r.fs.Exists(bed), BedStage)
      && (!env.dryRun ==> r'.fs.Exists(bed) && r'.fs.sizes[bed] == BedSize(ctx.names, r.fs, env))
  {
    if !r.fs.Exists(ctx.names.posBed) {
      CallOutputs(ctx);
      CallStep(r, BedCall(ctx), env, '3', '4');
    }
  }

  lemma RegionPlanned(ctx: Context, r: Run, env: Env)
    requires Layout(ctx.names) && r.error.None? && RegionStep(ctx, r, env).error.None?
    ensures var r' := RegionStep(ctx, r, env);
      var bed := ctx.names.posBed;
      && Untouched(r.fs, r'.fs, '4', '5')
      && Kinds(r'.events) == Kinds(r.events)
           + If(!r.fs.Exists(ctx.names.regTsv) && (env.dryRun || (r.fs.Exists(bed) && r.fs.sizes[bed] != 0)), RegionStage)
      && (!env.dryRun && r.fs.Exists(bed) && r.fs.sizes[bed] != 0 ==> r'.fs.Exists(ctx.names.regTsv))
  {
    var bed := ctx.names.posBed;
    if (env.dryRun || r.fs.sizes[bed] != 0) && !r.fs.Exists(ctx.names.regTsv) {
      CallOutputs(ctx);
      CallStep(r, RegionCall(ctx), env, '4', '5');
    }
  }

  lemma StatsPlanned(ctx: Context, r: Run, env: Env)
    requires Layout(ctx.names) && r.error.None?
    ensures var r' := StatsStep(ctx, r, env);
      && Untouched(r.fs, r'.fs, '5', '6')
      && Kinds(r'.events) == Kinds(r.events) + If(!r.fs.Exists(ctx.names.statFile), StatsStage)
      && (!env.dryRun ==> r'.fs.Exists(ctx.names.statFile))
      && r'.error.None?
  {
    var n := ctx.names;
    if !r.fs.Exists(n.statFile) {
      CallStep(r, Success(Stats(n.caLog, n.filterLog, n.posBed, n.statFile)), env, '5', '6');
    }
  }

  lemma RepExplPlanned(ctx: Context, r: Run, env: Env)
    requires Layout(ctx.names) && r.error.None? && RepExplStep(ctx, r, env).error.None?
    ensures var r' := RepExplStep(ctx, r, env);
      && Untouched(r.fs, r'.fs, '6', '7')
      && Kinds(r'.events) == Kinds(r.events) + If(RepExplWanted(ctx) && !r.fs.Exists(ctx.names.repexplFasta), RepExplStage)
      && "fastq_repexpl" in ctx.conf
      && (!env.dryRun && RepExplWanted(ctx) ==> r'.fs.Exists(ctx.names.repexplFasta))
  {
    var n := ctx.names;
    if RepExplWanted(ctx) && !r.fs.Exists(n.repexplFasta) {
      CallStep(r, Success(RepExpl(n.fTrimReads, n.rTrimReads.value, n.repexplFasta)), env, '6', '7');
    }
  }

  lemma Chain4<T>(k0: seq<T>, k1: seq<T>, k2: seq<T>, k3: seq<T>, k4: seq<T>, a: seq<T>, b: seq<T>, c: seq<T>, d: seq<T>)
    requires k1 == k0 + a && k2 == k1 + b && k3 == k2 + c && k4 == k3 + d
    ensures k4 == k0 + (a + b + c + d)
  {
  }

  lemma Chain<T>(k0: seq<T>, k1: seq<T>, k2: seq<T>, k3: seq<T>, k4: seq<T>, k5: seq<T>,
                 a: seq<T>, b: seq<T>, c: seq<T>, d: seq<T>, e: seq<T>)
    requires k1 == k0 + a && k2 == k1 + b && k3 == k2 + c && k4 == k3 + d && k5 == k4 + e
    ensures k5 == k0 + (a + b + c + d + e)
  {
  }

  /** The plan put together from what the single stages do, each on the state the previous one left. */
  lemma ComposePlan(ctx: Context, fs0: FileSystem, fs1: FileSystem, fs2: FileSystem, fs3: FileSystem, fs4: FileSystem,
                    k0: seq<Stage>, k1: seq<Stage>, k2: seq<Stage>, k3: seq<Stage>, k4: seq<Stage>, k5: seq<Stage>, env: Env)
    requires Layout(ctx.names)
    requires Untouched(fs0, fs1, '0', '3') && Untouched(fs1, fs2, '3', '4')
    requires Untouched(fs2, fs3, '4', '5') && Untouched(fs3, fs4, '5', '6')
    requires k1 == k0 + FrontPlan(ctx.names, fs0, env)
    requires k2 == k1 + If(!fs1.Exists(ctx.names.posBed), BedStage)
    requires !env.dryRun ==> fs2.Exists(ctx.names.posBed) && fs2.sizes[ctx.names.posBed] == BedSize(ctx.names, fs1, env)
    requires k3 == k2 + If(!fs2.Exists(ctx.names.regTsv) && (env.dryRun ||
                             (fs2.Exists(ctx.names.posBed) && fs2.sizes[ctx.names.posBed] != 0)), RegionStage)
    requires k4 == k3 + If(!fs3.Exists(ctx.names.statFile), StatsStage)
    requires k5 == k4 + If(RepExplWanted(ctx) && !fs4.Exists(ctx.names.repexplFasta), RepExplStage)
    ensures k5 == k0 + Plan(ctx, fs0, env)
  {
    var n := ctx.names;
    assert Keeps(fs0, fs1, n.posBed);
    assert BedSize(n, fs1, env) == BedSize(n, fs0, env);
    UntouchedTrans(fs0, fs1, fs2, '0', '3', '3', '4');
    UntouchedTrans(fs0, fs2, fs3, '0', '4', '4', '5');
    UntouchedTrans(fs0, fs3, fs4, '0', '5', '5', '6');
    assert Keeps(fs0, fs2, n.regTsv);
    assert Keeps(fs0, fs3, n.statFile);
    assert Keeps(fs0, fs4, n.repexplFasta);
    var bed := If(!fs0.Exists(n.posBed), BedStage);
    var region := If(!fs0.Exists(n.regTsv) && (env.dryRun || BedSize(n, fs0, env) != 0), RegionStage);
    var stats := If(!fs0.Exists(n.statFile), StatsStage);
    var repexpl := If(RepExplWanted(ctx) && !fs0.Exists(n.repexplFasta), RepExplStage);
    Chain(k0, k1, k2, k3, k4, k5, FrontPlan(n, fs0, env), bed, region, stats, repexpl);
  }

  /** The later stages, each on the state the previous one left. */
  lemma StagesRan(ctx: Context, r: Run, r1: Run, r2: Run, r3: Run, r4: Run, r5: Run, env: Env)
    requires Layout(ctx.names) && r.error.None?
    requires r1 == FrontStages(ctx, r, env) && r2 == BedStep(ctx, r1, env) && r3 == RegionStep(ctx, r2, env)
    requires r4 == StatsStep(ctx, r3, env) && r5 == RepExplStep(ctx, r4, env)
    requires r5.error.None?
    ensures Kinds(r5.events) == Kinds(r.events) + Plan(ctx, r.fs, env)
  {
    assert r4.error.None? && r3.error.None? && r2.error.None? && r1.error.None?;
    FrontPlanned(ctx, r, env);
    BedPlanned(ctx, r1, env);
    RegionPlanned(ctx, r2, env);
    StatsPlanned(ctx, r3, env);
    RepExplPlanned(ctx, r4, env);
    ComposePlan(ctx, r.fs, r1.fs, r2.fs, r3.fs, r4.fs,
                Kinds(r.events), Kinds(r1.events), Kinds(r2.events), Kinds(r3.events), Kinds(r4.events), Kinds(r5.events), env);
  }

  /**
   * Resumption: on a run that ends without an exception, the stages the
   * sample invokes are exactly the planned ones, decided from the files
   * that existed before its first stage.
   */
  lemma PlannedStages(ctx: Context, r: Run, env: Env)
    requires Layout(ctx.names) && r.error.None?
    requires Stages(ctx, r, env).error.None?
    ensures Kinds(Stages(ctx, r, env).events) == Kinds(r.events) + Plan(ctx, r.fs, env)
  {
    var r1 := FrontStages(ctx, r, env);
    var r2 := BedStep(ctx, r1, env);
    var r3 := RegionStep(ctx, r2, env);
    var r4 := StatsStep(ctx, r3, env);
    StagesRan(ctx, r, r1, r2, r3, r4, RepExplStep(ctx, r4, env), env);
  }

  /** What the later stages leave behind outside a dry run, each on the state the previous one left. */
  lemma StagesLeft(ctx: Context, r: Run, r1: Run, r2: Run, r3: Run, r4: Run, r5: Run, env: Env)
    requires Layout(ctx.names) && r.error.None? && !env.dryRun
    requires r1 == FrontStages(ctx, r, env) && r2 == BedStep(ctx, r1, env) && r3 == RegionStep(ctx, r2, env)
    requires r4 == StatsStep(ctx, r3, env) && r5 == RepExplStep(ctx, r4, env)
    requires r5.error.None?
    ensures var n := ctx.names;
      && r5.fs.Exists(n.filterBam) && r5.fs.Exists(n.posBed) && r5.fs.Exists(n.statFile)
      && (r5.fs.sizes[n.posBed] == 0 || r5.fs.Exists(n.regTsv))
      && "fastq_repexpl" in ctx.conf
      && (RepExplWanted(ctx) ==> r5.fs.Exists(n.repexplFasta))
  {
    var n := ctx.names;
    assert r4.error.None? && r3.error.None? && r2.error.None? && r1.error.None?;
    FrontPlanned(ctx, r, env);
    BedPlanned(ctx, r1, env);
    RegionPlanned(ctx, r2, env);
    StatsPlanned(ctx, r3, env);
    RepExplPlanned(ctx, r4, env);
    UntouchedTrans(r4.fs, r4.fs, r5.fs, '6', '6', '6', '7');
    UntouchedTrans(r3.fs, r4.fs, r5.fs, '5', '6', '6', '7');
    UntouchedTrans(r2.fs, r3.fs, r5.fs, '4', '5', '5', '7');
    UntouchedTrans(r1.fs, r2.fs, r5.fs, '3', '4', '4', '7');
    assert Keeps(r1.fs, r5.fs, n.filterBam);
    assert Keeps(r2.fs, r5.fs, n.posBed);
    assert Keeps(r3.fs, r5.fs, n.regTsv);
    assert Keeps(r4.fs, r5.fs, n.statFile);
  }

  /**
   * Outside a dry run, a sample whose stages end without an exception
   * leaves its filtered BAM, its BED file, its statistics, its region
   * table unless the BED file is empty, and its RepeatExplorer FASTA when
   * that was asked for with paired reads.
   */
  lemma StagesLeaveOutputs(ctx: Context, r: Run, env: Env)
    requires Layout(ctx.names) && r.error.None? && !env.dryRun
    requires Stages(ctx, r, env).error.None?
    ensures var fs := Stages(ctx, r, env).fs;
      var n := ctx.names;
      && fs.Exists(n.filterBam) && fs.Exists(n.posBed) && fs.Exists(n.statFile)
      && (fs.sizes[n.posBed] == 0 || fs.Exists(n.regTsv))
      && (RepExplWanted(ctx) ==> fs.Exists(n.repexplFasta))
  {
    var r1 := FrontStages(ctx, r, env);
    var r2 := BedStep(ctx, r1, env);
    var r3 := RegionStep(ctx, r2, env);
    var r4 := StatsStep(ctx, r3, env);
    StagesLeft(ctx, r, r1, r2, r3, r4, RepExplStep(ctx, r4, env), env);
  }

  /**
   * Resuming a completed sample does nothing: running its stages again on
   * the state a successful run left invokes no tool and changes no file.
   */
  lemma CompleteRerunIsNoOp(ctx: Context, r: Run, env: Env)
    requires Layout(ctx.names) && r.error.None? && !env.dryRun
    requires Stages(ctx, r, env).error.None?
    ensures Stages(ctx, Stages(ctx, r, env), env) == Stages(ctx, r, env)
  {
    var r1 := FrontStages(ctx, r, env);
    var r2 := BedStep(ctx, r1, env);
    var r3 := RegionStep(ctx, r2, env);
    var r4 := StatsStep(ctx, r3, env);
    StagesLeft(ctx, r, r1, r2, r3, r4, RepExplStep(ctx, r4, env), env);
  }

  /** In a dry run the front stages leave every file as it was. */
  lemma DryRunFrontLeavesFiles(ctx: Context, r: Run, env: Env)
    requires env.dryRun
    ensures FrontStages(ctx, r, env).fs == r.fs
  {
    if r.error.None? && !r.fs.Exists(ctx.names.filterBam) {
      var r1 := TrimStep(ctx, r, env);
      var r2 := AlignStep(ctx, Target, r1, env);
      var r3 := AlignStep(ctx, Contam, r2, env);
      assert r1.fs == r.fs && r2.fs == r.fs && r3.fs == r.fs;
    }
  }

  /** A dry run lists the tool calls and leaves every file as it was. */
  lemma DryRunStagesLeaveFiles(ctx: Context, r: Run, env: Env)
    requires env.dryRun
    ensures Stages(ctx, r, env).fs == r.fs
  {
    var r1 := FrontStages(ctx, r, env);
    DryRunFrontLeavesFiles(ctx, r, env);
    var r2 := BedStep(ctx, r1, env);
    var r3 := RegionStep(ctx, r2, env);
    var r4 := StatsStep(ctx, r3, env);
    assert r2.fs == r.fs && r3.fs == r.fs && r4.fs == r.fs;
  }

  /** The lookups before a tool call never fail on a file size. */
  lemma CallsNeverMeasure(ctx: Context, role: Role)
    ensures TrimCall(ctx).Failure? ==> !TrimCall(ctx).error.StatFailed?
    ensures AlignCall(ctx, role).Failure? ==> !AlignCall(ctx, role).error.StatFailed?
    ensures FilterCall(ctx).Failure? ==> !FilterCall(ctx).error.StatFailed?
    ensures BedCall(ctx).Failure? ==> !BedCall(ctx).error.StatFailed?
    ensures RegionCall(ctx).Failure? ==> !RegionCall(ctx).error.StatFailed?
  {
  }

  lemma FrontNeverMeasures(ctx: Context, r: Run, env: Env)
    ensures var r' := FrontStages(ctx, r, env);
      r'.error.Some? && r'.error.value.StatFailed? ==> r'.error == r.error
  {
    CallsNeverMeasure(ctx, Target);
    CallsNeverMeasure(ctx, Contam);
  }

  /**
   * The BED file is always there to be measured: outside a dry run it
   * exists once its stage has passed, so the size lookup never fails.
   */
  lemma BedSizeAlwaysKnown(ctx: Context, r: Run, env: Env)
    ensures var r' := Stages(ctx, r, env);
      r'.error.Some? && r'.error.value.StatFailed? ==> r.error == r'.error
  {
    var r1 := FrontStages(ctx, r, env);
    FrontNeverMeasures(ctx, r, env);
    BedThenRegionMeasure(ctx, r, r1, env);
  }

  /** The BED stage leaves the BED file in place for the region stage, which therefore finds it. */
  lemma BedThenRegionMeasure(ctx: Context, r0: Run, r1: Run, env: Env)
    requires r1.error.Some? && r1.error.value.StatFailed? ==> r1.error == r0.error
    ensures var r3 := RegionStep(ctx, BedStep(ctx, r1, env), env);
      r3.error.Some? && r3.error.value.StatFailed? ==> r3.error == r0.error
  {
    var r2 := BedStep(ctx, r1, env);
    CallsNeverMeasure(ctx, Target);
    if r1.error.None? && !r1.fs.Exists(ctx.names.posBed) && !env.dryRun && BedCall(ctx).Success? {
      assert Outputs(BedCall(ctx).value) == [ctx.names.posBed];
      assert r2.fs.Exists(ctx.names.posBed);
    }
    assert r2.error.Some? && r2.error.value.StatFailed? ==> r2.error == r0.error;
  }

  // ---------------------------------------------------------------------
  // The driver: defaults, then one pass per sample

  /** A sample of the `samples` table, in the table's order. */
  datatype Sample = Sample(name: string, conf: Conf)

  /** The loaded configuration: the options, and the `samples` table when there is one. */
  datatype Document = Document(options: Conf, samples: Option<seq<Sample>>)

  /** The defaults of the run and its samples; a missing target genome or samples table ends the run. */
  function Begin(doc: Document): (r: Result<(Conf, seq<Sample>), Error>)
    ensures r.Success? <==> Defaulted(doc.options).Success? && doc.samples.Some?
    ensures r.Success? ==> r.value == (Defaulted(doc.options).value, doc.samples.value)
    ensures doc.samples.None? && Defaulted(doc.options).Success? ==> r == Failure(KeyError("samples"))
  {
    var defaults :- Defaulted(doc.options);
    if doc.samples.None? then Failure(KeyError("samples")) else Success((defaults, doc.samples.value))
  }

  /**
   * One pass of the per-sample loop, with the file names taken from
   * `namesConf`: the sample's directory, the preparation, then the stages.
   * It also returns the configuration the loop holds afterwards. Outside a
   * dry run the directory is created unless it exists; a regular file of
   * that name makes the creation fail.
   */
  function Pass(s: Sample, namesConf: Conf, defaults: Conf, r: Run, env: Env): (Run, Conf)
  {
    if !env.dryRun && r.fs.Exists(s.name) then (r.(error := Some(MkdirFailed(s.name))), namesConf)
    else
      match Prepare(s.name, namesConf, defaults, s.conf, r.fs, env.executables)
      case Failure(e) => (r.(error := Some(e)), namesConf)
      case Success(ctx) => (Stages(ctx, r, env), ctx.conf)
  }

  /** The loop as written: each pass names its files after the configuration the previous pass left. */
  function PassesAsWritten(samples: seq<Sample>, cur: Conf, defaults: Conf, r: Run, env: Env): Run
    decreases |samples|
  {
    if |samples| == 0 || r.error.Some? then r
    else
      var (r', cur') := Pass(samples[0], cur, defaults, r, env);
      PassesAsWritten(samples[1..], cur', defaults, r', env)
  }

  /** The loop with each pass naming its files after the sample's own effective configuration. */
  function Passes(samples: seq<Sample>, defaults: Conf, r: Run, env: Env): Run
    decreases |samples|
  {
    if |samples| == 0 || r.error.Some? then r
    else Passes(samples[1..], defaults, Pass(samples[0], EffectiveConfig(defaults, samples[0].conf), defaults, r, env).0, env)
  }

  function PipelineAsWritten(doc: Document, fs: FileSystem, env: Env): Run
  {
    match Begin(doc)
    case Failure(e) => Run(fs, [], Some(e))
    case Success((defaults, samples)) => PassesAsWritten(samples, defaults, defaults, Run(fs, [], None), env)
  }

  /** The whole run: the defaults, then every sample in turn until the first exception. */
  function Pipeline(doc: Document, fs: FileSystem, env: Env): Run
  {
    match Begin(doc)
    case Failure(e) => Run(fs, [], Some(e))
    case Success((defaults, samples)) => Passes(samples, defaults, Run(fs, [], None), env)
  }

  /** A successful preparation yields file names in the numbered directories. */
  lemma PreparedLayout(sample: string, namesConf: Conf, defaults: Conf, sampleConf: Conf,
                       fs: FileSystem, executables: set<string>)
    requires Prepare(sample, namesConf, defaults, sampleConf, fs, executables).Success?
    ensures Layout(Prepare(sample, namesConf, defaults, sampleConf, fs, executables).value.names)
  {
    GeneratedLayout(sample, namesConf["target_genome"].s, namesConf["contam_genome"].s);
  }

  /**
   * The aligner is resolved before any stage of the sample: when the
   * sample's configuration names no valid aligner (or lacks its program or
   * arguments) the pass ends the run with nothing invoked and no file
   * written.
   */
  lemma AlignerCheckedBeforeStages(s: Sample, namesConf: Conf, defaults: Conf, r: Run, env: Env)
    requires ResolveAligner(WithToolDefaults(EffectiveConfig(defaults, s.conf))).Failure?
    ensures var r' := Pass(s, namesConf, defaults, r, env).0;
      r'.error.Some? && r'.events == r.events && r'.fs == r.fs
  {
    var named := SampleNames(s.name, namesConf, s.conf);
    if named.Success? && "fastq_R_file" !in s.conf {
      EffectiveIgnoresReadFiles(defaults, s.conf, "fastq_R_file", Null);
    }
  }

  /** The RepeatExplorer stage is never planned for single-end reads. */
  lemma SingleEndSkipsRepExpl(ctx: Context, fs: FileSystem, env: Env)
    requires ctx.names.rTrimReads.None?
    ensures RepExplStage !in Plan(ctx, fs, env)
  {
  }

  /**
   * Outside a dry run an empty BED file skips region segmentation, while
   * the statistics stage is still decided by its own file.
   */
  lemma EmptyBedSkipsRegions(ctx: Context, fs: FileSystem, env: Env)
    requires !env.dryRun && BedSize(ctx.names, fs, env) == 0
    ensures RegionStage !in Plan(ctx, fs, env)
    ensures StatsStage in Plan(ctx, fs, env) <==> !fs.Exists(ctx.names.statFile)
  {
  }

  /** A present filtered BAM skips trimming, both alignments and the filter; an absent one always runs the filter. */
  lemma FilterBamSkipsFront(ctx: Context, fs: FileSystem, env: Env)
    ensures FilterStage in Plan(ctx, fs, env) <==> !fs.Exists(ctx.names.filterBam)
    ensures fs.Exists(ctx.names.filterBam) ==>
      TrimStage !in Plan(ctx, fs, env) && AlignStage(Target) !in Plan(ctx, fs, env) && AlignStage(Contam) !in Plan(ctx, fs, env)
  {
  }

  lemma {:induction false} DryRunPassesLeaveFiles(samples: seq<Sample>, defaults: Conf, r: Run, env: Env)
    requires env.dryRun
    ensures Passes(samples, defaults, r, env).fs == r.fs
    decreases |samples|
  {
    if |samples| > 0 && r.error.None? {
      var s := samples[0];
      var r' := Pass(s, EffectiveConfig(defaults, s.conf), defaults, r, env).0;
      var prepared := Prepare(s.name, EffectiveConfig(defaults, s.conf), defaults, s.conf, r.fs, env.executables);
      if prepared.Success? {
        DryRunStagesLeaveFiles(prepared.value, r, env);
      }
      assert r'.fs == r.fs;
      DryRunPassesLeaveFiles(samples[1..], defaults, r', env);
    }
  }

  /** A dry run of the whole pipeline leaves every file as it was. */
  lemma DryRunLeavesFiles(doc: Document, fs: FileSystem, env: Env)
    requires env.dryRun
    ensures Pipeline(doc, fs, env).fs == fs
  {
    if Begin(doc).Success? {
      DryRunPassesLeaveFiles(Begin(doc).value.1, Begin(doc).value.0, Run(fs, [], None), env);
    }
  }

  /** One pass of a dry run leaves every file as it was, whichever configuration names its files. */
  lemma DryRunPassLeavesFiles(s: Sample, namesConf: Conf, defaults: Conf, r: Run, env: Env)
    requires env.dryRun
    ensures Pass(s, namesConf, defaults, r, env).0.fs == r.fs
  {
    var prepared := Prepare(s.name, namesConf, defaults, s.conf, r.fs, env.executables);
    if prepared.Success? {
      DryRunStagesLeaveFiles(prepared.value, r, env);
    }
  }

  lemma {:induction false} DryRunPassesAsWrittenLeaveFiles(samples: seq<Sample>, cur: Conf, defaults: Conf, r: Run, env: Env)
    requires env.dryRun
    ensures PassesAsWritten(samples, cur, defaults, r, env).fs == r.fs
    decreases |samples|
  {
    if |samples| > 0 && r.error.None? {
      var (r', cur') := Pass(samples[0], cur, defaults, r, env);
      DryRunPassLeavesFiles(samples[0], cur, defaults, r, env);
      DryRunPassesAsWrittenLeaveFiles(samples[1..], cur', defaults, r', env);
    }
  }

  /** A dry run of the driver as written leaves every file as it was. */
  lemma DryRunAsWrittenLeavesFiles(doc: Document, fs: FileSystem, env: Env)
    requires env.dryRun
    ensures PipelineAsWritten(doc, fs, env).fs == fs
  {
    if Begin(doc).Success? {
      var (defaults, samples) := Begin(doc).value;
      DryRunPassesAsWrittenLeaveFiles(samples, defaults, defaults, Run(fs, [], None), env);
    }
  }

  /** `c1` and `c2` agree on whether they hold `key` and on its value. */
  predicate SameEntry(c1: Conf, c2: Conf, key: string)
  {
    (key in c1 <==> key in c2) && (key in c1 ==> c1[key] == c2[key])
  }

  /** `c1` and `c2` name the same two genomes. */
  predicate SameGenomes(c1: Conf, c2: Conf)
  {
    SameEntry(c1, c2, "target_genome") && SameEntry(c1, c2, "contam_genome")
  }

  /** A sample that sets neither genome of its own. */
  predicate KeepsGenomes(s: Sample)
  {
    "target_genome" !in s.conf && "contam_genome" !in s.conf
  }

  /** The preparation reads nothing of the naming configuration but its two genomes. */
  lemma PrepareNamesFromGenomes(sample: string, c1: Conf, c2: Conf, defaults: Conf, sampleConf: Conf,
                                fs: FileSystem, executables: set<string>)
    requires SameGenomes(c1, c2)
    ensures Prepare(sample, c1, defaults, sampleConf, fs, executables)
         == Prepare(sample, c2, defaults, sampleConf, fs, executables)
  {
    assert SampleNames(sample, c1, sampleConf) == SampleNames(sample, c2, sampleConf);
  }

  /**
   * A pass of a sample that keeps the global genomes leaves a configuration
   * with the global genomes, and names its files as the corrected pass does.
   */
  lemma PassKeepsGenomes(s: Sample, cur: Conf, defaults: Conf, r: Run, env: Env)
    requires KeepsGenomes(s) && SameGenomes(cur, defaults)
    ensures Pass(s, cur, defaults, r, env).0 == Pass(s, EffectiveConfig(defaults, s.conf), defaults, r, env).0
    ensures SameGenomes(Pass(s, cur, defaults, r, env).1, defaults)
  {
    var own := EffectiveConfig(defaults, s.conf);
    assert SameGenomes(own, cur);
    PrepareNamesFromGenomes(s.name, cur, own, defaults, s.conf, r.fs, env.executables);
    var prepared := Prepare(s.name, cur, defaults, s.conf, r.fs, env.executables);
    if prepared.Success? {
      var sc := prepared.value.sampleConf;
      assert "target_genome" !in sc && "contam_genome" !in sc;
      assert SameGenomes(WithToolDefaults(EffectiveConfig(defaults, sc)), defaults);
    }
  }

  /**
   * When no sample sets a genome of its own, the loop as written and the
   * corrected loop do the same run: the stale configuration a pass inherits
   * names the same genomes as the sample's own.
   */
  lemma {:induction false} AsWrittenPassesAgree(samples: seq<Sample>, cur: Conf, defaults: Conf, r: Run, env: Env)
    requires SameGenomes(cur, defaults)
    requires forall i :: 0 <= i < |samples| ==> KeepsGenomes(samples[i])
    ensures PassesAsWritten(samples, cur, defaults, r, env) == Passes(samples, defaults, r, env)
    decreases |samples|
  {
    if |samples| > 0 && r.error.None? {
      var (r', cur') := Pass(samples[0], cur, defaults, r, env);
      PassKeepsGenomes(samples[0], cur, defaults, r, env);
      assert forall i :: 0 <= i < |samples[1..]| ==> KeepsGenomes(samples[1..][i]) by {
        forall i | 0 <= i < |samples[1..]| ensures KeepsGenomes(samples[1..][i]) {
          assert samples[1..][i] == samples[i + 1];
        }
      }
      AsWrittenPassesAgree(samples[1..], cur', defaults, r', env);
    }
  }

  /** Without per-sample genomes the driver as written does what the corrected driver does. */
  lemma AsWrittenAgreesWithoutGenomeOverrides(doc: Document, fs: FileSystem, env: Env)
    requires doc.samples.Some? ==> forall i :: 0 <= i < |doc.samples.value| ==> KeepsGenomes(doc.samples.value[i])
    ensures PipelineAsWritten(doc, fs, env) == Pipeline(doc, fs, env)
  {
    if Begin(doc).Success? {
      var (defaults, samples) := Begin(doc).value;
      AsWrittenPassesAgree(samples, defaults, defaults, Run(fs, [], None), env);
    }
  }

  // ---------------------------------------------------------------------
  // The driver as statements

  /** Trimming, the two alignments and the filter, skipped as a block when the filtered BAM exists. */
  method RunFrontStages(ctx: Context, r0: Run, env: Env) returns (r: Run)
    requires r0.error.None?
    ensures r == FrontStages(ctx, r0, env)
  {
    var n := ctx.names;
    r := r0;
    if r.fs.Exists(n.filterBam) {
      return;
    }
    if !r.fs.Exists(n.fTrimReads) {
      r := Call(r, TrimCall(ctx), env);
      if r.error.Some? { return; }
    }
    if !r.fs.Exists(n.targetBam) {
      r := Call(r, AlignCall(ctx, Target), env);
      if r.error.Some? { return; }
    }
    if !r.fs.Exists(n.contamBam) {
      r := Call(r, AlignCall(ctx, Contam), env);
      if r.error.Some? { return; }
    }
    r := Call(r, FilterCall(ctx), env);
  }

  /** Region segmentation after the BED file is known: skipped when empty outside a dry run. */
  method RunRegionStage(ctx: Context, r0: Run, env: Env) returns (r: Run)
    requires r0.error.None?
    ensures r == RegionStep(ctx, r0, env)
  {
    var n := ctx.names;
    r := r0;
    if !env.dryRun && !r.fs.Exists(n.posBed) {
      r := r.(error := Some(StatFailed(n.posBed)));
    } else if env.dryRun || r.fs.sizes[n.posBed] != 0 {
      if !r.fs.Exists(n.regTsv) {
        r := Call(r, RegionCall(ctx), env);
      }
    }
  }

  /** The stages of one sample, step by step, each skipped when its output exists. */
  method RunStages(ctx: Context, r0: Run, env: Env) returns (r: Run)
    requires r0.error.None?
    ensures r == Stages(ctx, r0, env)
  {
    var n := ctx.names;
    r := RunFrontStages(ctx, r0, env);
    if r.error.Some? { return; }
    if !r.fs.Exists(n.posBed) {
      r := Call(r, BedCall(ctx), env);
      if r.error.Some? { return; }
    }
    r := RunRegionStage(ctx, r, env);
    if r.error.Some? { return; }
    if !r.fs.Exists(n.statFile) {
      r := Invoke(r, Stats(n.caLog, n.filterLog, n.posBed, n.statFile), env);
    }
    if "fastq_repexpl" !in ctx.conf {
      r := r.(error := Some(KeyError("fastq_repexpl")));
      return;
    }
    if Truthy(ctx.conf["fastq_repexpl"]) && n.rTrimReads.Some? && !r.fs.Exists(n.repexplFasta) {
      r := Invoke(r, RepExpl(n.fTrimReads, n.rTrimReads.value, n.repexplFasta), env);
    }
  }

  /** The checks before a sample's stages, with the reset and override done key by key. */
  method PrepareSample(sample: string, namesConf: Conf, defaults: Conf, sampleConf: Conf,
                       fs: FileSystem, executables: set<string>) returns (res: Result<Context, Error>)
    ensures res == Prepare(sample, namesConf, defaults, sampleConf, fs, executables)
  {
    var named := SampleNames(sample, namesConf, sampleConf);
    if named.Failure? {
      return Failure(named.error);
    }
    var (names, sc) := named.value;
    var conf := ResetAndOverride(defaults, sc);
    var checked := CheckInputs(sc, conf, fs);
    if checked.Failure? {
      return Failure(checked.error);
    }
    var tools := CheckTools(conf, executables);
    if tools.Failure? {
      return Failure(tools.error);
    }
    var (conf', alignerPath, alignerArgs) := tools.value;
    return Success(Context(sample, names, sc, conf', alignerPath, alignerArgs));
  }

  /** The defaults filled into the options in place, one missing key at a time. */
  method FillDefaults(options: Conf) returns (res: Result<Conf, Error>)
    ensures res == Defaulted(options)
  {
    var conf := options;
    if "contam_genome" !in conf {
      if "target_genome" !in conf {
        return Failure(KeyError("target_genome"));
      }
      conf := conf["contam_genome" := conf["target_genome"]];
    }
    conf := FillRest(conf);
    return Success(conf);
  }

  method FillRest(c: Conf) returns (conf: Conf)
    ensures conf == DefaultRest(c)
  {
    conf := c;
    if "bowtie2_path" !in conf {
      conf := conf["bowtie2_path" := Str("bowtie2")];
    }
    if "bwa_path" !in conf {
      conf := conf["bwa_path" := Str("bwa")];
    }
    if "plot_height" !in conf {
      conf := conf["plot_height" := Int(20)];
    }
    if "plot_width" !in conf {
      conf := conf["plot_width" := Int(20)];
    }
  }

  /**
   * One pass of the loop body: the sample's directory, the file names from
   * the configuration the loop holds, the reset and override, the checks,
   * then the stages.
   */
  method RunPass(s: Sample, cur: Conf, defaults: Conf, r0: Run, env: Env) returns (r: Run, cur': Conf)
    requires r0.error.None?
    ensures (r, cur') == Pass(s, cur, defaults, r0, env)
  {
    if !env.dryRun && r0.fs.Exists(s.name) {
      return r0.(error := Some(MkdirFailed(s.name))), cur;
    }
    var prepared := PrepareSample(s.name, cur, defaults, s.conf, r0.fs, env.executables);
    if prepared.Failure? {
      r, cur' := r0.(error := Some(prepared.error)), cur;
    } else {
      r := RunStages(prepared.value, r0, env);
      cur' := prepared.value.conf;
    }
  }

  /** The remaining passes after one more sample has been handled. */
  lemma PassesAsWrittenStep(samples: seq<Sample>, i: nat, cur: Conf, defaults: Conf, r: Run, env: Env,
                            r': Run, cur': Conf)
    requires i < |samples| && r.error.None?
    requires (r', cur') == Pass(samples[i], cur, defaults, r, env)
    ensures PassesAsWritten(samples[i..], cur, defaults, r, env) == PassesAsWritten(samples[i + 1..], cur', defaults, r', env)
  {
    assert samples[i..][0] == samples[i];
    assert samples[i..][1..] == samples[i + 1..];
  }

  /**
   * The driver: the defaults filled in place, a snapshot kept, then one
   * pass per sample until the first exception, each pass naming its files
   * after the configuration the previous pass left.
   */
  method RunPipeline(doc: Document, fs: FileSystem, env: Env) returns (r: Run)
    ensures r == PipelineAsWritten(doc, fs, env)
  {
    var filled := FillDefaults(doc.options);
    if filled.Failure? {
      return Run(fs, [], Some(filled.error));
    }
    var defaults := filled.value;
    if doc.samples.None? {
      return Run(fs, [], Some(KeyError("samples")));
    }
    var samples := doc.samples.value;
    assert Begin(doc) == Success((defaults, samples));
    r := RunPasses(samples, defaults, defaults, Run(fs, [], None), env);
  }

  /** The per-sample loop: one pass per sample until the first exception, the configuration carried along. */
  method RunPasses(samples: seq<Sample>, cur0: Conf, defaults: Conf, r0: Run, env: Env) returns (r: Run)
    ensures r == PassesAsWritten(samples, cur0, defaults, r0, env)
  {
    r := r0;
    var cur := cur0;
    var i := 0;
    while i < |samples| && r.error.None?
      invariant 0 <= i <= |samples|
      invariant PassesAsWritten(samples[i..], cur, defaults, r, env) == PassesAsWritten(samples, cur0, defaults, r0, env)
      decreases |samples| - i
    {
      var r', cur' := RunPass(samples[i], cur, defaults, r, env);
      PassesAsWrittenStep(samples, i, cur, defaults, r, env, r', cur');
      r, cur := r', cur';
      i := i + 1;
    }
  }
}
