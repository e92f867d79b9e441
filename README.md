# DOPseq pipeline drivers, modelled in Dafny

DOPseq_analyzer works out which chromosome regions a sample comes from. The input is sequencing reads from isolated chromosomes (DOP-PCR libraries). This project models the repository's two drivers. Each driver decides, one file at a time, which external tool to run next, with what arguments, and which steps to skip because their output already exists.

- **`dopseq/dopseq_pipeline.py`** is the current driver. It loads a configuration and fills in defaults: the contamination genome falls back to the target genome; the aligner programs fall back to `bowtie2` and `bwa`; the plot size falls back to 20 by 20. It then handles every sample of the `samples` table in turn.
  - It derives the sample's output file names with `generate_filenames`.
  - It resets the configuration to the defaults and applies the sample's overrides. Keys starting with `fastq_` are never overridden.
  - It checks the input files and executables, and picks the aligner.
  - It runs the stages in order: trimming, the two alignments, the contamination filter, BED conversion, region segmentation, statistics and the RepeatExplorer export. Each stage is skipped when its output file exists.
- **`pipeline/b_dopseq_pipe.py`** is the older driver. It reads a `key=value` file (`parse_config`). It then runs, in order: FASTQ to SAM/BAM, the contamination filter, BAM to BED, the per-chromosome statistics, the control plots and region segmentation. Each step again depends on which files exist.

Modules, one per concern of the source:

| file | module | models |
|---|---|---|
| `wrappers.dfy` | `Wrappers` | `Option`, `Result`, `Outcome` |
| `pystr.dfy` | `PyStr` | the Python `str` builtins the drivers use: `split`, `join`, `find`, slicing with a negative end, `strip`, `startswith` |
| `files.dfy` | `Files` | the working directory as a map from path to size, including `os.path.isfile` and `os.stat(..).st_size`; also `p.split('/')[-1]` |
| `dopseq_names.dfy` | `DopseqNames` | `generate_filenames` |
| `dopseq_config.dfy` | `DopseqConfig` | defaults, the per-sample reset and override, the aligner choice, the input and executable checks |
| `dopseq_pipeline.dfy` | `DopseqPipeline` | the stages, one pass per sample, and the driver loop |
| `bpipe_config.dfy` | `BPipeConfig` | `parse_config` |
| `bpipe.dfy` | `BPipe` | the `__main__` block of the older driver |

**How the world is represented.**
- **Tools.** A tool call is an `Invocation` value carrying the arguments the driver passes. A run records the list of calls it made.
- **Tool outputs.** Outside a dry run, a call creates the files the driver later looks for. Their sizes come from an oracle function.
- **Checks.** `utils.check_file` is modelled as "the path exists". `utils.check_exec` is modelled as membership in a set of executables.
- **Exceptions.** Every exception ends the run: a `KeyError`, the `ValueError` for an unknown aligner, a failed check, a `.split` on a value that is not a string (`NotText`), a `%d` on a value that is not a number (`NotNumber`), an `os.stat` of a missing file, an `os.mkdir` of a sample directory whose name is taken by a regular file, a failed `assert`, or a `parse_config` rejection. The run is then a `Run`/`BRun` value whose `error` is set.

**Behaviour of the code that the model keeps.**
- **No per-sample isolation.** The sample loop has no exception handling, so the first exception in any sample ends the whole run, and later samples are never processed (`DopseqPipeline.PassesAsWritten`).
- **Existence only.** A stage is skipped whenever its output file exists, whatever its size. A size is read in two places only: the empty BED file before region segmentation, and the empty target SAM file in the older driver.
- **Genome names in the older driver.** `dopseq_pipeline.py` takes as a genome's short name the part of its file name before the first '.', so `/ref/hg38.chr1.fa` gives `hg38` (`DopseqNames.ShortNameSpec`). The older driver keeps the whole last path segment, extension included (`BPipe.NamesSpec`).
- **The last line of the older driver's configuration.** `parse_config` cuts the text at `line.find('#')`. On a line without `#` that index is `-1`, so the slice drops the last character. That is normally the newline, but a final line without one loses a real character (`BPipeConfig.LastLineLosesCharacter`).

## Model

| member | source | states |
|---|---|---|
| `PyStr.Count` | pipeline/b_dopseq_pipe.py:37-42 | the number of separators is zero exactly when the separator does not occur, and at most the length |
| `PyStr.Split` | pipeline/b_dopseq_pipe.py:37 | `str.split(c)` gives one piece more than there are separators, and no piece contains the separator |
| `PyStr.JoinSplit` | pipeline/b_dopseq_pipe.py:62 | joining the pieces of a split with the same separator gives back the string |
| `PyStr.SplitJoin` | pipeline/b_dopseq_pipe.py:62 | splitting the join of separator-free pieces gives back the pieces |
| `PyStr.SplitFirst` | dopseq/dopseq_pipeline.py:48-49 | `split(c)[0]` is the prefix up to the first separator, or the whole string |
| `PyStr.SplitLast` | dopseq/dopseq_pipeline.py:48-49 | `split(c)[-1]` is the suffix after the last separator, or the whole string |
| `PyStr.SplitAppend` | pipeline/b_dopseq_pipe.py:37 | splitting `a + c + b` at `c` gives the pieces of `a` followed by the pieces of `b` |
| `PyStr.SplitNone` | pipeline/b_dopseq_pipe.py:37 | a string without the separator splits into itself alone |
| `PyStr.Find` | pipeline/b_dopseq_pipe.py:36 | `str.find(c)` is -1 exactly when `c` does not occur; otherwise it is the index of the first occurrence |
| `PyStr.StripLeft` | pipeline/b_dopseq_pipe.py:39 | `lstrip(c)` removes a prefix made only of `c`, leaving a result that does not start with `c` |
| `PyStr.StripRight` | pipeline/b_dopseq_pipe.py:39 | `rstrip(c)` removes a suffix made only of `c`, leaving a result that does not end with `c` |
| `PyStr.Strip` | pipeline/b_dopseq_pipe.py:39 | `strip(' ')` is a slice of the string with only spaces outside it, neither starts nor ends with a space, and leaves a string without spaces unchanged |
| `Files.FileSystem.Create` | dopseq/dopseq_pipeline.py:166-294 | after a tool writes its outputs, the outputs exist with the sizes the tool gives them; every other file is unchanged |
| `Files.BasenameAfterSlash` | dopseq/dopseq_pipeline.py:48-49 | the part after the last '/' of `d/f`, for `f` without '/', is `f` |
| `Files.BasenameSpec` | pipeline/b_dopseq_pipe.py:59-60 | `p.split('/')[-1]` holds no '/' and is the tail of the path after its last '/' |
| `DopseqNames.ShortName` | dopseq/dopseq_pipeline.py:48-49 | defines a genome's short name as `path.split('/')[-1].split('.')[0]`; its properties are the `ShortNameSpec` row |
| `DopseqNames.GenerateFilenames` | dopseq/dopseq_pipeline.py:44-71 | defines the file-name table from the sample and the two genome paths; its properties are the rows below |
| `DopseqNames.ShortNameSpec` | dopseq/dopseq_pipeline.py:48-49 | a genome's short name is the part of its file name before the first '.', with no '/' and no '.' in it |
| `DopseqNames.ShortNameOf` | dopseq/dopseq_pipeline.py:48-49 | for `dir/stem.ext` the short name is `stem` |
| `DopseqNames.FilenamesOfStems` | dopseq/dopseq_pipeline.py:44-71 | the alignment and filter file names are built from the sample and the genome stems in the numbered directories |
| `DopseqNames.FilenamesExample` | dopseq/dopseq_pipeline.py:44-71 | sample `S1` with genomes `/ref/genomeA.fa` and `/ref/genomeB.fa` gives `1_aln/S1.genomeA.bam`, `1_aln/S1.genomeB.bam` and `2_filter/S1.genomeA.filter.bam` |
| `DopseqNames.BamsCoincideIff` | dopseq/dopseq_pipeline.py:60-61 | the target and contamination alignments share one file exactly when the two genomes have the same short name |
| `DopseqNames.SampleOutputsDisjoint` | dopseq/dopseq_pipeline.py:52-69 | the sets of files two different samples write are disjoint: no trimmed-reads, log, alignment, filter, BED, region, statistics or FASTA file of one is any file of the other |
| `DopseqNames.SameTemplateDistinct` | dopseq/dopseq_pipeline.py:52-69 | two different samples get different paths from every template, the target and contamination alignments counted as one template |
| `DopseqNames.MarksSeparate` | dopseq/dopseq_pipeline.py:52-69 | the stage directory, the extension and the read number tell the templates apart, so file tables that differ template by template share no file |
| `DopseqConfig.AsNumber` | dopseq/dopseq_pipeline.py:247-251 | `%d` accepts exactly integers and booleans, and an integer formats as itself |
| `DopseqConfig.Defaulted` | dopseq/dopseq_pipeline.py:107-116 | the defaults add exactly the five keys and change no key already present; each default value is as written; the only failure is the missing target genome when the contamination genome is missing too |
| `DopseqConfig.DefaultRest` | dopseq/dopseq_pipeline.py:109-116 | the four tool and plot defaults are added only where absent |
| `DopseqConfig.EffectiveConfig` | dopseq/dopseq_pipeline.py:140-143 | defines the effective configuration of a sample, the snapshot with the eligible sample keys copied over it; `ResetAndOverride` proves the loop computes it |
| `DopseqConfig.ResetAndOverride` | dopseq/dopseq_pipeline.py:140-143 | the per-sample configuration has the defaults' keys; a sample's key overrides a default unless it starts with `fastq_`; every other key keeps its default |
| `DopseqConfig.EffectiveIgnoresReadFiles` | dopseq/dopseq_pipeline.py:141-143 | changing a sample's `fastq_` key never changes the effective configuration |
| `DopseqConfig.WithToolDefaults` | dopseq/dopseq_pipeline.py:151-154 | `cutadapt` and `bedtools` are set only where the configuration lacks them |
| `DopseqConfig.ResolveAligner` | dopseq/dopseq_pipeline.py:155-162 | `aln` must be `bt2` or `bwa`, otherwise the run fails with a KeyError or a ValueError; each value selects its own path and arguments |
| `DopseqConfig.SampleNames` | dopseq/dopseq_pipeline.py:127-133 | names come from the configuration's two genome paths; a sample without a reverse read file gets `None` for it and for the reverse trimmed reads |
| `DopseqConfig.CheckInputs` | dopseq/dopseq_pipeline.py:134-148 | the checks pass exactly when the forward read key exists, each read file given exists, and both genomes and the sizes file exist |
| `DopseqConfig.CheckTools` | dopseq/dopseq_pipeline.py:150-164 | the check succeeds exactly when the aligner resolves and cutadapt, the aligner's program and bedtools are all executables; on success it returns the configuration with the tool defaults and the resolved aligner |
| `DopseqConfig.Prepare` | dopseq/dopseq_pipeline.py:127-164 | a sample is prepared exactly when the name derivation, the input checks and the tool checks all succeed, and the context is what they return |
| `DopseqConfig.PreparedIsChecked` | dopseq/dopseq_pipeline.py:127-164 | every file and program a prepared sample uses was checked; its aligner is `bt2` or `bwa`; its overrides are in effect |
| `DopseqConfig.PreparedInputs` | dopseq/dopseq_pipeline.py:131-148 | after the name and input steps: single-end exactly when the reverse read key is missing, and every read and genome file was checked |
| `DopseqConfig.PreparedTools` | dopseq/dopseq_pipeline.py:151-164 | the tool step keeps every configuration key and leaves only checked executables |
| `DopseqConfig.PreparedReferences` | dopseq/dopseq_pipeline.py:127-148 | the alignment references are the genome paths of the configuration the names were derived from, while the checked genomes are those of the sample's effective configuration |
| `DopseqConfig.StaleGenomeNames` | dopseq/dopseq_pipeline.py:127-143 | as written: when a sample overrides its target genome, the names are derived before the override, so the sample aligns to a genome other than the one that was checked |
| `DopseqConfig.OwnGenomeNames` | dopseq/dopseq_pipeline.py:127-148 | corrected: deriving the names from the sample's effective configuration makes the alignment references equal to the checked genomes |
| `DopseqPipeline.TrimStep` | dopseq/dopseq_pipeline.py:169-185 | defines the trimming step: `fastq_clean` unless the trimmed forward reads exist; its properties are the `TrimPlanned` row |
| `DopseqPipeline.AlignStep` | dopseq/dopseq_pipeline.py:190-204 | defines one alignment, against the target or the contamination genome, unless its BAM file exists; see `AlignPlanned` and `AlignWrites` |
| `DopseqPipeline.FilterStep` | dopseq/dopseq_pipeline.py:207-217 | defines the contamination filter call; see `FilterPlanned` |
| `DopseqPipeline.FrontStages` | dopseq/dopseq_pipeline.py:166-223 | defines the block guarded by the filtered BAM: trimming, the two alignments, the filter; see `FrontPlanned` and `FrontRan` |
| `DopseqPipeline.BedStep` | dopseq/dopseq_pipeline.py:225-236 | defines the BAM to BED step unless the BED file exists; see `BedPlanned` |
| `DopseqPipeline.RegionStep` | dopseq/dopseq_pipeline.py:238-261 | defines the `os.stat` of the BED file and segmentation unless the BED file is empty or the region table exists; see `RegionPlanned` |
| `DopseqPipeline.StatsStep` | dopseq/dopseq_pipeline.py:263-275 | defines the statistics step unless the statistics file exists; see `StatsPlanned` |
| `DopseqPipeline.RepExplStep` | dopseq/dopseq_pipeline.py:277-294 | defines the `fastq_repexpl` lookup and the RepeatExplorer export; see `RepExplPlanned` |
| `DopseqPipeline.Stages` | dopseq/dopseq_pipeline.py:166-294 | defines a sample's stages in order, each reading the files the previous ones left; see `PlannedStages` |
| `DopseqPipeline.Plan` | dopseq/dopseq_pipeline.py:166-294 | defines which stages run, read off the files present before the first stage; `PlannedStages` proves `Stages` follows it |
| `DopseqPipeline.Invoke` | dopseq/dopseq_pipeline.py:166-294 | a tool call is recorded; a dry run leaves the files alone, and otherwise the call writes its outputs |
| `DopseqPipeline.GeneratedLayout` | dopseq/dopseq_pipeline.py:52-69 | every generated file sits in the numbered directory of its stage |
| `DopseqPipeline.CallOutputs` | dopseq/dopseq_pipeline.py:166-294 | each stage's call writes exactly the files the driver later checks, all in that stage's directory |
| `DopseqPipeline.TrimPlanned` | dopseq/dopseq_pipeline.py:169-185 | trimming runs exactly when the trimmed forward reads do not exist, and it writes only in `0_fastq` |
| `DopseqPipeline.AlignPlanned` | dopseq/dopseq_pipeline.py:190-204 | each alignment runs exactly when its BAM file does not exist, and it writes only in `1_aln` |
| `DopseqPipeline.AlignWrites` | dopseq/dopseq_pipeline.py:190-204 | after an alignment, outside a dry run, its BAM file exists, and no other file appears |
| `DopseqPipeline.FilterPlanned` | dopseq/dopseq_pipeline.py:207-217 | the contamination filter always runs inside the front block and leaves the filtered BAM |
| `DopseqPipeline.FrontPlanned` | dopseq/dopseq_pipeline.py:166-223 | the front block runs trimming and the alignments as their files dictate, then the filter, and touches only `0_fastq` to `2_filter` |
| `DopseqPipeline.FrontRan` | dopseq/dopseq_pipeline.py:166-218 | the same, for the block when the filtered BAM does not yet exist |
| `DopseqPipeline.BedPlanned` | dopseq/dopseq_pipeline.py:225-236 | the BED step runs exactly when the BED file is missing, and afterwards the BED file exists with its size |
| `DopseqPipeline.RegionPlanned` | dopseq/dopseq_pipeline.py:238-261 | segmentation runs when the region table is missing, unless the BED file is empty outside a dry run |
| `DopseqPipeline.StatsPlanned` | dopseq/dopseq_pipeline.py:263-275 | statistics run exactly when the statistics file is missing, and afterwards it exists |
| `DopseqPipeline.RepExplPlanned` | dopseq/dopseq_pipeline.py:277-294 | a missing `fastq_repexpl` key fails the run; the export runs only when it is asked for, the reads are paired and the FASTA file is missing |
| `DopseqPipeline.ComposePlan` | dopseq/dopseq_pipeline.py:166-294 | steps that each touch only their own directory compose into the plan read off the initial files |
| `DopseqPipeline.StagesRan` | dopseq/dopseq_pipeline.py:166-294 | a sample's stages that end without an exception ran exactly the plan computed from the files present at the start, in order |
| `DopseqPipeline.PlannedStages` | dopseq/dopseq_pipeline.py:166-294 | the same, for `Stages` as a whole |
| `DopseqPipeline.StagesLeft` | dopseq/dopseq_pipeline.py:166-294 | after a complete pass: the filtered BAM, BED and statistics files exist, the region table exists unless the BED file is empty, and the FASTA file exists when it was wanted |
| `DopseqPipeline.StagesLeaveOutputs` | dopseq/dopseq_pipeline.py:166-294 | the same, for `Stages` as a whole |
| `DopseqPipeline.CompleteRerunIsNoOp` | dopseq/dopseq_pipeline.py:166-294 | running a sample's stages again after a complete pass calls no tool and changes nothing |
| `DopseqPipeline.DryRunFrontLeavesFiles` | dopseq/dopseq_pipeline.py:166-223 | a dry run of the front block writes no file |
| `DopseqPipeline.DryRunStagesLeaveFiles` | dopseq/dopseq_pipeline.py:166-294 | a dry run of a sample's stages writes no file |
| `DopseqPipeline.CallsNeverMeasure` | dopseq/dopseq_pipeline.py:166-257 | building a tool's arguments never fails with a size lookup |
| `DopseqPipeline.FrontNeverMeasures` | dopseq/dopseq_pipeline.py:166-223 | the front block never fails with a size lookup |
| `DopseqPipeline.BedThenRegionMeasure` | dopseq/dopseq_pipeline.py:225-238 | after the BED step the BED file is there to be measured before segmentation |
| `DopseqPipeline.BedSizeAlwaysKnown` | dopseq/dopseq_pipeline.py:226-238 | the `os.stat` of the BED file never fails in a sample's stages |
| `DopseqPipeline.Begin` | dopseq/dopseq_pipeline.py:107-120 | the run starts only with the defaults in place and a `samples` table; a missing table is a KeyError |
| `DopseqPipeline.PreparedLayout` | dopseq/dopseq_pipeline.py:127-133 | a prepared sample's files sit in the numbered directories |
| `DopseqPipeline.AlignerCheckedBeforeStages` | dopseq/dopseq_pipeline.py:155-166 | an invalid aligner ends the pass before any tool runs or any file changes |
| `DopseqPipeline.SingleEndSkipsRepExpl` | dopseq/dopseq_pipeline.py:277-280 | a single-end sample never runs the RepeatExplorer export |
| `DopseqPipeline.EmptyBedSkipsRegions` | dopseq/dopseq_pipeline.py:238-240 | an empty BED file outside a dry run skips segmentation, but not the statistics |
| `DopseqPipeline.FilterBamSkipsFront` | dopseq/dopseq_pipeline.py:166-223 | an existing filtered BAM skips trimming, both alignments and the filter; a missing one always reruns the filter |
| `DopseqPipeline.Pass` | dopseq/dopseq_pipeline.py:124-294 | defines one pass of the sample loop: the `os.mkdir` failure, the preparation with names from the given configuration, the stages, and the configuration the loop holds afterwards; `RunPass` proves the loop body computes it |
| `DopseqPipeline.PassesAsWritten` | dopseq/dopseq_pipeline.py:120-294 | defines the sample loop as written: one pass per sample until the first exception, each naming its files after the configuration the previous pass left; `RunPasses` proves the loop computes it |
| `DopseqPipeline.Passes` | dopseq/dopseq_pipeline.py:120-294 | defines the corrected loop, each pass naming its files after the sample's own effective configuration; `AsWrittenPassesAgree` relates it to `PassesAsWritten` |
| `DopseqPipeline.PipelineAsWritten` | dopseq/dopseq_pipeline.py:102-297 | defines the whole driver as written: the defaults, then `PassesAsWritten` from the filled defaults; `RunPipeline` proves the driver computes it |
| `DopseqPipeline.Pipeline` | dopseq/dopseq_pipeline.py:102-297 | defines the corrected driver, the defaults then `Passes` |
| `DopseqPipeline.DryRunPassLeavesFiles` | dopseq/dopseq_pipeline.py:124-294 | a dry run of one pass writes no file, whichever configuration names its files |
| `DopseqPipeline.DryRunPassesAsWrittenLeaveFiles` | dopseq/dopseq_pipeline.py:120-294 | a dry run of the sample loop as written, over any list of samples, writes no file |
| `DopseqPipeline.DryRunAsWrittenLeavesFiles` | dopseq/dopseq_pipeline.py:102-294 | a dry run of the whole driver as written writes no file |
| `DopseqPipeline.DryRunPassesLeaveFiles` | dopseq/dopseq_pipeline.py:120-294 | the same for the corrected loop, where each sample names its files after its own configuration |
| `DopseqPipeline.DryRunLeavesFiles` | dopseq/dopseq_pipeline.py:102-294 | the same for the corrected driver |
| `DopseqPipeline.PrepareNamesFromGenomes` | dopseq/dopseq_pipeline.py:127-129 | the configuration a pass starts with matters to it only through its two genomes |
| `DopseqPipeline.PassKeepsGenomes` | dopseq/dopseq_pipeline.py:127-164 | a sample that sets no genome of its own leaves the loop holding the global genomes, and its pass does what the corrected pass does |
| `DopseqPipeline.AsWrittenPassesAgree` | dopseq/dopseq_pipeline.py:120-294 | when no sample sets a genome of its own, the loop as written and the corrected loop do the same run |
| `DopseqPipeline.AsWrittenAgreesWithoutGenomeOverrides` | dopseq/dopseq_pipeline.py:102-294 | the same for the whole driver |
| `DopseqPipeline.RunFrontStages` | dopseq/dopseq_pipeline.py:166-223 | the imperative front block computes the front stages |
| `DopseqPipeline.RunRegionStage` | dopseq/dopseq_pipeline.py:238-261 | the imperative segmentation step computes the region stage |
| `DopseqPipeline.RunStages` | dopseq/dopseq_pipeline.py:166-294 | the imperative stage sequence computes `Stages` |
| `DopseqPipeline.PrepareSample` | dopseq/dopseq_pipeline.py:127-164 | the imperative preparation computes `Prepare` |
| `DopseqPipeline.FillDefaults` | dopseq/dopseq_pipeline.py:107-116 | filling the defaults in place computes `Defaulted` |
| `DopseqPipeline.FillRest` | dopseq/dopseq_pipeline.py:109-116 | filling the four tool and plot defaults in place computes `DefaultRest` |
| `DopseqPipeline.RunPass` | dopseq/dopseq_pipeline.py:124-294 | one iteration of the sample loop computes `Pass`: the directory, names from the configuration the loop holds, the checks and the stages, and the configuration it leaves |
| `DopseqPipeline.RunPasses` | dopseq/dopseq_pipeline.py:120-294 | the sample loop computes `PassesAsWritten`, carrying the configuration from pass to pass and stopping at the first exception |
| `DopseqPipeline.RunPipeline` | dopseq/dopseq_pipeline.py:106-294 | the driver computes `PipelineAsWritten`, with the filled defaults as the configuration of the first pass |
| `BPipeConfig.Uncomment` | pipeline/b_dopseq_pipe.py:36 | defines `line[:line.find('#')]`; see `UncommentSpec` |
| `BPipeConfig.Entry` | pipeline/b_dopseq_pipe.py:37-39 | defines the key and stripped value of a line with exactly one '='; see `EntrySpec` |
| `BPipeConfig.Parse` | pipeline/b_dopseq_pipe.py:30-45 | defines `parse_config` over the file's lines, the first malformed line raising; see `ParseFailsIff` and `ParseLastWins` |
| `BPipeConfig.UncommentSpec` | pipeline/b_dopseq_pipe.py:36 | with a `#`, the text before the first `#` is kept; without one, the line loses its last character |
| `BPipeConfig.ParseLine` | pipeline/b_dopseq_pipe.py:36-43 | a line fails exactly when its uncommented text has two or more `=`; one `=` sets a key; none leaves the mapping alone |
| `BPipeConfig.ParseConfig` | pipeline/b_dopseq_pipe.py:30-45 | the line loop computes `Parse` |
| `BPipeConfig.EntrySpec` | pipeline/b_dopseq_pipe.py:36-39 | a line sets a key exactly when its uncommented text has one `=`; the key is the whole text before it and the value the stripped text after it |
| `BPipeConfig.FailureSticks` | pipeline/b_dopseq_pipe.py:42-43 | the first rejected line rejects the whole file with its own exception |
| `BPipeConfig.ParseStep` | pipeline/b_dopseq_pipe.py:35-43 | one more line fails the file exactly when the file so far fails or that line is malformed |
| `BPipeConfig.MalformedFails` | pipeline/b_dopseq_pipe.py:42-43 | any malformed line fails the file |
| `BPipeConfig.FailureHasMalformed` | pipeline/b_dopseq_pipe.py:42-43 | a file that fails has a malformed line |
| `BPipeConfig.ParseFailsIff` | pipeline/b_dopseq_pipe.py:35-43 | a file fails to parse exactly when one of its lines is malformed |
| `BPipeConfig.ParseLastWins` | pipeline/b_dopseq_pipe.py:35-39 | a key holds the value of the last line that sets it, and keys no line sets are absent |
| `BPipeConfig.FindAfter` | pipeline/b_dopseq_pipe.py:36 | the first `#` is found right after a text that has none |
| `BPipeConfig.ParseOne` | pipeline/b_dopseq_pipe.py:32-39 | a one-line file holds what that line sets |
| `BPipeConfig.SplitSetting` | pipeline/b_dopseq_pipe.py:37 | `key=raw` splits at its one `=` into the key and the raw value |
| `BPipeConfig.CommentedEntry` | pipeline/b_dopseq_pipe.py:36-39 | `key=raw#comment` sets `key` to `raw` stripped of spaces |
| `BPipeConfig.UncommentedEntry` | pipeline/b_dopseq_pipe.py:36-39 | `key=raw` followed by one more character, normally the newline, sets `key` to `raw` stripped of spaces |
| `BPipeConfig.KeyKeepsSpaces` | pipeline/b_dopseq_pipe.py:36-39 | `k = v # note` sets the key `k ` (trailing space kept) to `v` |
| `BPipeConfig.LastLineLosesCharacter` | pipeline/b_dopseq_pipe.py:36-39 | a final line `sample=S1` without a newline sets `sample` to `S` |
| `BPipe.Lookup` | pipeline/b_dopseq_pipe.py:59-117 | `conf[key]` succeeds exactly when the key is present, and otherwise raises a KeyError for that key |
| `BPipe.BaseNames` | pipeline/b_dopseq_pipe.py:59-67 | the names need `target_genome`, `contam_genome` and `sample`, and a missing one raises a KeyError in that order |
| `BPipe.NamesSpec` | pipeline/b_dopseq_pipe.py:59-114 | genome names are whole last path segments; every file is `<sample>.<target name>.filter` plus its suffix; the SAM files are `<sample>.<genome name>.sam` |
| `BPipe.BaseNamesOf` | pipeline/b_dopseq_pipe.py:59-67 | for genomes `dir/file` the names keep the file name with its extension |
| `BPipe.BaseNameExample` | pipeline/b_dopseq_pipe.py:59-67 | sample `S1` with `/ref/genomeA.fa` gives `S1.genomeA.fa.filter` and `S1.genomeA.fa.filter.bam` |
| `BPipe.SeparateNames` | pipeline/b_dopseq_pipe.py:62-114 | no step writes a file that a later step checks |
| `BPipe.Invoke` | pipeline/b_dopseq_pipe.py:77-119 | a tool call is recorded and writes its outputs |
| `BPipe.AlignWanted` | pipeline/b_dopseq_pipe.py:68-69 | alignment is redone when neither SAM exists or the target SAM is empty; a missing target SAM beside an existing contamination SAM raises |
| `BPipe.FastqToBamCall` | pipeline/b_dopseq_pipe.py:70-75 | the arguments need the two read files and `proc_bowtie2`, looked up in that order; both read files must exist; the call writes the two SAM files |
| `BPipe.Steps` | pipeline/b_dopseq_pipe.py:61-120 | defines steps 1 to 4 in order, each skipped by its own file checks; see `PlannedSteps` and `SkipRules` |
| `BPipe.Main` | pipeline/b_dopseq_pipe.py:54-120 | defines the script: `parse_config`, the file names, then `Steps`; see `MainPlanned` |
| `BPipe.Plan` | pipeline/b_dopseq_pipe.py:61-120 | defines which steps run, read off the files present at the start; `PlannedSteps` proves `Steps` follows it |
| `BPipe.AlignPlanned` | pipeline/b_dopseq_pipe.py:70-78 | the alignment adds one call and none of the files later steps check |
| `BPipe.FilterPlanned` | pipeline/b_dopseq_pipe.py:79-83 | the contamination filter adds one call and none of the files later steps check |
| `BPipe.AlignThenFilter` | pipeline/b_dopseq_pipe.py:68-83 | alignment then filter adds those two calls in order |
| `BPipe.AlignFilterPlanned` | pipeline/b_dopseq_pipe.py:64-83 | steps 1 and 2 run as the plan says: nothing when the filtered BAM exists, otherwise the alignment if wanted, then the filter |
| `BPipe.BedsPlanned` | pipeline/b_dopseq_pipe.py:84-91 | BAM to BED runs exactly when both BED files are missing |
| `BPipe.StatsPlanned` | pipeline/b_dopseq_pipe.py:92-104 | the statistics run exactly when the statistics file is missing |
| `BPipe.PlotPlanned` | pipeline/b_dopseq_pipe.py:105-111 | the control plots run exactly when the plot is missing |
| `BPipe.RegionPlanned` | pipeline/b_dopseq_pipe.py:112-120 | segmentation runs exactly when the region table or the region plot is missing |
| `BPipe.ErrorsStick` | pipeline/b_dopseq_pipe.py:54-120 | once an exception is raised, no later step does anything |
| `BPipe.PlannedSteps` | pipeline/b_dopseq_pipe.py:61-120 | a block that ends without an exception ran exactly the plan read off the files present at its start, in order |
| `BPipe.PlannedFromStart` | pipeline/b_dopseq_pipe.py:61-120 | the same, from an empty call list |
| `BPipe.MainPlanned` | pipeline/b_dopseq_pipe.py:54-120 | a configuration error or a missing name key ends the script before any tool runs; otherwise, when it ends without an exception, it ran exactly the plan |
| `BPipe.InvokeGrows` | pipeline/b_dopseq_pipe.py:77-119 | a call only adds or rewrites files, and its outputs exist afterwards |
| `BPipe.CallGrows` | pipeline/b_dopseq_pipe.py:70-119 | the same for a call whose arguments might fail |
| `BPipe.AlignFilterWrites` | pipeline/b_dopseq_pipe.py:64-83 | steps 1 and 2 leave the filtered BAM |
| `BPipe.BedsWrites` | pipeline/b_dopseq_pipe.py:84-91 | step 3 leaves at least one of the BED files |
| `BPipe.StatsWrites` | pipeline/b_dopseq_pipe.py:92-104 | step 3a leaves the statistics file |
| `BPipe.PlotWrites` | pipeline/b_dopseq_pipe.py:105-111 | step 3b leaves the control plot |
| `BPipe.RegionWrites` | pipeline/b_dopseq_pipe.py:112-120 | step 4 leaves the region table and plot |
| `BPipe.StepsLeaveOutputs` | pipeline/b_dopseq_pipe.py:61-120 | a block without an exception leaves every file a rerun checks |
| `BPipe.DoneSkipsAll` | pipeline/b_dopseq_pipe.py:61-120 | with every checked file present, the block does nothing |
| `BPipe.CompleteRerunIsNoOp` | pipeline/b_dopseq_pipe.py:54-120 | running the script again after a run without an exception calls no tool and changes nothing |
| `BPipe.MissingTargetSamRaises` | pipeline/b_dopseq_pipe.py:68-69 | with no filtered BAM and only the contamination SAM present, `getsize` of the missing target SAM raises before any tool runs |
| `BPipe.MissingReadsRaise` | pipeline/b_dopseq_pipe.py:70-75 | when alignment is wanted and a read file is missing, the first failing `assert` names it, before any tool runs |
| `BPipe.SkipRules` | pipeline/b_dopseq_pipe.py:64-120 | each step is in the plan exactly under its own condition on the existing files |
| `BPipe.RunAlignFilter` | pipeline/b_dopseq_pipe.py:64-83 | the imperative steps 1 and 2 compute `AlignFilterStep` |
| `BPipe.RunSteps` | pipeline/b_dopseq_pipe.py:61-120 | the imperative steps compute `Steps` |
| `BPipe.RunMain` | pipeline/b_dopseq_pipe.py:54-120 | the imperative script computes `Main` |

## Left out

- Command-line parsing: `argparse`, the `--create_makefile` copy and the commented-out `--sizes` block. The dry-run flag is a parameter.
- A sample whose entry in the table is empty (null in YAML), on which `.keys()` at dopseq/dopseq_pipeline.py:131 raises `AttributeError`. A sample's settings are always a mapping here.
- YAML loading. The configuration is given already loaded, as a mapping to strings, integers, booleans or null. Floats and nested values other than the sample table are not modelled.
- A per-sample key named `samples`, which the override at dopseq/dopseq_pipeline.py:141-143 would copy over the table. The sample table is kept apart from the options.
- The sample directories themselves. The file system holds regular files only. `os.mkdir(sample)` is modelled as failing when a regular file has the sample's name. A sample name whose parent directory is missing, which makes `os.mkdir` raise as well, is not modelled, and a created directory is not recorded.
- All text written to stderr and the stdout redirection around `control_stats`, because they decide nothing.
- What the external tools compute. Each call is assumed to write the files the driver later checks. In the older driver no tool is given the names of its outputs: the two SAM files of `fastq_to_bam`, the filtered BAM of `contam_filter`, the two BED files of `bam_to_beds`, the control plot and the two region files. The model records those names in the call as the files it writes.
- dopseq/tools/utils.py is not part of this model. `check_file` and `check_exec` are modelled as oracles.
- `run_script` in the older driver ignores the exit status of its child process. The model treats every call as successful.
- The location of the R scripts (`exec_path`). It is a constant prefix of the command.
- Reading a file into lines. The older driver's configuration is given as its lines, each with its newline.
- Running Python with `-O`, which would remove the two `assert` statements in the older driver.

## Findings

| source | as written | input that shows it | evidently intended | confidence | as-written member | corrected member |
|---|---|---|---|---|---|---|
| dopseq/dopseq_pipeline.py:127-143 | `generate_filenames` is called with `conf['target_genome']` and `conf['contam_genome']` before the configuration is reset and the sample's overrides are applied. The file names and the alignment references therefore come from the previous sample's configuration, or the defaults for the first sample. | A sample whose own `target_genome` differs from the global one: its genome file is checked, but the sample is aligned to the global genome. | Derive the names from the sample's own effective configuration, so the genome that is checked is the genome aligned to. | not executed | `DopseqConfig.StaleGenomeNames` | `DopseqConfig.OwnGenomeNames` |
