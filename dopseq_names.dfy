/**
 * Output-path planning of the `dopseq` driver (`generate_filenames`): from a
 * sample name and the two genome paths, the path of every file the pipeline
 * writes, relative to the working directory, one numbered directory per stage.
 */
module DopseqNames {
  import opened Wrappers
  import opened PyStr
  import opened Files

  /** `path.split('/')[-1].split('.')[0]`: the genome's short name. */
  function ShortName(genomePath: Path): string
  {
    Split(Basename(genomePath), '.')[0]
  }

  /**
   * The file-name table `generate_filenames` returns. `rTrimReads` is the one
   * entry the driver later sets to `None` (single-end input).
   */
  datatype FileNames = FileNames(
    fTrimReads: Path,
    rTrimReads: Option<Path>,
    caLog: Path,
    targetPath: Path,
    contamPath: Path,
    targetName: string,
    contamName: string,
    targetBam: Path,
    contamBam: Path,
    filterBam: Path,
    filterLog: Path,
    posBed: Path,
    regTsv: Path,
    regPdf: Path,
    statFile: Path,
    repexplFasta: Path)

  function GenerateFilenames(sample: string, targetPath: Path, contamPath: Path): FileNames
  {
    var targetName := ShortName(targetPath);
    var contamName := ShortName(contamPath);
    FileNames(
      fTrimReads := "0_fastq/" + sample + ".ca.R1.fastq.gz",
      rTrimReads := Some("0_fastq/" + sample + ".ca.R2.fastq.gz"),
      caLog := "0_fastq/log/" + sample + ".ca.log",
      targetPath := targetPath,
      contamPath := contamPath,
      targetName := targetName,
      contamName := contamName,
      targetBam := "1_aln/" + sample + "." + targetName + ".bam",
      contamBam := "1_aln/" + sample + "." + contamName + ".bam",
      filterBam := "2_filter/" + sample + "." + targetName + ".filter.bam",
      filterLog := "2_filter/" + sample + "." + targetName + ".filter.log",
      posBed := "3_bed/" + sample + "." + targetName + ".pos.bed",
      regTsv := "4_reg/" + sample + "." + targetName + ".reg.tsv",
      regPdf := "4_reg/" + sample + "." + targetName + ".reg.pdf",
      statFile := "5_stats/" + sample + ".stats.txt",
      repexplFasta := "6_fasta/" + sample + ".ca.re.fasta")
  }

  /**
   * The short name is the part of the path's last '/'-segment before its
   * first '.': it holds neither '/' nor '.', the segment starts with it, and
   * the segment either ends there or continues with a '.'.
   */
  lemma ShortNameSpec(genomePath: Path)
    ensures var b, n := Basename(genomePath), ShortName(genomePath);
      && '/' !in n && '.' !in n
      && '/' !in b && |b| <= |genomePath| && b == genomePath[|genomePath| - |b|..]
      && (|b| == |genomePath| || genomePath[|genomePath| - |b| - 1] == '/')
      && |n| <= |b| && n == b[..|n|]
      && (|n| == |b| || b[|n|] == '.')
  {
    BasenameSpec(genomePath);
    SplitFirst(Basename(genomePath), '.');
    var b := Basename(genomePath);
    var n := ShortName(genomePath);
    assert n == b[..|n|];
    assert '/' !in n by {
      forall i | 0 <= i < |n| ensures n[i] != '/' {
        assert n[i] == b[i];
      }
    }
  }

  /**
   * The table is built from its three arguments alone, keeps the genome paths
   * unchanged, and names every file after the sample and the genome short
   * names; the worked example `S1`, `/ref/genomeA.fa`, `/ref/genomeB.fa`.
   */
  lemma FilenamesExample(sample: string, targetPath: Path, contamPath: Path)
    requires sample == "S1" && targetPath == "/ref/genomeA.fa" && contamPath == "/ref/genomeB.fa"
    ensures var n := GenerateFilenames(sample, targetPath, contamPath);
      && n.targetPath == "/ref/genomeA.fa" && n.contamPath == "/ref/genomeB.fa"
      && n.targetName == "genomeA" && n.contamName == "genomeB"
      && n.targetBam == "1_aln/S1.genomeA.bam"
      && n.contamBam == "1_aln/S1.genomeB.bam"
      && n.filterBam == "2_filter/S1.genomeA.filter.bam"
  {
    assert targetPath == "/ref/" + "genomeA" + ".fa";
    assert contamPath == "/ref/" + "genomeB" + ".fa";
    FilenamesOfStems(sample, "/ref/", "genomeA", "genomeB", ".fa");
    ExamplePaths(sample, "genomeA", "genomeB");
  }

  /** For genomes `dir + stem + ext`, the BAM paths embed the sample name and the stems. */
  lemma FilenamesOfStems(sample: string, dir: string, tStem: string, cStem: string, ext: string)
    requires |dir| > 0 && dir[|dir| - 1] == '/' && '/' !in ext && (ext == [] || ext[0] == '.')
    requires '/' !in tStem && '.' !in tStem && '/' !in cStem && '.' !in cStem
    ensures var n := GenerateFilenames(sample, dir + tStem + ext, dir + cStem + ext);
      && n.targetName == tStem && n.contamName == cStem
      && n.targetBam == "1_aln/" + sample + "." + tStem + ".bam"
      && n.contamBam == "1_aln/" + sample + "." + cStem + ".bam"
      && n.filterBam == "2_filter/" + sample + "." + tStem + ".filter.bam"
  {
    ShortNameOf(dir, tStem, ext);
    ShortNameOf(dir, cStem, ext);
  }

  lemma ExamplePaths(sample: string, targetName: string, contamName: string)
    requires sample == "S1" && targetName == "genomeA" && contamName == "genomeB"
    ensures "1_aln/" + sample + "." + targetName + ".bam" == "1_aln/S1.genomeA.bam"
    ensures "1_aln/" + sample + "." + contamName + ".bam" == "1_aln/S1.genomeB.bam"
    ensures "2_filter/" + sample + "." + targetName + ".filter.bam" == "2_filter/S1.genomeA.filter.bam"
  {
  }

  /** A path `dir + stem + ext`, with `ext` empty or starting with '.', has short name `stem`. */
  lemma ShortNameOf(dir: string, stem: string, ext: string)
    requires |dir| > 0 && dir[|dir| - 1] == '/'
    requires '/' !in stem && '/' !in ext && '.' !in stem
    requires ext == [] || ext[0] == '.'
    ensures ShortName(dir + stem + ext) == stem
  {
    var p := dir + stem + ext;
    var d := dir[..|dir| - 1];
    assert p == d + ['/'] + (stem + ext);
    BasenameAfterSlash(d, stem + ext);
    assert Basename(p) == stem + ext;
    if ext == [] {
      assert stem + ext == stem;
      SplitNone(stem, '.');
    } else {
      assert stem + ext == stem + ['.'] + ext[1..];
      SplitPrefix(stem, ext[1..], '.');
    }
  }

  /**
   * The two BAM files of a sample coincide exactly when the two genomes have
   * the same short name; so with the contamination genome defaulted to the
   * target genome both alignments write one file.
   */
  lemma BamsCoincideIff(sample: string, targetPath: Path, contamPath: Path)
    ensures var n := GenerateFilenames(sample, targetPath, contamPath);
      n.targetBam == n.contamBam <==> ShortName(targetPath) == ShortName(contamPath)
  {
    var n := GenerateFilenames(sample, targetPath, contamPath);
    if n.targetBam == n.contamBam {
      var pre := "1_aln/" + sample + ".";
      assert n.targetBam == pre + n.targetName + ".bam";
      assert n.contamBam == pre + n.contamName + ".bam";
      CancelAround(pre, n.targetName, n.contamName, ".bam");
    }
  }

  /** Equal strings with equal prefixes and suffixes have equal middles. */
  lemma CancelAround(pre: string, x: string, y: string, post: string)
    requires pre + x + post == pre + y + post
    ensures x == y
  {
    var s := pre + x + post;
    assert |x| == |y|;
    assert x == s[|pre|..|pre| + |x|];
    assert y == (pre + y + post)[|pre|..|pre| + |y|];
  }

  /** Every file the stages of a sample may write: all entries of the table but the genomes and their names. */
  function Produced(n: FileNames): set<Path>
  {
    {n.fTrimReads, n.caLog, n.targetBam, n.contamBam, n.filterBam, n.filterLog,
     n.posBed, n.regTsv, n.regPdf, n.statFile, n.repexplFasta}
    + (if n.rTrimReads.Some? then {n.rTrimReads.value} else {})
  }

  /**
   * The characters that tell the templates apart: the stage directory's
   * digit first, the extension's last letter last, and the read number in
   * the two trimmed-reads names.
   */
  predicate Marked(n: FileNames)
  {
    && |n.fTrimReads| >= 10 && n.fTrimReads[0] == '0' && n.fTrimReads[|n.fTrimReads| - 1] == 'z'
    && n.fTrimReads[|n.fTrimReads| - 10] == '1'
    && n.rTrimReads.Some? && |n.rTrimReads.value| >= 10
    && n.rTrimReads.value[0] == '0' && n.rTrimReads.value[|n.rTrimReads.value| - 1] == 'z'
    && n.rTrimReads.value[|n.rTrimReads.value| - 10] == '2'
    && |n.caLog| > 0 && n.caLog[0] == '0' && n.caLog[|n.caLog| - 1] == 'g'
    && |n.targetBam| > 0 && n.targetBam[0] == '1' && |n.contamBam| > 0 && n.contamBam[0] == '1'
    && |n.filterBam| > 0 && n.filterBam[0] == '2' && n.filterBam[|n.filterBam| - 1] == 'm'
    && |n.filterLog| > 0 && n.filterLog[0] == '2' && n.filterLog[|n.filterLog| - 1] == 'g'
    && |n.posBed| > 0 && n.posBed[0] == '3'
    && |n.regTsv| > 0 && n.regTsv[0] == '4' && n.regTsv[|n.regTsv| - 1] == 'v'
    && |n.regPdf| > 0 && n.regPdf[0] == '4' && n.regPdf[|n.regPdf| - 1] == 'f'
    && |n.statFile| > 0 && n.statFile[0] == '5' && |n.repexplFasta| > 0 && n.repexplFasta[0] == '6'
  }

  lemma TemplateMarks(sample: string, targetPath: Path, contamPath: Path)
    ensures Marked(GenerateFilenames(sample, targetPath, contamPath))
  {
  }

  /** Two marked tables whose same-template entries differ share no file. */
  lemma MarksSeparate(n1: FileNames, n2: FileNames)
    requires Marked(n1) && Marked(n2)
    requires n1.fTrimReads != n2.fTrimReads && n1.rTrimReads != n2.rTrimReads && n1.caLog != n2.caLog
    requires n1.targetBam != n2.targetBam && n1.contamBam != n2.contamBam
    requires n1.targetBam != n2.contamBam && n1.contamBam != n2.targetBam
    requires n1.filterBam != n2.filterBam && n1.filterLog != n2.filterLog && n1.posBed != n2.posBed
    requires n1.regTsv != n2.regTsv && n1.regPdf != n2.regPdf
    requires n1.statFile != n2.statFile && n1.repexplFasta != n2.repexplFasta
    ensures Produced(n1) !! Produced(n2)
  {
  }

  /**
   * Two different samples never share an output file, in the same role or
   * in different ones, so the per-sample file sets, and the reruns that
   * depend on them, are independent.
   */
  lemma SampleOutputsDisjoint(s1: string, t1: Path, c1: Path, s2: string, t2: Path, c2: Path)
    requires s1 != s2
    ensures var n1, n2 := GenerateFilenames(s1, t1, c1), GenerateFilenames(s2, t2, c2);
      && n1.fTrimReads != n2.fTrimReads && n1.caLog != n2.caLog
      && n1.targetBam != n2.targetBam && n1.contamBam != n2.contamBam
      && n1.filterBam != n2.filterBam && n1.posBed != n2.posBed
      && n1.regTsv != n2.regTsv && n1.statFile != n2.statFile
      && n1.repexplFasta != n2.repexplFasta
    ensures Produced(GenerateFilenames(s1, t1, c1)) !! Produced(GenerateFilenames(s2, t2, c2))
  {
    SameTemplateDistinct(s1, t1, c1, s2, t2, c2);
    TemplateMarks(s1, t1, c1);
    TemplateMarks(s2, t2, c2);
    MarksSeparate(GenerateFilenames(s1, t1, c1), GenerateFilenames(s2, t2, c2));
  }

  /**
   * Paths of two different samples made from one template differ (the
   * genome short names never hold a '.'); the two alignment templates
   * count as one.
   */
  lemma SameTemplateDistinct(s1: string, t1: Path, c1: Path, s2: string, t2: Path, c2: Path)
    requires s1 != s2
    ensures var n1, n2 := GenerateFilenames(s1, t1, c1), GenerateFilenames(s2, t2, c2);
      && n1.fTrimReads != n2.fTrimReads && n1.rTrimReads != n2.rTrimReads && n1.caLog != n2.caLog
      && n1.targetBam != n2.targetBam && n1.contamBam != n2.contamBam
      && n1.targetBam != n2.contamBam && n1.contamBam != n2.targetBam
      && n1.filterBam != n2.filterBam && n1.filterLog != n2.filterLog && n1.posBed != n2.posBed
      && n1.regTsv != n2.regTsv && n1.regPdf != n2.regPdf
      && n1.statFile != n2.statFile && n1.repexplFasta != n2.repexplFasta
  {
    var n1, n2 := GenerateFilenames(s1, t1, c1), GenerateFilenames(s2, t2, c2);
    ShortNameSpec(t1);
    ShortNameSpec(t2);
    ShortNameSpec(c1);
    ShortNameSpec(c2);
    if n1.fTrimReads == n2.fTrimReads { CancelAround("0_fastq/", s1, s2, ".ca.R1.fastq.gz"); }
    if n1.rTrimReads == n2.rTrimReads { CancelAround("0_fastq/", s1, s2, ".ca.R2.fastq.gz"); }
    if n1.caLog == n2.caLog { CancelAround("0_fastq/log/", s1, s2, ".ca.log"); }
    if n1.statFile == n2.statFile { CancelAround("5_stats/", s1, s2, ".stats.txt"); }
    if n1.repexplFasta == n2.repexplFasta { CancelAround("6_fasta/", s1, s2, ".ca.re.fasta"); }
    if n1.targetBam == n2.targetBam {
      SameTail("1_aln/", s1, n1.targetName, s2, n2.targetName, ".bam");
    }
    if n1.contamBam == n2.contamBam {
      SameTail("1_aln/", s1, n1.contamName, s2, n2.contamName, ".bam");
    }
    if n1.targetBam == n2.contamBam {
      SameTail("1_aln/", s1, n1.targetName, s2, n2.contamName, ".bam");
    }
    if n1.contamBam == n2.targetBam {
      SameTail("1_aln/", s1, n1.contamName, s2, n2.targetName, ".bam");
    }
    if n1.filterBam == n2.filterBam {
      SameTail("2_filter/", s1, n1.targetName, s2, n2.targetName, ".filter.bam");
    }
    if n1.filterLog == n2.filterLog {
      SameTail("2_filter/", s1, n1.targetName, s2, n2.targetName, ".filter.log");
    }
    if n1.posBed == n2.posBed {
      SameTail("3_bed/", s1, n1.targetName, s2, n2.targetName, ".pos.bed");
    }
    if n1.regTsv == n2.regTsv {
      SameTail("4_reg/", s1, n1.targetName, s2, n2.targetName, ".reg.tsv");
    }
    if n1.regPdf == n2.regPdf {
      SameTail("4_reg/", s1, n1.targetName, s2, n2.targetName, ".reg.pdf");
    }
  }

  /** `dir + s1 + "." + x1 + ext == dir + s2 + "." + x2 + ext` with '.'-free `x1`, `x2` gives `s1 == s2`. */
  lemma SameTail(dir: string, s1: string, x1: string, s2: string, x2: string, ext: string)
    requires '.' !in x1 && '.' !in x2
    requires dir + s1 + "." + x1 + ext == dir + s2 + "." + x2 + ext
    ensures s1 == s2
  {
    assert dir + s1 + "." + x1 + ext == dir + (s1 + ['.'] + x1) + ext;
    assert dir + s2 + "." + x2 + ext == dir + (s2 + ['.'] + x2) + ext;
    CancelAround(dir, s1 + ['.'] + x1, s2 + ['.'] + x2, ext);
    CancelAtLast(s1, x1, s2, x2, '.');
  }
}
