/** `run_pipeline`: load the two tables, run Stage 1, synthesise, write the
    report and clean up. Every early return and every caught error ends the
    run without cleaning up, so the cache of a run that did not finish is
    there for the next one. */
module Pipeline {
  import opened Wrappers
  import opened Text
  import opened Paths
  import opened Records
  import opened Oracles
  import opened FileStore
  import opened Config
  import opened PipelineSettings
  import opened BatchStage
  import opened BatchCache
  import opened ReportStage
  import opened Cleanup

  /** What `pd.read_csv` returns for the two tables when their files exist:
      the rows, or `None` when reading raises. */
  datatype Tables = Tables(videos: Option<seq<Video>>, comments: Option<seq<CommentRow>>)

  function PipelineInputs(s: Settings, ai: GenAI, fmt: Formatting, tables: Tables, files: map<string, string>): Inputs
  {
    Inputs(s, ai, fmt, LoadTable(files, s.videosCsv, tables.videos), LoadTable(files, s.commentsCsv, tables.comments))
  }

  /** How a run ends: an empty table; `ZeroDivisionError` (not caught); a
      template missing (`FileNotFoundError`, caught); no summaries; no
      report from the pro model; or the report written at `report`. */
  datatype Outcome =
    | NoData
    | BatchSizeZero
    | MissingFile(path: string)
    | NoSummaries
    | SynthesisFailed
    | Completed(report: string)

  /** The run on filesystem `st0`; `fails` are the directories whose removal
      raises during the cleanup. */
  function PipelineRun(s: Settings, ai: GenAI, fmt: Formatting, tables: Tables, st0: FsState, fails: set<string>)
    : (Outcome, FsState)
  {
    var inp := PipelineInputs(s, ai, fmt, tables, st0.files);
    if inp.videos == [] || inp.comments == [] then (NoData, st0)
    else
      match Stage1(inp, st0.files)
      case DivisionByZero => (BatchSizeZero, st0)
      case Ran(st1) =>
        var after1 := FsState(st1.files, st0.dirs);
        if st1.aborted then (MissingFile(s.flashPromptPath), after1)
        else if st1.summaries == [] then (NoSummaries, after1)
        else
          match Synthesis(inp, st1.files, st1.summaries)
          case NoProTemplate => (MissingFile(s.proPromptPath), after1)
          case Synthesized(t) =>
            if t.None? || t.value == "" then (SynthesisFailed, after1)
            else
              match ReportText(inp, st1.files, t.value)
              case None => (MissingFile(HtmlTemplatePath(s.projectRoot)), after1)
              case Some(text) =>
                var written := FsState(st1.files[ReportPath(s) := text], st0.dirs);
                (Completed(ReportPath(s)), AfterCleanup(written, CleanupTargets(s), fails))
  }

  method RunPipeline(fs: FileSystem, s: Settings, ai: GenAI, fmt: Formatting, tables: Tables, fails: set<string>)
    returns (out: Outcome)
    modifies fs
    ensures (out, fs.State()) == PipelineRun(s, ai, fmt, tables, old(fs.State()), fails)
  {
    var inp := PipelineInputs(s, ai, fmt, tables, fs.files);
    if inp.videos == [] || inp.comments == [] {
      return NoData;
    }
    var r := ProcessBatches(fs, inp);
    if r.DivisionByZero? {
      return BatchSizeZero;
    }
    var st1 := r.state;
    if st1.aborted {
      return MissingFile(s.flashPromptPath);
    }
    if st1.summaries == [] {
      return NoSummaries;
    }
    var synthesis := Synthesis(inp, fs.files, st1.summaries);
    if synthesis.NoProTemplate? {
      return MissingFile(s.proPromptPath);
    }
    var narrative := synthesis.text;
    if narrative.None? || narrative.value == "" {
      return SynthesisFailed;
    }
    var ok := GenerateReportFile(fs, inp, narrative.value);
    if !ok {
      return MissingFile(HtmlTemplatePath(s.projectRoot));
    }
    CleanupDirs(fs, s, fails);
    return Completed(ReportPath(s));
  }

  // ---------------------------------------------------------------------------
  // properties of a run
  // ---------------------------------------------------------------------------

  /** Cleanup only after success: a run that does not complete removes
      nothing, and changes no file but cache entries; a run stopped before
      Stage 1 changes nothing at all. */
  lemma UnfinishedRunKeepsFiles(s: Settings, ai: GenAI, fmt: Formatting, tables: Tables, st0: FsState, fails: set<string>)
    ensures var (out, r) := PipelineRun(s, ai, fmt, tables, st0, fails);
      (out == NoData || out == BatchSizeZero ==> r == st0)
      && (!out.Completed? ==>
            (r.dirs == st0.dirs
             && forall p :: (forall n :: p != CachePath(s, n)) ==> AgreeOn(r.files, st0.files, p)))
  {
    EarlyStopChangesNothing(s, ai, fmt, tables, st0, fails);
    UnfinishedRunKeepsDirs(s, ai, fmt, tables, st0, fails);
    UnfinishedRunKeepsNonCache(s, ai, fmt, tables, st0, fails);
  }

  lemma EarlyStopChangesNothing(s: Settings, ai: GenAI, fmt: Formatting, tables: Tables, st0: FsState, fails: set<string>)
    ensures var (out, r) := PipelineRun(s, ai, fmt, tables, st0, fails);
      out == NoData || out == BatchSizeZero ==> r == st0
  {
    var inp := PipelineInputs(s, ai, fmt, tables, st0.files);
    if !(inp.videos == [] || inp.comments == []) && Stage1(inp, st0.files).Ran? {
      LateOutcome(s, ai, fmt, tables, st0, fails);
    }
  }

  /** Once Stage 1 has run, the outcome is neither of the early ones. */
  lemma LateOutcome(s: Settings, ai: GenAI, fmt: Formatting, tables: Tables, st0: FsState, fails: set<string>)
    requires var inp := PipelineInputs(s, ai, fmt, tables, st0.files);
      !(inp.videos == [] || inp.comments == []) && Stage1(inp, st0.files).Ran?
    ensures PipelineRun(s, ai, fmt, tables, st0, fails).0 != NoData
    ensures PipelineRun(s, ai, fmt, tables, st0, fails).0 != BatchSizeZero
  {
  }

  lemma UnfinishedRunKeepsDirs(s: Settings, ai: GenAI, fmt: Formatting, tables: Tables, st0: FsState, fails: set<string>)
    ensures var (out, r) := PipelineRun(s, ai, fmt, tables, st0, fails);
      !out.Completed? ==> r.dirs == st0.dirs
  {
  }

  lemma UnfinishedRunKeepsNonCache(s: Settings, ai: GenAI, fmt: Formatting, tables: Tables, st0: FsState, fails: set<string>)
    ensures var (out, r) := PipelineRun(s, ai, fmt, tables, st0, fails);
      !out.Completed? ==> forall p :: (forall n :: p != CachePath(s, n)) ==> AgreeOn(r.files, st0.files, p)
  {
    var inp := PipelineInputs(s, ai, fmt, tables, st0.files);
    if Stage1(inp, st0.files).Ran? {
      Stage1KeepsFiles(inp, st0.files);
    }
  }

  /** Stage 1 changes no file but cache entries. */
  lemma Stage1KeepsFiles(inp: Inputs, files0: map<string, string>)
    requires Stage1(inp, files0).Ran?
    ensures forall p :: (forall n :: p != CachePath(inp.s, n)) ==> AgreeOn(Stage1(inp, files0).state.files, files0, p)
  {
    var k := NumBatches(|inp.videos|, inp.s.batchSize).value;
    forall p | (forall n :: p != CachePath(inp.s, n))
      ensures AgreeOn(Stage1Upto(inp, files0, k).files, files0, p)
    {
      UptoFrame(inp, files0, k, p);
    }
  }

  /** A completed run synthesised a non-empty narrative from a non-empty list
      of summaries produced by a Stage 1 that was not stopped, and wrote the
      report for it at the report path before cleaning up. */
  lemma CompletedRunWroteReport(s: Settings, ai: GenAI, fmt: Formatting, tables: Tables, st0: FsState, fails: set<string>)
    ensures var (out, r) := PipelineRun(s, ai, fmt, tables, st0, fails);
      var inp := PipelineInputs(s, ai, fmt, tables, st0.files);
      out.Completed? ==>
        out.report == ReportPath(s)
        && inp.videos != [] && inp.comments != []
        && Stage1(inp, st0.files).Ran?
        && var st1 := Stage1(inp, st0.files).state;
           !st1.aborted && st1.summaries != []
           && Synthesis(inp, st1.files, st1.summaries).Synthesized?
           && var t := Synthesis(inp, st1.files, st1.summaries).text;
              t.Some? && t.value != "" && ReportText(inp, st1.files, t.value).Some?
              && r == AfterCleanup(FsState(st1.files[ReportPath(s) := ReportText(inp, st1.files, t.value).value], st0.dirs),
                                   CleanupTargets(s), fails)
  {
  }

  /** With the configuration's folder names one path component each and a
      report format without `/`, a completed run leaves the report on disk
      and the cache directory (when it existed and its removal does not fail)
      gone with every cache entry. */
  lemma CompletedRunKeepsReport(root: string, cfg: ConfigFile, ai: GenAI, fmt: Formatting, tables: Tables,
                                st0: FsState, fails: set<string>)
    requires IsFolderName(cfg.audioFolderName.GetOr("audio"))
    requires IsFolderName(cfg.videoFolderName.GetOr("video"))
    requires IsFolderName(cfg.cacheDir.GetOr("cache"))
    requires '/' !in cfg.reportFormat
    ensures var s := LoadSettings(root, cfg);
      var (out, r) := PipelineRun(s, ai, fmt, tables, st0, fails);
      out.Completed? ==>
        ReportPath(s) in r.files
        && (s.cacheDir in st0.dirs && s.cacheDir !in fails ==>
              s.cacheDir !in r.dirs && forall n :: CachePath(s, n) !in r.files)
  {
    var s := LoadSettings(root, cfg);
    var (out, r) := PipelineRun(s, ai, fmt, tables, st0, fails);
    if out.Completed? {
      CompletedRunWroteReport(s, ai, fmt, tables, st0, fails);
      var inp := PipelineInputs(s, ai, fmt, tables, st0.files);
      var st1 := Stage1(inp, st0.files).state;
      var t := Synthesis(inp, st1.files, st1.summaries).text;
      var written := FsState(st1.files[ReportPath(s) := ReportText(inp, st1.files, t.value).value], st0.dirs);
      CleanupAfterReport(root, cfg, written, fails);
    }
  }

  lemma CleanupAfterReport(root: string, cfg: ConfigFile, written: FsState, fails: set<string>)
    requires IsFolderName(cfg.audioFolderName.GetOr("audio"))
    requires IsFolderName(cfg.videoFolderName.GetOr("video"))
    requires IsFolderName(cfg.cacheDir.GetOr("cache"))
    requires '/' !in cfg.reportFormat
    requires ReportPath(LoadSettings(root, cfg)) in written.files
    ensures var s := LoadSettings(root, cfg);
      var r := AfterCleanup(written, CleanupTargets(s), fails);
      ReportPath(s) in r.files
      && (s.cacheDir in written.dirs && s.cacheDir !in fails ==>
            s.cacheDir !in r.dirs && forall n :: CachePath(s, n) !in r.files)
  {
    var s := LoadSettings(root, cfg);
    ReportNameIsFolderName(cfg.searchTerms, cfg.reportFormat);
    OutputFileSurvivesCleanup(root, cfg, written, fails, s.safeBrand + "_strategic_report." + s.reportFormat);
    if s.cacheDir in written.dirs && s.cacheDir !in fails {
      CleanupRemoves(written, CleanupTargets(s), fails, s.cacheDir);
      CacheEntriesInCacheDir(s);
    }
  }

  /** The report's file name is one path component. */
  lemma ReportNameIsFolderName(brand: string, format: string)
    requires '/' !in format
    ensures IsFolderName(SafeBrandName(brand) + "_strategic_report." + format)
  {
    var file := SafeBrandName(brand) + "_strategic_report." + format;
    SafeBrandNameIsSafe(brand);
    assert forall c :: c in file ==> c in SafeBrandName(brand) || c in "_strategic_report." || c in format;
    assert |file| >= |"_strategic_report."|;
  }

  /** The two tables are not cache entries (their names end in `.csv`). */
  ghost predicate TablesApart(s: Settings)
  {
    forall n :: s.videosCsv != CachePath(s, n) && s.commentsCsv != CachePath(s, n)
  }

  lemma LoadedTablesApart(root: string, cfg: ConfigFile)
    ensures TablesApart(LoadSettings(root, cfg))
  {
    var s := LoadSettings(root, cfg);
    forall n | true ensures s.videosCsv != CachePath(s, n) && s.commentsCsv != CachePath(s, n) {
      JoinEndsWith(s.outputDir, s.safeBrand + "_discovered_videos.csv");
      JoinEndsWith(s.outputDir, s.safeBrand + "_raw_comments.csv");
      JoinEndsWith(s.cacheDir, CacheFileName(n));
      var v, c, e := s.videosCsv, s.commentsCsv, CachePath(s, n);
      assert v[|v| - 1] == 'v' && c[|c| - 1] == 'v' && e[|e| - 1] == 't';
    }
  }

  /** Resuming after a late failure: when Stage 1 ran to its end but the run
      did not complete (no summaries, a missing pro or HTML template, or no
      narrative), running the pipeline again with the same inputs loads the
      same tables and sends to the flash model exactly the batches that
      failed, writing nothing new to the cache for them unless they succeed. */
  lemma RerunAfterLateFailure(s: Settings, ai: GenAI, fmt: Formatting, tables: Tables, st0: FsState, fails: set<string>)
    requires s.batchSize > 0 && TemplateApart(s) && TablesApart(s)
    requires var inp := PipelineInputs(s, ai, fmt, tables, st0.files);
      inp.videos != [] && inp.comments != [] && Stage1(inp, st0.files).Ran? && !Stage1(inp, st0.files).state.aborted
    requires !PipelineRun(s, ai, fmt, tables, st0, fails).0.Completed?
    ensures var inp := PipelineInputs(s, ai, fmt, tables, st0.files);
      var st1 := Stage1(inp, st0.files).state;
      var r := PipelineRun(s, ai, fmt, tables, st0, fails).1;
      PipelineInputs(s, ai, fmt, tables, r.files) == inp
      && Stage1(inp, r.files) == Ran(st1.(attempted := st1.failed))
  {
    var inp := PipelineInputs(s, ai, fmt, tables, st0.files);
    var k := NumBatches(|inp.videos|, s.batchSize).value;
    var st1 := Stage1Upto(inp, st0.files, k);
    var r := PipelineRun(s, ai, fmt, tables, st0, fails).1;
    assert r.files == st1.files;
    UptoFrame(inp, st0.files, k, s.videosCsv);
    UptoFrame(inp, st0.files, k, s.commentsCsv);
    RerunRetriesOnlyFailures(inp, inp, st0.files, k);
  }
}
