/** `GeminiBrandAnalyzer` (src/analyzer.py), the single-shot analysis: all
    comments and the table totals go into one prompt, the audio files of the
    brand are uploaded with it, and the model's answer is saved as the
    strategic report. */
module Analyzer {
  import opened Wrappers
  import opened Text
  import opened Numerals
  import opened Paths
  import opened Records
  import opened Config
  import opened Oracles
  import opened FileStore
  import opened PipelineSettings
  import opened Placeholders
  import opened ReportStage
  import BatchStage

  // ---------------------------------------------------------------------------
  // configuration
  // ---------------------------------------------------------------------------

  datatype AnalyzerSettings = AnalyzerSettings(
    projectRoot: string,
    brand: string,
    model: string,
    promptPath: string,
    reportFormat: string,
    safeBrand: string,
    outputDir: string,
    videosCsv: string,
    commentsPath: string,
    audioDir: string)

  /** The comments table: `comments_csv_path` joined onto the project root
      when it is set and not empty, otherwise `<safe>_raw_comments.csv` in the
      brand's output directory. */
  function CommentsPath(root: string, safe: string, configured: Option<string>): string
  {
    if configured == None || configured == Some("") then PathJoin(OutputDir(root, safe), safe + "_raw_comments.csv")
    else PathJoin(root, configured.value)
  }

  function LoadAnalyzerSettings(root: string, cfg: ConfigFile): AnalyzerSettings
  {
    var safe := SafeBrandName(cfg.searchTerms);
    var out := OutputDir(root, safe);
    AnalyzerSettings(
      projectRoot := root,
      brand := cfg.searchTerms,
      model := cfg.proModelName,
      promptPath := PathJoin(root, cfg.proPromptTemplatePath),
      reportFormat := cfg.reportFormat,
      safeBrand := safe,
      outputDir := out,
      videosCsv := PathJoin(out, safe + "_discovered_videos.csv"),
      commentsPath := CommentsPath(root, safe, cfg.commentsCsvPath),
      audioDir := PathJoin(out, cfg.audioFolderName.GetOr("audio")))
  }

  /** Where the comments are read from: by default the file the comment
      extractor writes and the pipeline reads; a configured relative path is
      taken inside the project root; a configured absolute path is used as
      it is. */
  lemma CommentsPathResolution(root: string, cfg: ConfigFile)
    ensures var p := LoadAnalyzerSettings(root, cfg).commentsPath;
      && (cfg.commentsCsvPath == None || cfg.commentsCsvPath == Some("") ==> p == LoadSettings(root, cfg).commentsCsv)
      && (cfg.commentsCsvPath.Some? && cfg.commentsCsvPath.value != "" && !StartsWith(cfg.commentsCsvPath.value, "/") ==>
            Within(root, p) && EndsWith(p, cfg.commentsCsvPath.value))
      && (cfg.commentsCsvPath.Some? && StartsWith(cfg.commentsCsvPath.value, "/") ==> p == cfg.commentsCsvPath.value)
  {
    if cfg.commentsCsvPath.Some? && !StartsWith(cfg.commentsCsvPath.value, "/") {
      JoinInside(root, cfg.commentsCsvPath.value);
    }
  }

  // ---------------------------------------------------------------------------
  // the audio files
  // ---------------------------------------------------------------------------

  /** `[os.path.join(d, f) for f in names if f.endswith('.mp3')]`. */
  function Mp3Paths(d: string, names: seq<string>): seq<string>
    decreases |names|
  {
    if names == [] then []
    else
      var last := names[|names| - 1];
      Mp3Paths(d, names[..|names| - 1]) + (if EndsWith(last, ".mp3") then [PathJoin(d, last)] else [])
  }

  /** `_find_audio_files`; `listing` is what `os.listdir(audio_dir)` returns
      (its order is the file system's). */
  function FindAudioFiles(dirs: set<string>, audioDir: string, listing: seq<string>): seq<string>
  {
    if audioDir !in dirs then [] else Mp3Paths(audioDir, listing)
  }

  /** Entry `name` of directory `d` yields the audio path `p`. */
  predicate Mp3Entry(d: string, name: string, p: string)
  {
    EndsWith(name, ".mp3") && p == PathJoin(d, name)
  }

  /** The audio files are exactly the `.mp3` entries of the directory, joined
      onto it; there are no more of them than entries. */
  lemma {:induction false} Mp3PathsMembers(d: string, names: seq<string>, p: string)
    ensures p in Mp3Paths(d, names) <==> exists i :: 0 <= i < |names| && Mp3Entry(d, names[i], p)
    ensures |Mp3Paths(d, names)| <= |names|
    decreases |names|
  {
    if names != [] {
      var init, last := names[..|names| - 1], names[|names| - 1];
      var tail := if EndsWith(last, ".mp3") then [PathJoin(d, last)] else [];
      assert Mp3Paths(d, names) == Mp3Paths(d, init) + tail;
      Mp3PathsMembers(d, init, p);
      if p in Mp3Paths(d, names) {
        if p in Mp3Paths(d, init) {
          var i :| 0 <= i < |init| && Mp3Entry(d, init[i], p);
          assert names[i] == init[i];
        } else {
          assert p in tail;
          assert Mp3Entry(d, names[|names| - 1], p);
        }
      }
      if exists i :: 0 <= i < |names| && Mp3Entry(d, names[i], p) {
        var i :| 0 <= i < |names| && Mp3Entry(d, names[i], p);
        if i < |init| {
          assert init[i] == names[i];
        } else {
          assert p in tail;
        }
      }
    }
  }

  /** Every path found ends in `.mp3`. */
  lemma Mp3PathsEndInMp3(d: string, names: seq<string>, p: string)
    requires p in Mp3Paths(d, names)
    ensures EndsWith(p, ".mp3")
  {
    Mp3PathsMembers(d, names, p);
    var i :| 0 <= i < |names| && Mp3Entry(d, names[i], p);
    var n := names[i];
    JoinEndsWith(d, n);
    EndsWithTransitive(p, n, ".mp3");
  }

  lemma NoAudioDirectory(dirs: set<string>, audioDir: string, listing: seq<string>)
    requires audioDir !in dirs
    ensures FindAudioFiles(dirs, audioDir, listing) == []
  {
  }

  /** Entries that are plain names give paths inside the audio directory. */
  lemma AudioFilesInsideDirectory(dirs: set<string>, audioDir: string, listing: seq<string>, p: string)
    requires forall i :: 0 <= i < |listing| ==> '/' !in listing[i]
    requires p in FindAudioFiles(dirs, audioDir, listing)
    ensures Within(audioDir, p) && EndsWith(p, ".mp3")
  {
    Mp3PathsMembers(audioDir, listing, p);
    Mp3PathsEndInMp3(audioDir, listing, p);
    var i :| 0 <= i < |listing| && Mp3Entry(audioDir, listing[i], p);
    assert !StartsWith(listing[i], "/") by {
      assert listing[i][0] in listing[i];
    }
    JoinInside(audioDir, listing[i]);
  }

  // ---------------------------------------------------------------------------
  // the prompt
  // ---------------------------------------------------------------------------

  /** The videos table as the analyzer reads it: the rows and which of the
      numeric columns it has. */
  datatype VideoFrame = VideoFrame(rows: seq<Video>, columns: set<Stat>)

  const EmptyFrame: VideoFrame := VideoFrame([], {})

  /** The comments block reads back, line by line, as one bullet per
      non-empty comment, when no comment spans several lines. */
  lemma CommentsTextLines(comments: seq<CommentRow>)
    requires exists i :: 0 <= i < |comments| && comments[i].text.Some?
    requires forall i :: 0 <= i < |comments| && comments[i].text.Some? ==> '\n' !in comments[i].text.value
    ensures Split(BatchStage.CommentsText(comments), '\n') == Bullets(BatchStage.CommentTexts(comments))
  {
    var ts := BatchStage.CommentTexts(comments);
    forall j | 0 <= j < |ts| ensures '\n' !in ts[j] {
      assert ts[j] in ts;
      var x :| x in comments && x.text == Some(ts[j]);
      var i :| 0 <= i < |comments| && comments[i] == x;
    }
    var k :| 0 <= k < |comments| && comments[k].text.Some?;
    assert comments[k] in comments;
    assert comments[k].text.value in ts;
    BulletListLines(ts);
  }

  /** A column total: 0 for an empty table or a missing column. */
  function ColumnTotal(vf: VideoFrame, s: Stat): nat
  {
    if vf.rows == [] || s !in vf.columns then 0 else Total(vf.rows, s)
  }

  /** The eight substitutions of `_prepare_prompt`, in the order they are made. */
  function AnalysisBindings(brand: string, comments: seq<CommentRow>, vf: VideoFrame): seq<(string, string)>
  {
    [(BrandPlaceholder, brand),
     (CommentsPlaceholder, BatchStage.CommentsText(comments)),
     (TotalVideosPlaceholder, DecimalString(|vf.rows|)),
     (TotalViewsPlaceholder, Thousands(ColumnTotal(vf, Views))),
     (TotalLikesPlaceholder, Thousands(ColumnTotal(vf, Likes))),
     (TotalCommentsPlaceholder, Thousands(ColumnTotal(vf, Comments))),
     (TotalEngagementPlaceholder, Thousands(ColumnTotal(vf, Engagement))),
     (TotalExtractedPlaceholder, Thousands(|comments|))]
  }

  /** `_prepare_prompt` on the template text. */
  function PreparePrompt(template: string, brand: string, comments: seq<CommentRow>, vf: VideoFrame): string
  {
    Substitute(template, AnalysisBindings(brand, comments, vf))
  }

  /** A column total reads back (separators dropped) as the column's sum,
      or as 0 when the table is empty or lacks the column. */
  lemma ColumnTotalReadsBack(vf: VideoFrame, s: Stat)
    ensures ReadThousands(Thousands(ColumnTotal(vf, s))) == Some(if vf.rows == [] || s !in vf.columns then 0 else Total(vf.rows, s))
  {
    ReadThousandsOf(ColumnTotal(vf, s));
  }

  /** The numbers put into the prompt: the video count, the four column
      totals (0 for an empty table or a missing column) and the number of
      comment rows, empty cells included, each reading back as its value. */
  lemma AnalysisTotals(brand: string, comments: seq<CommentRow>, vf: VideoFrame)
    ensures var b := AnalysisBindings(brand, comments, vf);
      && |b| == 8 && b[2].0 == TotalVideosPlaceholder && ParseDecimal(b[2].1) == |vf.rows|
    ensures var b := AnalysisBindings(brand, comments, vf);
      && b[3].0 == TotalViewsPlaceholder
      && ReadThousands(b[3].1) == Some(if vf.rows == [] || Views !in vf.columns then 0 else Total(vf.rows, Views))
    ensures var b := AnalysisBindings(brand, comments, vf);
      && b[4].0 == TotalLikesPlaceholder
      && ReadThousands(b[4].1) == Some(if vf.rows == [] || Likes !in vf.columns then 0 else Total(vf.rows, Likes))
    ensures var b := AnalysisBindings(brand, comments, vf);
      && b[5].0 == TotalCommentsPlaceholder
      && ReadThousands(b[5].1) == Some(if vf.rows == [] || Comments !in vf.columns then 0 else Total(vf.rows, Comments))
    ensures var b := AnalysisBindings(brand, comments, vf);
      && b[6].0 == TotalEngagementPlaceholder
      && ReadThousands(b[6].1) == Some(if vf.rows == [] || Engagement !in vf.columns then 0 else Total(vf.rows, Engagement))
    ensures var b := AnalysisBindings(brand, comments, vf);
      b[7].0 == TotalExtractedPlaceholder && ReadThousands(b[7].1) == Some(|comments|)
  {
    var b := AnalysisBindings(brand, comments, vf);
    var v, l, c, e := ColumnTotal(vf, Views), ColumnTotal(vf, Likes), ColumnTotal(vf, Comments), ColumnTotal(vf, Engagement);
    assert b[2] == (TotalVideosPlaceholder, DecimalString(|vf.rows|));
    assert b[3] == (TotalViewsPlaceholder, Thousands(v)) && b[4] == (TotalLikesPlaceholder, Thousands(l));
    assert b[5] == (TotalCommentsPlaceholder, Thousands(c)) && b[6] == (TotalEngagementPlaceholder, Thousands(e));
    assert b[7] == (TotalExtractedPlaceholder, Thousands(|comments|));
    ParseDecimalString(|vf.rows|);
    ColumnTotalReadsBack(vf, Views);
    ColumnTotalReadsBack(vf, Likes);
    ColumnTotalReadsBack(vf, Comments);
    ColumnTotalReadsBack(vf, Engagement);
    ReadThousandsOf(|comments|);
  }

  /** A template without any `{` is sent as it is. */
  lemma PlainAnalysisTemplate(template: string, brand: string, comments: seq<CommentRow>, vf: VideoFrame)
    requires '{' !in template
    ensures PreparePrompt(template, brand, comments, vf) == template
  {
    SubstituteUntouched(template, AnalysisBindings(brand, comments, vf));
  }

  // ---------------------------------------------------------------------------
  // the model call
  // ---------------------------------------------------------------------------

  function DisplayNames(files: seq<RemoteFile>): (r: seq<string>)
    ensures |r| == |files|
    ensures forall i :: 0 <= i < |files| ==> r[i] == files[i].displayName
  {
    seq(|files|, i requires 0 <= i < |files| => files[i].displayName)
  }

  /** `"\n".join(f"- {f.display_name}" for f in uploaded)`. */
  function AudioList(files: seq<RemoteFile>): string
  {
    BulletList(DisplayNames(files))
  }

  /** What `_generate_analysis` sends and gets back: `None` when an upload or
      the call raises. */
  function AnalysisAnswer(ai: GenAI, model: string, prompt: string, audio: seq<string>): Option<string>
  {
    match UploadAll(ai, audio)
    case None => None
    case Some(up) => ai.generate(model, Replace(prompt, AudioListPlaceholder, AudioList(up)), up)
  }

  /** `_generate_analysis`: uploads the audio files one by one, then sends the
      prompt with the file list put in, followed by the uploaded files. */
  method GenerateAnalysis(ai: GenAI, model: string, prompt: string, audio: seq<string>) returns (r: Option<string>)
    ensures r == AnalysisAnswer(ai, model, prompt, audio)
  {
    var uploaded: seq<RemoteFile> := [];
    for i := 0 to |audio|
      invariant |uploaded| == i
      invariant forall j :: 0 <= j < i ==> ai.upload(audio[j]) == Some(uploaded[j])
    {
      var f := ai.upload(audio[i]);
      if f.None? {
        assert UploadAll(ai, audio).None?;
        return None;
      }
      uploaded := uploaded + [f.value];
    }
    assert UploadAll(ai, audio).Some?;
    assert UploadAll(ai, audio).value == uploaded by {
      var got := UploadAll(ai, audio).value;
      assert forall j :: 0 <= j < |audio| ==> got[j] == uploaded[j];
    }
    var fileList := AudioList(uploaded);
    var finalPrompt := Replace(prompt, AudioListPlaceholder, fileList);
    r := ai.generate(model, finalPrompt, uploaded);
  }

  /** Without audio the file list is empty: the placeholder is removed and the
      model gets the prompt alone. */
  lemma NoAudioEmptyList(ai: GenAI, model: string, prompt: string)
    ensures AnalysisAnswer(ai, model, prompt, []) == ai.generate(model, Replace(prompt, AudioListPlaceholder, ""), [])
  {
    assert UploadAll(ai, []) == Some([]);
    assert AudioList([]) == "";
  }

  /** The file list names every uploaded file, one bullet per line, in upload order. */
  lemma AudioListLines(files: seq<RemoteFile>)
    requires files != []
    requires forall i :: 0 <= i < |files| ==> '\n' !in files[i].displayName
    ensures Split(AudioList(files), '\n') == Bullets(DisplayNames(files))
  {
    BulletListLines(DisplayNames(files));
  }

  // ---------------------------------------------------------------------------
  // the run
  // ---------------------------------------------------------------------------

  /** `os.path.join(output_dir, f"{safe}_strategic_report.{format}")`. */
  function AnalysisReportPath(a: AnalyzerSettings): string
  {
    PathJoin(a.outputDir, a.safeBrand + "_strategic_report." + a.reportFormat)
  }

  /** What `_generate_report` writes: the answer itself, or for `html` the
      answer rendered and put in the report template (`None` when the
      template is missing, which raises `FileNotFoundError`). */
  function AnalysisReport(a: AnalyzerSettings, files: map<string, string>, toHtml: string -> string, answer: string)
    : Option<string>
  {
    if a.reportFormat != "html" then Some(answer)
    else
      var path := HtmlTemplatePath(a.projectRoot);
      if path !in files then None
      else Some(Replace(Replace(files[path], BrandPlaceholder, a.brand), ContentPlaceholder, toHtml(answer)))
  }

  /** In a template with no other `{`, the answer lands where the content
      placeholder is; any other format writes the answer unchanged. */
  lemma AnalysisReportSpec(a: AnalyzerSettings, files: map<string, string>, toHtml: string -> string, answer: string,
                           pre: string, post: string)
    requires '{' !in pre && '{' !in post
    ensures a.reportFormat != "html" ==> AnalysisReport(a, files, toHtml, answer) == Some(answer)
    ensures a.reportFormat == "html" && HtmlTemplatePath(a.projectRoot) in files
            && files[HtmlTemplatePath(a.projectRoot)] == pre + ContentPlaceholder + post
            ==> AnalysisReport(a, files, toHtml, answer) == Some(pre + toHtml(answer) + post)
  {
    HtmlFillsTemplate(pre, post, a.brand, toHtml(answer));
  }

  /** How `run_analysis` ends: no comments; a template missing
      (`FileNotFoundError`); no answer from the model; or the report saved. */
  datatype AnalysisOutcome = NoComments | MissingTemplate(path: string) | AnalysisFailed | ReportSaved(path: string)

  /** `run_analysis`. `comments` and `videos` are what `pd.read_csv` returns
      for the two tables (`None` when it raises), `listing` what
      `os.listdir` returns for the audio directory, and `toHtml` is
      `markdown.markdown`. Also returns the prompt prepared for the model, `None`
      when the run stops before the prompt is prepared. */
  method RunAnalysis(fs: FileSystem, a: AnalyzerSettings, ai: GenAI, comments: Option<seq<CommentRow>>,
                     videos: Option<VideoFrame>, listing: seq<string>, toHtml: string -> string)
    returns (out: AnalysisOutcome, sent: Option<string>)
    modifies fs
    ensures var cs := LoadTable(old(fs.files), a.commentsPath, comments);
      cs == [] ==> out == NoComments && sent == None
    ensures var cs := LoadTable(old(fs.files), a.commentsPath, comments);
      cs != [] && a.promptPath !in old(fs.files) ==> out == MissingTemplate(a.promptPath) && sent == None
    ensures var cs := LoadTable(old(fs.files), a.commentsPath, comments);
      var vf := if a.videosCsv !in old(fs.files) then EmptyFrame else videos.GetOr(EmptyFrame);
      var audio := FindAudioFiles(old(fs.dirs), a.audioDir, listing);
      cs != [] && a.promptPath in old(fs.files) ==>
        var prompt := PreparePrompt(old(fs.files)[a.promptPath], a.brand, cs, vf);
        var answer := AnalysisAnswer(ai, a.model, prompt, audio);
        && sent == Some(prompt)
        && (answer.None? || answer == Some("") ==> out == AnalysisFailed)
        && (answer.Some? && answer != Some("") ==>
              match AnalysisReport(a, old(fs.files), toHtml, answer.value)
              case None => out == MissingTemplate(HtmlTemplatePath(a.projectRoot))
              case Some(text) =>
                out == ReportSaved(AnalysisReportPath(a)) && fs.files == old(fs.files)[AnalysisReportPath(a) := text])
    ensures !out.ReportSaved? ==> fs.files == old(fs.files)
    ensures fs.dirs == old(fs.dirs)
  {
    sent := None;
    var cs := LoadTable(fs.files, a.commentsPath, comments);
    if cs == [] {
      return NoComments, sent;
    }
    var vf := if a.videosCsv !in fs.files then EmptyFrame else videos.GetOr(EmptyFrame);
    var audio := FindAudioFiles(fs.dirs, a.audioDir, listing);
    if a.promptPath !in fs.files {
      return MissingTemplate(a.promptPath), sent;
    }
    var prompt := PreparePrompt(fs.files[a.promptPath], a.brand, cs, vf);
    sent := Some(prompt);
    var answer := GenerateAnalysis(ai, a.model, prompt, audio);
    if answer.None? || answer == Some("") {
      return AnalysisFailed, sent;
    }
    var report := AnalysisReport(a, fs.files, toHtml, answer.value);
    if report.None? {
      return MissingTemplate(HtmlTemplatePath(a.projectRoot)), sent;
    }
    fs.WriteFile(AnalysisReportPath(a), report.value);
    return ReportSaved(AnalysisReportPath(a)), sent;
  }
}
