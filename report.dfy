/** Stage 2 of the pipeline (`_synthesize_report`, `_generate_report_file`):
    the batch summaries and the totals of the two tables are put into the pro
    model's prompt; the narrative it returns, followed by an appendix of the
    fifteen most viewed videos, is the report, written as Markdown or inside
    an HTML template. */
module ReportStage {
  import opened Wrappers
  import opened Text
  import opened Numerals
  import opened Paths
  import opened Slices
  import opened Records
  import opened Oracles
  import opened FileStore
  import opened PipelineSettings
  import opened BatchStage
  import opened Placeholders

  /** What separates two batch summaries in the prompt, and the narrative from
      the appendix in the report. */
  const SectionBreak: string := "\n\n---\n\n"

  // ---------------------------------------------------------------------------
  // synthesis
  // ---------------------------------------------------------------------------

  /** The nine substitutions of the pro prompt, in the order they are made:
      the video count as a plain decimal and every other total with
      thousands separators. */
  function SynthesisBindings(brand: string, summaries: seq<string>, videos: seq<Video>, extracted: nat)
    : (b: seq<(string, string)>)
    ensures |b| == 9
    ensures forall i :: 0 <= i < |b| ==> |b[i].0| > 0 && b[i].0[0] == '{'
  {
    [(BrandPlaceholder, brand), (TopicPlaceholder, brand),
     (SummariesPlaceholder, Join(SectionBreak, summaries)),
     (TotalVideosPlaceholder, DecimalString(|videos|)),
     (TotalViewsPlaceholder, Thousands(Total(videos, Views))),
     (TotalLikesPlaceholder, Thousands(Total(videos, Likes))),
     (TotalCommentsPlaceholder, Thousands(Total(videos, Comments))),
     (TotalEngagementPlaceholder, Thousands(Total(videos, Engagement))),
     (TotalExtractedPlaceholder, Thousands(extracted))]
  }

  /** The text put in place of the summaries placeholder holds the batch
      summaries in batch order with exactly one section break between
      consecutive ones: a single summary is the text itself, and cut before
      summary `i` the text is the summaries before it, one break, and the
      rest. In particular every summary occurs in it. */
  lemma SummariesInPrompt(brand: string, summaries: seq<string>, videos: seq<Video>, extracted: nat)
    ensures var b := SynthesisBindings(brand, summaries, videos, extracted);
      && (summaries == [] ==> b[2].1 == "")
      && (|summaries| == 1 ==> b[2].1 == summaries[0])
      && (forall i :: 0 < i < |summaries| ==>
            b[2].1 == Join(SectionBreak, summaries[..i]) + SectionBreak + Join(SectionBreak, summaries[i..]))
      && (forall i :: 0 <= i < |summaries| ==> Contains(b[2].1, summaries[i]))
  {
    forall i | 0 <= i < |summaries| ensures Contains(Join(SectionBreak, summaries), summaries[i]) {
      JoinContainsParts(SectionBreak, summaries, i);
    }
    forall i | 0 < i < |summaries|
      ensures Join(SectionBreak, summaries) == Join(SectionBreak, summaries[..i]) + SectionBreak + Join(SectionBreak, summaries[i..])
    {
      JoinAt(SectionBreak, summaries, i);
    }
  }

  /** The numbers in the prompt are the totals of the tables: the video count
      reads back as the number of rows and each total, separators dropped,
      reads back as the column's sum. */
  lemma TotalsInPrompt(brand: string, summaries: seq<string>, videos: seq<Video>, extracted: nat)
    ensures var b := SynthesisBindings(brand, summaries, videos, extracted);
      ParseDecimal(b[3].1) == |videos|
      && ReadThousands(b[4].1) == Some(Total(videos, Views))
      && ReadThousands(b[5].1) == Some(Total(videos, Likes))
      && ReadThousands(b[6].1) == Some(Total(videos, Comments))
      && ReadThousands(b[7].1) == Some(Total(videos, Engagement))
      && ReadThousands(b[8].1) == Some(extracted)
  {
    TotalBindings(brand, summaries, videos, extracted);
    ParseDecimalString(|videos|);
    ReadThousandsOf(Total(videos, Views));
    ReadThousandsOf(Total(videos, Likes));
    ReadThousandsOf(Total(videos, Comments));
    ReadThousandsOf(Total(videos, Engagement));
    ReadThousandsOf(extracted);
  }

  /** The texts bound to the six totals placeholders. */
  lemma TotalBindings(brand: string, summaries: seq<string>, videos: seq<Video>, extracted: nat)
    ensures var b := SynthesisBindings(brand, summaries, videos, extracted);
      b[3].1 == DecimalString(|videos|) && b[4].1 == Thousands(Total(videos, Views))
      && b[5].1 == Thousands(Total(videos, Likes)) && b[6].1 == Thousands(Total(videos, Comments))
      && b[7].1 == Thousands(Total(videos, Engagement)) && b[8].1 == Thousands(extracted)
  {
  }

  /** `_synthesize_report`: a missing pro template raises `FileNotFoundError`;
      otherwise the result is the model's answer, `None` when the call raises. */
  datatype SynthesisResult = NoProTemplate | Synthesized(text: Option<string>)

  function SynthesisPrompt(inp: Inputs, template: string, summaries: seq<string>): string
  {
    Substitute(template, SynthesisBindings(inp.s.brand, summaries, inp.videos, |inp.comments|))
  }

  function Synthesis(inp: Inputs, files: map<string, string>, summaries: seq<string>): (r: SynthesisResult)
    ensures r == NoProTemplate <==> inp.s.proPromptPath !in files
    ensures r.Synthesized? ==>
              r.text == inp.ai.generate(inp.s.proModel, SynthesisPrompt(inp, files[inp.s.proPromptPath], summaries), [])
  {
    if inp.s.proPromptPath !in files then NoProTemplate
    else Synthesized(inp.ai.generate(inp.s.proModel, SynthesisPrompt(inp, files[inp.s.proPromptPath], summaries), []))
  }

  /** A pro template without any `{` is sent to the model as it is. */
  lemma PlainTemplateSentAsIs(inp: Inputs, template: string, summaries: seq<string>)
    requires '{' !in template
    ensures SynthesisPrompt(inp, template, summaries) == template
  {
    SubstituteUntouched(template, SynthesisBindings(inp.s.brand, summaries, inp.videos, |inp.comments|));
  }

  // ---------------------------------------------------------------------------
  // the report file
  // ---------------------------------------------------------------------------

  const AppendixSize: nat := 15
  const AppendixHeader: string :=
    "## Ap\U{ea}ndice: Top 15 V\U{ed}deos Analisados por Visualiza\U{e7}\U{f5}es\n\n"

  /** One appendix row: the title, the channel, and the three counts written
      with thousands separators. */
  function AppendixRowOf(v: Video): AppendixRow
  {
    AppendixRow(v.title, v.channel, Thousands(v.views), Thousands(v.likes), Thousands(v.comments))
  }

  /** The appendix: the fifteen most viewed videos, most viewed first. */
  function AppendixRows(videos: seq<Video>): (r: seq<AppendixRow>)
    ensures |r| == Min(AppendixSize, |videos|)
    ensures forall i :: 0 <= i < |r| ==> r[i] == AppendixRowOf(TopBy(videos, Views, AppendixSize)[i])
  {
    var top := TopBy(videos, Views, AppendixSize);
    TopByIsTop(videos, Views, AppendixSize);
    seq(|top|, i requires 0 <= i < |top| => AppendixRowOf(top[i]))
  }

  /** The appendix is a ranking by views: at most fifteen rows, one per
      distinct row of the table; their view counts, read back, are the
      videos' counts in non-increasing order; and no video left out has more
      views than any video listed. */
  lemma AppendixRanksByViews(videos: seq<Video>)
    ensures var rows, top := AppendixRows(videos), TopBy(videos, Views, AppendixSize);
      |rows| == Min(AppendixSize, |videos|)
      && multiset(top) <= multiset(videos)
      && (forall i :: 0 <= i < |rows| ==>
            (ReadThousands(rows[i].views) == Some(top[i].views)
             && rows[i].title == top[i].title && rows[i].channel == top[i].channel))
      && (forall i, j :: 0 <= i < j < |rows| ==> top[i].views >= top[j].views)
      && (forall x, i :: x in multiset(videos) - multiset(top) && 0 <= i < |rows| ==> x.views <= top[i].views)
  {
    var rows, top := AppendixRows(videos), TopBy(videos, Views, AppendixSize);
    TopByIsTop(videos, Views, AppendixSize);
    forall i | 0 <= i < |rows| ensures ReadThousands(rows[i].views) == Some(top[i].views) {
      ReadThousandsOf(top[i].views);
    }
    forall x, i | x in multiset(videos) - multiset(top) && 0 <= i < |rows| ensures x.views <= top[i].views {
      assert top[i] in top;
      assert StatOf(x, Views) <= StatOf(top[i], Views);
    }
    forall i, j | 0 <= i < j < |rows| ensures top[i].views >= top[j].views {
      assert StatOf(top[i], Views) >= StatOf(top[j], Views);
    }
  }

  /** The Markdown report: the narrative, a rule, the appendix header and table. */
  function ReportMarkdown(fmt: Formatting, narrative: string, videos: seq<Video>): (r: string)
    ensures StartsWith(r, narrative + SectionBreak + AppendixHeader)
    ensures EndsWith(r, fmt.appendixTable(AppendixRows(videos)))
    ensures |r| == |narrative + SectionBreak + AppendixHeader| + |fmt.appendixTable(AppendixRows(videos))|
  {
    var head := narrative + SectionBreak + AppendixHeader;
    var table := fmt.appendixTable(AppendixRows(videos));
    assert (head + table)[..|head|] == head;
    assert (head + table)[|head + table| - |table|..] == table;
    head + table
  }

  /** `os.path.join(project_root, 'templates', 'strategic_report_template.html')`. */
  function HtmlTemplatePath(root: string): string
  {
    PathJoin(PathJoin(root, "templates"), "strategic_report_template.html")
  }

  /** `os.path.join(output_dir, f"{safe}_strategic_report.{format}")`. */
  function ReportPath(s: Settings): string
  {
    PathJoin(s.outputDir, s.safeBrand + "_strategic_report." + s.reportFormat)
  }

  /** What `_generate_report_file` writes: for the format `html`, the HTML
      template with the brand and then the rendered Markdown put in (`None`
      when the template is missing, which raises `FileNotFoundError`); for any
      other format, the Markdown itself. */
  function ReportText(inp: Inputs, files: map<string, string>, narrative: string): (r: Option<string>)
    ensures inp.s.reportFormat != "html" ==> r == Some(ReportMarkdown(inp.fmt, narrative, inp.videos))
    ensures inp.s.reportFormat == "html" ==> (r.None? <==> HtmlTemplatePath(inp.s.projectRoot) !in files)
  {
    var md := ReportMarkdown(inp.fmt, narrative, inp.videos);
    if inp.s.reportFormat == "html" then
      var path := HtmlTemplatePath(inp.s.projectRoot);
      if path !in files then None
      else Some(Replace(Replace(files[path], BrandPlaceholder, inp.s.brand), ContentPlaceholder, inp.fmt.markdownToHtml(md)))
    else Some(md)
  }

  /** The brand placeholder does not occur in the content placeholder
      followed by text without `{`. */
  lemma NoBrandInContent(post: string, brand: string)
    requires '{' !in post
    ensures Replace(ContentPlaceholder + post, BrandPlaceholder, brand) == ContentPlaceholder + post
  {
    var x := "ANALYSIS_CONTENT}}" + post;
    assert ContentPlaceholder + post == "{{" + x;
    assert '{' !in "ANALYSIS_CONTENT}}";
    ReplaceOtherPlaceholder(x, BrandPlaceholder, brand);
  }

  /** The two `replace` calls of the HTML branch put the rendered report
      where the content placeholder is, in a template that has no other `{`. */
  lemma HtmlFillsTemplate(pre: string, post: string, brand: string, html: string)
    requires '{' !in pre && '{' !in post
    ensures Replace(Replace(pre + ContentPlaceholder + post, BrandPlaceholder, brand), ContentPlaceholder, html)
              == pre + html + post
  {
    var c, b := ContentPlaceholder, BrandPlaceholder;
    assert pre + c + post == pre + (c + post);
    NoBrandInContent(post, brand);
    ReplacePlainPrefix(pre, c + post, b, brand);
    ReplacePlainPrefix(pre, c + post, c, html);
    ReplaceAtStart(c, post, html);
    ReplacePlain(post, c, html);
  }

  /** With such a template, the HTML report is the rendered Markdown report
      inside it. */
  lemma HtmlReportInTemplate(inp: Inputs, files: map<string, string>, narrative: string, pre: string, post: string)
    requires inp.s.reportFormat == "html"
    requires '{' !in pre && '{' !in post
    requires HtmlTemplatePath(inp.s.projectRoot) in files
    requires files[HtmlTemplatePath(inp.s.projectRoot)] == pre + ContentPlaceholder + post
    ensures ReportText(inp, files, narrative)
              == Some(pre + inp.fmt.markdownToHtml(ReportMarkdown(inp.fmt, narrative, inp.videos)) + post)
  {
    HtmlFillsTemplate(pre, post, inp.s.brand, inp.fmt.markdownToHtml(ReportMarkdown(inp.fmt, narrative, inp.videos)));
  }

  /** `_generate_report_file`: `ok` is false when the HTML template is missing
      (nothing is written); otherwise the report is written to its path. */
  method GenerateReportFile(fs: FileSystem, inp: Inputs, narrative: string) returns (ok: bool)
    modifies fs
    ensures ok == ReportText(inp, old(fs.files), narrative).Some?
    ensures fs.files == if ok then old(fs.files)[ReportPath(inp.s) := ReportText(inp, old(fs.files), narrative).value]
                        else old(fs.files)
    ensures fs.dirs == old(fs.dirs)
  {
    var outputPath := ReportPath(inp.s);
    var fullReport := ReportMarkdown(inp.fmt, narrative, inp.videos);
    var content := fullReport;
    if inp.s.reportFormat == "html" {
      var html := inp.fmt.markdownToHtml(fullReport);
      var templatePath := HtmlTemplatePath(inp.s.projectRoot);
      if templatePath !in fs.files {
        return false;
      }
      var final := Replace(fs.files[templatePath], BrandPlaceholder, inp.s.brand);
      final := Replace(final, ContentPlaceholder, html);
      content := final;
    }
    fs.WriteFile(outputPath, content);
    return true;
  }
}
