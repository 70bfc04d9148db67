# yt-sentiment-analysis, modelled in Dafny

This project models the core of yt-sentiment-analysis, a Python tool that
analyses how a brand is perceived on YouTube. The model covers four parts.

- **The crawler** (`src/crawler.py`).
  - It runs one combined search query and reads at most three result pages.
  - It fetches the video details fifty ids at a time.
  - It drops videos whose title holds an excluded keyword, and videos below
    the minimum view count.
  - It scores engagement, sorts, and saves the first `max_results` rows.
- **The comment extractor** (`src/comment_extractor.py`).
  - For each discovered video, it fetches top-level comments page by page,
    up to a per-video cap.
  - It saves all of them in one table.
- **The single-shot analyzer** (`src/analyzer.py`).
  - It puts every comment and the table totals into one prompt.
  - It uploads the brand's audio files and asks the model for the report.
- **The cached, resumable two-stage pipeline** (`src/pipeline.py`).
  - Stage 1 cuts the videos into positional batches. It summarises each
    batch with the flash model, unless the batch's cache entry
    `batch_<n>_summary.txt` already exists. A non-empty summary is written
    to the cache.
  - Stage 2 synthesises the summaries with the pro model.
  - The report is the narrative plus an appendix of the fifteen most viewed
    videos.
  - After a complete run only, the audio, video and cache directories are
    removed, each on its own.

## Modelling approach

- **The filesystem (`FileStore.FileSystem`).**
  - It is a class with a map of files and a set of directories.
  - Operations that change it are methods with `modifies` clauses:
    `run_pipeline`, `_process_batches`, `_generate_report_file`, `_cleanup`,
    `run_crawler`, `extract_comments` and `run_analysis`.
  - Each such method is proved against a specification function, or states
    its whole new state directly. The lemmas about that function state what
    the source promises.
- **Loops stay loops.** The source's loops are methods with `while`/`for`
  loops and invariants:
  - the batch loop;
  - the media lookup;
  - the upload-readiness poll;
  - the search page loop;
  - the details chunk loop;
  - the filtering loop;
  - both comment loops;
  - the upload loop.
- **External services are oracles.** These are the YouTube Data API, the
  Gemini SDK, `pandas` CSV parsing and rendering, and `markdown`. Each is a
  total function passed in with the inputs, and a call that raises is `None`.
  - Paging services are finite sequences of answers, consumed in request
    order.
  - The upload poll sees the finite sequence of states the service reports
    for a file.
- **Python semantics are written out:**
  - POSIX `os.path.join`;
  - `str.replace`;
  - `split`/`strip`/`lower`;
  - `re.sub(r'\W+', '', …)`, over ASCII word characters;
  - `f"{n:,}"`;
  - `math.ceil(n / size)`, including the `ZeroDivisionError`;
  - `shutil.rmtree`.
- **File layout.** One module per file:
  - the shared data: `Records`, `Config`, `PipelineSettings`, `FileStore`,
    `Oracles` and `Placeholders`;
  - text, numbers and paths: `Text`, `Numerals`, `Paths` and `Slices`;
  - one module per stage of the source: the pipeline's `BatchStage`,
    `BatchCache`, `ReportStage`, `Cleanup` and `Pipeline`, then `Crawler`,
    `CommentExtractor` and `Analyzer`.

Behaviours of the source the model keeps as written:

- **The media file list** in the flash prompt is built from
  `os.path.basename` of each upload's resource name (`src/pipeline.py:193`).
  The analyzer's list is built from display names (`src/analyzer.py:196`).
- **Comment selection** for a batch is a filter on the comments table by the
  batch's video ids, so it keeps the table's order (`src/pipeline.py:131-132`).
- **A cache entry** is `batch_<n>_summary.txt` in the cache directory
  (`src/pipeline.py:117`), written directly with `open(path, 'w')`
  (`src/pipeline.py:154`).
- **A missing flash template** raises `FileNotFoundError` at the `open` of
  `_run_flash_analysis` (`src/pipeline.py:177`), outside its `try`. Nothing
  in Stage 1 catches it; `run_pipeline` does (`src/pipeline.py:96`), so the
  whole run stops. The model keeps this as the `Abort` decision.
- **An uploaded file** fails its batch in any state other than `ACTIVE` once
  it leaves `PROCESSING` (`src/pipeline.py:168-173`).
- **A batch size of 0** raises `ZeroDivisionError` in `math.ceil(len(videos_df)
  / self.batch_size)` (`src/pipeline.py:112`), which the `except` of
  `run_pipeline` does not name (`src/pipeline.py:96`).
- **Column names** are not checked when a table is loaded
  (`src/pipeline.py:99-108`); the model takes the tables as typed rows.

The cache lemmas `BatchCache.CacheMakesWorkAtMostOnce`,
`BatchCache.FailuresAreIsolated`, `BatchCache.CacheAfterRun`,
`BatchCache.RerunRetriesOnlyFailures` and `Pipeline.RerunAfterLateFailure`
require that the flash template is not itself a cache entry
(`BatchCache.TemplateApart`). `BatchCache.TemplateApartOfName` gives this
for every template path that does not end in `_summary.txt`.

## Model

| member | source | states |
|---|---|---|
| PipelineSettings.Initialize | src/pipeline.py:41-69 | a missing or empty API key fails and changes nothing; otherwise the settings are those derived from the root and the configuration, and only the cache directory is added |
| PipelineSettings.FolderLayout | src/pipeline.py:62-67 | with distinct folder names that are each one path component other than `.` and `..`, the audio, video and cache directories are inside the output directory and none lies inside another |
| PipelineSettings.DefaultFolderNames | src/pipeline.py:65-67 | the default names `audio`, `video` and `cache` are folder names; `.` and `..` are not |
| PipelineSettings.CacheEntriesInCacheDir | src/pipeline.py:117 | every batch's cache entry lies inside the cache directory |
| PipelineSettings.CachePathInjective | src/pipeline.py:117 | two batch numbers with the same cache path are equal, so each batch has an entry of its own |
| PipelineSettings.CacheIsNotMedia | src/pipeline.py:117-143 | no cache entry is the `.mp4` or `.mp3` path of any video |
| PipelineSettings.NotACacheEntry | src/pipeline.py:117 | a path not ending in `_summary.txt` is no batch's cache entry |
| Config.DeleteNonWord | src/pipeline.py:52 | the sanitised name is no longer than the input and holds only ASCII word characters |
| Config.DeleteNonWordAppend | src/pipeline.py:52 | the deletion distributes over concatenation, so the word characters of the input survive in their order |
| Config.DeleteNonWordOne | src/pipeline.py:52 | a single character is kept exactly when it is an ASCII word character |
| Config.SafeBrandNameOfWords | src/pipeline.py:52 | a name of word characters and spaces keeps its length, with every space replaced by `_` |
| Config.SafeBrandNameIsSafe | src/pipeline.py:52 | the safe brand name holds no `/` and no space, and sanitising it again changes nothing |
| Numerals.ReadThousandsOf | src/pipeline.py:220 | `f"{n:,}"` with the separators dropped reads back as `n` |
| Numerals.DecimalStringInjective | src/pipeline.py:117 | distinct batch numbers have distinct decimal strings |
| Paths.JoinInside | src/pipeline.py:62 | joining a relative name onto a directory gives a path inside it that ends with the name |
| FileStore.LoadTable | src/pipeline.py:99-108 | a missing file or a parse error gives the empty table; otherwise the parsed rows |
| Oracles.UploadAll | src/pipeline.py:190 | the uploads fail exactly when some upload raises; otherwise they give one remote file per path, in order |
| Oracles.Settled | src/pipeline.py:166-173 | the settled state is never `PROCESSING` and is one of the reported states; there is none exactly when every reported state is `PROCESSING` |
| Oracles.SettledAt | src/pipeline.py:166-173 | polling stops at the first state that is not `PROCESSING`: after a run of `PROCESSING` states, the next state is the settled one |
| BatchStage.NumBatches | src/pipeline.py:112 | fails exactly when the batch size is 0; a positive count `k` satisfies `(k-1)*size < n <= k*size` |
| BatchStage.BatchesPartition | src/pipeline.py:127-129 | the batches, concatenated, are the video table itself; each batch is non-empty and at most the batch size |
| BatchStage.VideoIds | src/pipeline.py:131 | the batch's ids are the ids of its videos, position by position |
| BatchStage.BatchComments | src/pipeline.py:132 | a comment row is selected exactly when it is in the table and belongs to a video of the batch |
| BatchStage.BatchCommentsAppend | src/pipeline.py:132 | the selection distributes over the rows of the table, so the selected rows keep their order and multiplicity |
| BatchStage.BatchCommentsOne | src/pipeline.py:132 | a single row is selected exactly when its video is in the batch |
| BatchStage.CommentTexts | src/pipeline.py:181 | a text is kept exactly when some comment row holds it; empty cells are dropped |
| BatchStage.CommentTextsAppend | src/pipeline.py:181 | `dropna` distributes over the rows, so the present texts keep their order and multiplicity |
| BatchStage.CommentTextsOne | src/pipeline.py:181 | a single row gives its text when it has one, and nothing otherwise |
| BatchStage.MediaChoice | src/pipeline.py:138-145 | a video gives its `.mp4` when it exists, else its `.mp3` when that exists, else nothing |
| BatchStage.ResolvedMedia | src/pipeline.py:135-146 | at most one file per video, and every file listed exists |
| BatchStage.ResolvedMediaAppend | src/pipeline.py:135-146 | the media list distributes over the batch's ids, so the videos contribute their files in batch order |
| BatchStage.ResolvedMediaOne | src/pipeline.py:138-146 | one video contributes exactly its media choice |
| BatchStage.AllVideosPresent | src/pipeline.py:138-141 | when every video of the batch has its `.mp4`, exactly those files are sent, in batch order |
| BatchStage.ResolveMedia | src/pipeline.py:135-146 | the media loop returns the resolved media of the batch's ids |
| BatchStage.WaitForFilesActive | src/pipeline.py:163-174 | the wait succeeds exactly when every uploaded file settles `ACTIVE` |
| BatchStage.RunFlashAnalysis | src/pipeline.py:176-201 | the flash analysis is the template missing or the model's answer for the two-phase prompt, with failures as `None` |
| BatchStage.FlashPlainTemplateSentAsIs | src/pipeline.py:183-197 | a flash template without `{` reaches the model unchanged, with the uploaded files, once every upload succeeded and settled `ACTIVE`; otherwise the answer is `None` |
| BatchStage.MediaListFilled | src/pipeline.py:183-195 | in a template with the media placeholder and no other `{`, the bulleted file names land exactly where the placeholder was |
| BatchStage.BothFileListsFilled | src/pipeline.py:183-195 | with both file-list placeholders and no other `{`, each is replaced by the same bulleted list of file names |
| BatchStage.FlashPromptListsMedia | src/pipeline.py:176-198 | for a template with the media placeholder, the model gets the template with the file list in its place and the uploaded files |
| BatchStage.FlashPromptListsMediaTwice | src/pipeline.py:176-198 | for a template with both file-list placeholders, the model gets the same file list in both places |
| BatchStage.AbortedStays | src/pipeline.py:177-178 | once a missing flash template stops the loop, no later batch changes the state |
| BatchStage.ProcessBatch | src/pipeline.py:116-159 | one batch is decided on the current files, and exactly a fresh summary is written to its cache entry |
| BatchStage.ProcessBatches | src/pipeline.py:110-161 | the batch loop equals the left fold of batch decisions over the evolving files; batch size 0 changes nothing |
| BatchCache.DecideShape | src/pipeline.py:119-124 | a batch is read from the cache exactly when its entry exists, and it reads the entry; the run stops exactly when there is neither entry nor template |
| BatchCache.DecideOnInitial | src/pipeline.py:117-124 | deciding batch `k` on the files the earlier batches left gives the decision made on the initial files |
| BatchCache.UptoIsRef | src/pipeline.py:110-161 | the batch loop equals the reference run in which every batch is decided on the initial files |
| BatchCache.OnlineIsInitial | src/pipeline.py:118-127 | every decision the loop makes, on the files as earlier batches left them, is the one it would make on the initial files |
| BatchCache.CacheMakesWorkAtMostOnce | src/pipeline.py:119-124 | a batch is sent to the flash model only when its entry was missing, each batch at most once, in order; every missing batch is sent unless a template was missing |
| BatchCache.FailuresAreIsolated | src/pipeline.py:153-159 | batch `n` fails exactly when its own decision is a failure; a failed batch gets no cache entry; the summaries are the batches' contributions in order |
| BatchCache.CacheAfterRun | src/pipeline.py:153-156 | after the run, a batch's entry exists exactly when it existed before, or when the batch was sent and did not fail; every other path is unchanged |
| BatchCache.RerunRetriesOnlyFailures | src/pipeline.py:110-161 | a rerun on the files a complete run left sends exactly the failed batches; with the same services, it is a fixed point |
| BatchCache.UptoFrame | src/pipeline.py:153-155 | the batch loop changes no path other than the cache entries of its batches |
| BatchCache.FlashOutcomeFrame | src/pipeline.py:176-201 | a batch's flash result depends only on the template and the media files |
| BatchCache.DecideFrame | src/pipeline.py:116-159 | two file sets that agree on a batch's entry, the template and the media give the same decision |
| BatchCache.TemplateApartOfName | src/pipeline.py:117 | a flash template whose path does not end in `_summary.txt` is none of the batches' cache entries |
| ReportStage.SynthesisBindings | src/pipeline.py:208-224 | there are nine substitutions, each keyed by a `{{…}}` placeholder |
| ReportStage.SummariesInPrompt | src/pipeline.py:208 | the summaries text holds the batch summaries in batch order with exactly one `---` section break between consecutive ones, and every summary occurs in it |
| ReportStage.TotalsInPrompt | src/pipeline.py:209-224 | the video count reads back as the number of rows, each total as its column's sum, and the extracted count as the comment count |
| ReportStage.Synthesis | src/pipeline.py:203-233 | a missing pro template is reported exactly when the template is absent; otherwise the result is the pro model's answer for the filled prompt, with no files |
| ReportStage.PlainTemplateSentAsIs | src/pipeline.py:216-224 | a pro template without `{` is sent unchanged |
| ReportStage.AppendixRows | src/pipeline.py:239-246 | the appendix has `min(15, n)` rows: the rows of the top videos by views, in rank order |
| ReportStage.AppendixRanksByViews | src/pipeline.py:240-244 | the appendix rows come from the table; their views read back as the videos' counts, non-increasing; no video left out has more views than any video listed |
| ReportStage.ReportMarkdown | src/pipeline.py:249 | the report is the narrative, the rule and the appendix header, followed directly by the appendix table, with nothing between them |
| ReportStage.ReportText | src/pipeline.py:251-260 | a non-html format writes the Markdown report; for html, the result is missing exactly when the HTML template is missing |
| ReportStage.HtmlFillsTemplate | src/pipeline.py:256-257 | in a template without any other `{`, the two replacements put the content exactly where its placeholder was |
| ReportStage.HtmlReportInTemplate | src/pipeline.py:251-258 | an html report is the rendered Markdown report inside such a template |
| ReportStage.GenerateReportFile | src/pipeline.py:235-264 | the report is written at its path exactly when its text exists; otherwise nothing changes |
| Cleanup.CleanupOnlyRemoves | src/pipeline.py:266-288 | the cleanup only removes: no file or directory appears, and no file's contents change |
| Cleanup.CleanupRemoves | src/pipeline.py:269-288 | every target that existed and does not fail is removed with everything inside it, whatever happens to the others |
| Cleanup.CleanupKeeps | src/pipeline.py:269-288 | a file inside no successfully removed target keeps its presence and contents; the same holds for a directory that is no such target |
| Cleanup.CleanupDirs | src/pipeline.py:266-288 | the cleanup method runs the three guarded removals in order |
| Cleanup.OutputFileSurvivesCleanup | src/pipeline.py:266-288 | with folder names that are each one path component other than `.` and `..`, a file directly in the output directory survives the cleanup unchanged |
| Cleanup.EmptyFolderNameHoldsOutputs | src/pipeline.py:65-67 | an empty folder name makes that folder the output directory itself, which holds every output file |
| Pipeline.RunPipeline | src/pipeline.py:72-97 | the run's outcome and final filesystem are those of the specification function of the whole run |
| Pipeline.UnfinishedRunKeepsFiles | src/pipeline.py:79-97 | a run stopped before Stage 1 changes nothing; a run that does not complete removes nothing and changes only cache entries |
| Pipeline.Stage1KeepsFiles | src/pipeline.py:110-161 | the batch loop writes no file other than a cache entry |
| Pipeline.CompletedRunWroteReport | src/pipeline.py:82-95 | a completed run had non-empty tables, a Stage 1 that was not stopped, non-empty summaries and a non-empty narrative; it wrote the report before the cleanup |
| Pipeline.CompletedRunKeepsReport | src/pipeline.py:92-95 | with folder names that are each one path component other than `.` and `..`, and a report format without `/`: after a completed run, the report exists, and a removable cache directory is gone with every cache entry |
| Pipeline.CleanupAfterReport | src/pipeline.py:92-95 | with folder names that are each one path component other than `.` and `..`, and a report format without `/`: the cleanup after writing keeps the report and removes a removable cache directory with its entries |
| Pipeline.ReportNameIsFolderName | src/pipeline.py:236 | the report's file name is one path component |
| Pipeline.RerunAfterLateFailure | src/pipeline.py:82-90 | after a late failure, a rerun loads the same tables and sends exactly the batches that failed |
| Records.SortDesc | src/pipeline.py:240 | the sort result is non-increasing in the column and is a permutation of its input |
| Records.TopByIsTop | src/pipeline.py:240 | `head(k)` of the ranking has `min(k, n)` rows from the table, ranked; no row left out is larger than a row kept |
| Records.EngagementTotal | src/crawler.py:181 | when each row's engagement is likes plus comments, so are the totals |
| Crawler.ParseModifiers | src/crawler.py:63 | one modifier per comma-separated field: the i-th is the i-th field without its leading and trailing whitespace, and holds no comma |
| Crawler.ParseExcludes | src/crawler.py:64 | one keyword per comma-separated field: the i-th is the lower-cased i-th field without its leading and trailing whitespace, lower case and without a comma |
| Crawler.ParseModifiersOfList | src/crawler.py:63 | a comma-joined list of stripped modifiers parses back to that list |
| Crawler.ParseExcludesOfList | src/crawler.py:64 | a comma-joined list of stripped lower-case keywords parses back to that list |
| Crawler.InitializeCrawler | src/crawler.py:46-73 | a missing or empty API key fails and changes nothing; otherwise the settings are loaded and only the output directory is added |
| Crawler.CrawlerWritesWherePipelineReads | src/crawler.py:70-72 | run from the project root, the crawler's output path is the pipeline's videos table |
| Crawler.QueryShape | src/crawler.py:85-86 | the query starts with the quoted terms and `(`, ends with `)`, and contains every modifier |
| Crawler.SearchVideoIds | src/crawler.py:90-113 | the page loop returns the reference set of ids and the tokens it requested |
| Crawler.SearchStep | src/crawler.py:94-113 | a page that fails ends the search with nothing; a last page ends it with its ids; otherwise its ids are added and the next token is requested |
| Crawler.RequestChain | src/crawler.py:94-113 | at most three requests, the first for the first page, each passing the token of the page before; the last one ends the search |
| Crawler.FoundIdsArePagesIds | src/crawler.py:105-106 | an id is found exactly when it is on one of the returned pages |
| Crawler.ListOfSet | src/crawler.py:120 | `list(set)` holds each id of the set exactly once |
| Crawler.DetailRequests | src/crawler.py:141-146 | there are `ceil(n/50)` requests, the k-th being the comma-joined k-th chunk of ids |
| Crawler.DetailResults | src/crawler.py:143-150 | each chunk contributes the items of its answer, or nothing when the request failed |
| Crawler.GetVideoDetails | src/crawler.py:137-151 | the chunk loop sends the details requests and returns the chunks' items in order |
| Crawler.DetailRequestsCoverIds | src/crawler.py:141-146 | split back on `,`, the requests give the id list in order, with 1 to 50 ids each |
| Crawler.DetailItemsFromAnswers | src/crawler.py:148-150 | an item is kept exactly when it is in a successful answer to one of the requests |
| Crawler.ProcessAndFilterVideos | src/crawler.py:153-185 | the filtering loop returns the rows of the kept videos, in order |
| Crawler.FilteredAppend | src/crawler.py:155-183 | filtering keeps order: it distributes over concatenation |
| Crawler.FilteredKeepsExactly | src/crawler.py:156-183 | a row is in the result exactly when it is the row of a video that passes both filters |
| Crawler.FilteredRowsAreSound | src/crawler.py:160-181 | every saved row has engagement equal to likes plus comments, the watch URL of its id, at least the minimum views, and no excluded keyword in its lower-cased title |
| Crawler.EmptyKeywordExcludesAll | src/crawler.py:160 | an empty exclude keyword matches every title, so nothing is kept |
| Crawler.EmptyExcludeOption | src/crawler.py:64 | an empty `exclude_keywords` option parses to the single empty keyword |
| Crawler.SortResults | src/crawler.py:187-194 | the rows are a permutation: by views or engagement, most first; any other `sort_by` keeps the order |
| Crawler.RunCrawler | src/crawler.py:78-135 | the listed ids are the found ids, each once; the outcome is the specification's; only a saved run writes, and only at the output path |
| Crawler.SavedRowsSpec | src/crawler.py:123-133 | a saved table has `min(max_results, n)` filtered rows, ranked as `sort_by` asks, and all of them when nothing is cut |
| CommentExtractor.FetchStep | src/comment_extractor.py:110-136 | one page contributes its first `Taken` items, then the fetch continues unless the page is the last one or the cap is reached |
| CommentExtractor.TakeFromPage | src/comment_extractor.py:120-132 | the inner loop appends the first `Taken` items of the page and counts them |
| CommentExtractor.FetchCommentsForVideo | src/comment_extractor.py:102-148 | the fetch loop returns the records of the reference fetch |
| CommentExtractor.FetchedIsCappedPrefix | src/comment_extractor.py:110-136 | below the cap, the fetched comments are the first `max - count` comments the service offers, in order |
| CommentExtractor.FetchedIsCapped | src/comment_extractor.py:130-132 | at most `max` comments per video when the cap is at least 1, and at most 1 otherwise |
| CommentExtractor.PerVideo | src/comment_extractor.py:79-87 | one comment list per row, each fetched for that row's id, title and url |
| CommentExtractor.ExtractComments | src/comment_extractor.py:59-100 | a missing input, an unreadable input or a missing `video_id` column each end the run with nothing changed; no comments ends it with nothing changed; otherwise the count is that of all comments, written at the output path, with the output directory created |
| CommentExtractor.AllCommentsAppend | src/comment_extractor.py:79-87 | the output keeps row order: the comments of `a ++ b` are those of `a`, then those of `b` |
| CommentExtractor.CommentsBelongToRows | src/comment_extractor.py:80-86 | every saved comment carries the id, title (or `Unknown Title`) and url (or the watch URL) of one input row |
| CommentExtractor.AllCommentsBounded | src/comment_extractor.py:79-87 | with a cap of at least 1, there are at most `max` comments per row |
| CommentExtractor.ExtractorPathsAreThePipelines | src/comment_extractor.py:52-56 | the extractor's input and output tables and its output directory are the pipeline's videos table, comments table and output directory (src/pipeline.py:63-64) |
| Analyzer.CommentsPathResolution | src/analyzer.py:80-85 | an unset or empty option gives the extractor's output; a relative one lies inside the project root and ends with the option; an absolute one is used as given |
| Analyzer.Mp3PathsMembers | src/analyzer.py:153 | a path is returned exactly when it is the directory joined with a listed `.mp3` name; there are no more paths than entries |
| Analyzer.Mp3PathsEndInMp3 | src/analyzer.py:153 | every audio path ends in `.mp3` |
| Analyzer.NoAudioDirectory | src/analyzer.py:150-151 | a missing audio directory gives no audio files |
| Analyzer.AudioFilesInsideDirectory | src/analyzer.py:147-153 | for entries without `/`, every audio path lies inside the audio directory |
| Analyzer.CommentsTextLines | src/analyzer.py:161 | when no comment holds a newline, the comments block splits back into one bullet per non-empty comment |
| Analyzer.ColumnTotalReadsBack | src/analyzer.py:165-168 | a formatted total reads back as its column's sum, or 0 for an empty table or a missing column |
| Analyzer.AnalysisTotals | src/analyzer.py:164-179 | the video count and the five totals in the prompt read back as their values under their own placeholders |
| Analyzer.PlainAnalysisTemplate | src/analyzer.py:172-179 | a template without `{` is sent unchanged |
| Analyzer.GenerateAnalysis | src/analyzer.py:183-204 | the upload loop and the call give the model's answer for the prompt with the file list filled in, or `None` when an upload raises |
| Analyzer.NoAudioEmptyList | src/analyzer.py:189-200 | without audio, the file-list placeholder becomes empty and no files are sent |
| Analyzer.AudioListLines | src/analyzer.py:196 | the file list splits back into one bullet per uploaded file's display name, in upload order |
| Analyzer.AnalysisReportSpec | src/analyzer.py:206-225 | a non-html format writes the answer unchanged; in html, the rendered answer lands where the content placeholder was |
| Analyzer.RunAnalysis | src/analyzer.py:91-121 | no comments stops before the model is called and writes nothing; a missing prompt template stops too; a missing or empty answer writes nothing; otherwise the report is written at its path |

## Left out

- The YouTube Data API, the Gemini SDK, `pandas` reading and rendering (`read_csv`, `to_csv`, `to_string`, `to_markdown`) and `markdown.markdown` are not modelled: they are external code. Each is an oracle parameter; a call that raises is `None` or a failed response.
- `src/downloader.py`, `src/audio_extractor.py`, `src/update_cookies.py`, `src/filter_videos.py` and `main.py` are not part of this model.
- `dotenv` and `configparser` are not modelled; the API key and the typed configuration options are parameters. A missing configuration file, a missing option and a non-integer value are not modelled.
- `print`, `tqdm`, `time.sleep` and `argparse` are not modelled; they have no effect on the state that is modelled.
- `re.sub(r'\W+', …)` is modelled over ASCII word characters only; Python's Unicode `\w` and `str.lower` case mappings beyond ASCII are not modelled.
- Oracles.Settled: the readiness poll sees a finite sequence of states. A file still `PROCESSING` at the end of the sequence counts as not `ACTIVE`, where the source would poll forever.
- CommentExtractor.FetchCommentsForVideo: the comment service is a finite sequence of answers per video. A request past its end counts as a failed request, where the real service always answers.
- Crawler.ListOfSet: the order of `list(set)` depends on Python's string hashing. The model leaves it open, and the run is stated for whatever order is chosen.
- Crawler.SortResults: `sort_values` uses an unstable sort, so the order among equal values is left open; only the ranking and the permutation are stated.
- Records.SortDesc: the order among rows with equal values is left open, for the same reason.
- CommentExtractor.LoadExtractorSettings: the fallback of 100 for a missing `max_results` is not modelled, because the option is always present in the configuration model.
- CommentExtractor.ExtractComments: the output directory is taken to be `<root>/outputs/<safe>`, the directory of the output path up to a trailing `/` when the safe name is empty. Creating it is modelled as adding it to the directory set.
- Analyzer.RunAnalysis and the pipeline: a table without the `texto_comentario`, `video_id` or numeric columns (a `KeyError`) is not modelled, because the tables come in as typed rows. Non-integer or missing numeric cells are not modelled either.
- Paths.PathJoin: `.` and `..` components and symbolic links are not resolved; paths are compared as strings. For a folder name `.` or `..` the source's `rmtree` reaches the output directory or its parent (src/pipeline.py:62-67, 266-288), while the model removes only the paths under the joined string. The layout and cleanup lemmas (`PipelineSettings.FolderLayout`, `Cleanup.OutputFileSurvivesCleanup`, `Pipeline.CompletedRunKeepsReport`, `Pipeline.CleanupAfterReport`) therefore require folder names other than these (`PipelineSettings.IsFolderName`).
- Analyzer.FindAudioFiles: the order of `os.listdir` is the file system's, and it comes in as a parameter. Non-file entries ending in `.mp3` are not distinguished.
- Writing a file is not modelled as failing (for example, when the directory is missing).
- FileStore.FileSystem.RemoveTree: a failing `shutil.rmtree` is modelled as removing nothing. The real call may already have deleted part of the tree before it raised, so `Cleanup.CleanupKeeps` promises more for a failed target than the source guarantees.
- `os.path.exists` is modelled as a lookup in the file map only. A directory named like a cache entry or like `<vid>.mp4` would also make the source's test true, and the model does not capture that.
- FileStore.FileSystem.MakeDirs: `os.makedirs` would also create the missing parent directories; the model adds only the named directory.
- Writing a cache entry is modelled as atomic.
- The upload and generate calls of the pipeline and the analyzer are not modelled with network time, retries or quotas.
