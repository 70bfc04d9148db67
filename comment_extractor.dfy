/** `YouTubeCommentExtractor` (src/comment_extractor.py): for every row of
    the discovered-videos table, the top-level comments of that video, page
    by page up to a per-video cap, all concatenated into
    `<safe>_raw_comments.csv`. */
module CommentExtractor {
  import opened Wrappers
  import opened Slices
  import opened Paths
  import opened Records
  import opened Config
  import opened FileStore
  import opened PipelineSettings

  /** `item['snippet']['topLevelComment']['snippet']`: the three fields kept. */
  datatype CommentItem = CommentItem(text: string, author: string, publishedAt: string)

  /** One `commentThreads().list(...).execute()`: the items and
      `nextPageToken`, or any exception (`HttpError` or other). */
  datatype CommentResponse = CommentPage(items: seq<CommentItem>, next: Option<string>) | FetchError

  /** The answers the comment-threads endpoint gives for a video id, one per
      request in the order the requests are made (each request passing the
      token of the page before); a request past the end of the sequence
      fails. */
  type ThreadsApi = string -> seq<CommentResponse>

  /** One row of the output table. */
  datatype CommentRecord = CommentRecord(
    videoId: string,
    videoTitle: string,
    videoUrl: string,
    text: string,
    author: string,
    publishedAt: string)

  /** The records of some comments of one video. */
  function RecordOf(vid: string, title: string, url: string, c: CommentItem): CommentRecord
  {
    CommentRecord(vid, title, url, c.text, c.author, c.publishedAt)
  }

  function RecordsOf(vid: string, title: string, url: string, items: seq<CommentItem>): (r: seq<CommentRecord>)
    ensures |r| == |items|
    ensures forall i :: 0 <= i < |items| ==> r[i] == RecordOf(vid, title, url, items[i])
  {
    if items == [] then []
    else RecordsOf(vid, title, url, items[..|items| - 1]) + [RecordOf(vid, title, url, items[|items| - 1])]
  }

  lemma RecordsOfAppend(vid: string, title: string, url: string, a: seq<CommentItem>, b: seq<CommentItem>)
    ensures RecordsOf(vid, title, url, a + b) == RecordsOf(vid, title, url, a) + RecordsOf(vid, title, url, b)
  {
  }

  // ---------------------------------------------------------------------------
  // one video
  // ---------------------------------------------------------------------------

  /** How many items of a page of `n` the inner loop appends when `count`
      comments are already kept: it appends before it compares with the cap,
      so at least one when the page is not empty. */
  function Taken(n: nat, count: nat, max: int): nat
  {
    Min(n, if max - count > 1 then max - count else 1)
  }

  /** The comments `_fetch_comments_for_video` keeps from request `k` on, with
      `count` kept before. */
  function FetchedItems(rs: seq<CommentResponse>, max: int, k: nat, count: nat): seq<CommentItem>
    decreases |rs| - k
  {
    if k >= |rs| then []
    else
      match rs[k]
      case FetchError => []
      case CommentPage(items, next) =>
        var t := Taken(|items|, count, max);
        items[..t] + (if NoMorePages(next) || count + t >= max then [] else FetchedItems(rs, max, k + 1, count + t))
  }

  /** One page of `FetchedItems`, unfolded. */
  lemma FetchStep(rs: seq<CommentResponse>, max: int, k: nat, count: nat)
    requires k < |rs| && rs[k].CommentPage?
    ensures var items, next := rs[k].items, rs[k].next;
      var t := Taken(|items|, count, max);
      FetchedItems(rs, max, k, count)
      == items[..t] + (if NoMorePages(next) || count + t >= max then [] else FetchedItems(rs, max, k + 1, count + t))
  {
  }

  /** A failing request, or none left, ends the fetch. */
  lemma FetchEnds(rs: seq<CommentResponse>, max: int, k: nat, count: nat)
    requires k >= |rs| || rs[k].FetchError?
    ensures FetchedItems(rs, max, k, count) == []
  {
  }

  /** The last page, or the one that reaches the cap, is all that is left. */
  lemma FetchLast(rs: seq<CommentResponse>, max: int, k: nat, count: nat)
    requires k < |rs| && rs[k].CommentPage?
    requires NoMorePages(rs[k].next) || count + Taken(|rs[k].items|, count, max) >= max
    ensures FetchedItems(rs, max, k, count) == rs[k].items[..Taken(|rs[k].items|, count, max)]
  {
    FetchStep(rs, max, k, count);
    var t := Taken(|rs[k].items|, count, max);
    assert rs[k].items[..t] + [] == rs[k].items[..t];
  }

  /** Any other page is followed by the fetch from the next request. */
  lemma FetchMore(rs: seq<CommentResponse>, max: int, k: nat, count: nat)
    requires k < |rs| && rs[k].CommentPage?
    requires !NoMorePages(rs[k].next) && count + Taken(|rs[k].items|, count, max) < max
    ensures var t := Taken(|rs[k].items|, count, max);
      FetchedItems(rs, max, k, count) == rs[k].items[..t] + FetchedItems(rs, max, k + 1, count + t)
  {
    FetchStep(rs, max, k, count);
  }

  /** Moving the next part of what is left to what is done. */
  lemma Regroup<T>(done: seq<T>, next: seq<T>, rest: seq<T>, left: seq<T>, all: seq<T>)
    requires left == next + rest && done + left == all
    ensures (done + next) + rest == all
  {
  }

  /** The inner loop of `_fetch_comments_for_video` over the items of one
      page: appends them until the cap is reached, comparing after each. */
  method TakeFromPage(vid: string, title: string, url: string, items: seq<CommentItem>,
                      comments0: seq<CommentRecord>, count0: nat, max: int)
    returns (comments: seq<CommentRecord>, count: nat)
    ensures count == count0 + Taken(|items|, count0, max)
    ensures comments == comments0 + RecordsOf(vid, title, url, items[..Taken(|items|, count0, max)])
  {
    comments, count := comments0, count0;
    var j := 0;
    while j < |items|
      invariant j <= Taken(|items|, count0, max)
      invariant count == count0 + j
      invariant j == 0 || count < max
      invariant comments == comments0 + RecordsOf(vid, title, url, items[..j])
    {
      assert items[..j + 1] == items[..j] + [items[j]];
      RecordsOfAppend(vid, title, url, items[..j], [items[j]]);
      comments := comments + [RecordOf(vid, title, url, items[j])];
      count := count + 1;
      j := j + 1;
      if count >= max {
        break;
      }
    }
  }

  /** `_fetch_comments_for_video`: the records of the comments fetched. */
  method FetchCommentsForVideo(api: ThreadsApi, vid: string, title: string, url: string, max: int)
    returns (comments: seq<CommentRecord>)
    ensures comments == RecordsOf(vid, title, url, FetchedItems(api(vid), max, 0, 0))
  {
    var rs := api(vid);
    comments := [];
    var count: nat := 0;
    var k := 0;
    ghost var got: seq<CommentItem> := [];
    ghost var all := FetchedItems(rs, max, 0, 0);
    assert got + all == all;
    while true
      invariant k <= |rs|
      invariant comments == RecordsOf(vid, title, url, got)
      invariant got + FetchedItems(rs, max, k, count) == all
      decreases |rs| - k
    {
      if k >= |rs| || rs[k].FetchError? {
        FetchEnds(rs, max, k, count);
        assert got + [] == got;
        break;
      }
      var response := rs[k];
      ghost var count0 := count;
      ghost var page := response.items[..Taken(|response.items|, count0, max)];
      RecordsOfAppend(vid, title, url, got, page);
      comments, count := TakeFromPage(vid, title, url, response.items, comments, count, max);
      if NoMorePages(response.next) || count >= max {
        FetchLast(rs, max, k, count0);
        got := got + page;
        break;
      }
      FetchMore(rs, max, k, count0);
      Regroup(got, page, FetchedItems(rs, max, k + 1, count), FetchedItems(rs, max, k, count0), all);
      got := got + page;
      k := k + 1;
    }
  }

  /** Independent of the cap, what the service offers for a video: the items
      of its pages in order, up to the first failing request or the first
      page without a next token. */
  function Available(rs: seq<CommentResponse>, k: nat): seq<CommentItem>
    decreases |rs| - k
  {
    if k >= |rs| then []
    else
      match rs[k]
      case FetchError => []
      case CommentPage(items, next) => items + (if NoMorePages(next) then [] else Available(rs, k + 1))
  }

  /** With a cap of at least one, the comments fetched are the first `max`
      comments the service offers, in order: the cap is never exceeded and
      fetching stops only at the cap, at a page without a next token, or at a
      failing request. */
  lemma {:induction false} FetchedIsCappedPrefix(rs: seq<CommentResponse>, max: int, k: nat, count: nat)
    requires count < max
    ensures FetchedItems(rs, max, k, count) == Take(Available(rs, k), max - count)
    decreases |rs| - k
  {
    if k >= |rs| || rs[k].FetchError? {
      FetchEnds(rs, max, k, count);
      AvailableEnds(rs, k);
    } else {
      var t := Taken(|rs[k].items|, count, max);
      if !NoMorePages(rs[k].next) && count + t < max {
        FetchedIsCappedPrefix(rs, max, k + 1, count + t);
        CappedPrefixMore(rs, max, k, count);
      } else {
        CappedPrefixLast(rs, max, k, count);
      }
    }
  }

  /** The step of `FetchedIsCappedPrefix` for a page the fetch goes on after. */
  lemma CappedPrefixMore(rs: seq<CommentResponse>, max: int, k: nat, count: nat)
    requires count < max && k < |rs| && rs[k].CommentPage?
    requires !NoMorePages(rs[k].next) && count + Taken(|rs[k].items|, count, max) < max
    requires var t := Taken(|rs[k].items|, count, max);
      FetchedItems(rs, max, k + 1, count + t) == Take(Available(rs, k + 1), max - (count + t))
    ensures FetchedItems(rs, max, k, count) == Take(Available(rs, k), max - count)
  {
    var items := rs[k].items;
    var rest := Available(rs, k + 1);
    assert Taken(|items|, count, max) == |items|;
    FetchMore(rs, max, k, count);
    assert FetchedItems(rs, max, k, count) == items + Take(rest, max - count - |items|);
    PageThenRest(items, rest, max - count);
    AvailableMore(rs, k);
  }

  /** The step of `FetchedIsCappedPrefix` for the page the fetch stops at. */
  lemma CappedPrefixLast(rs: seq<CommentResponse>, max: int, k: nat, count: nat)
    requires count < max && k < |rs| && rs[k].CommentPage?
    requires NoMorePages(rs[k].next) || count + Taken(|rs[k].items|, count, max) >= max
    ensures FetchedItems(rs, max, k, count) == Take(Available(rs, k), max - count)
  {
    var items := rs[k].items;
    FetchLast(rs, max, k, count);
    if NoMorePages(rs[k].next) {
      AvailableLast(rs, k);
      LastPageTaken(items, [], count, max, true);
      assert items + [] == items;
    } else {
      AvailableMore(rs, k);
      LastPageTaken(items, Available(rs, k + 1), count, max, false);
    }
  }

  /** When a whole page fits under the cap, the rest is taken from what follows. */
  lemma PageThenRest(items: seq<CommentItem>, rest: seq<CommentItem>, n: int)
    requires n >= 1 && Taken(|items|, 0, n) == |items| < n
    ensures items + Take(rest, n - |items|) == Take(items + rest, n)
  {
    TakeAppend(items, rest, n);
  }

  /** When the page is the last one or reaches the cap, what it contributes is all there is. */
  lemma LastPageTaken(items: seq<CommentItem>, rest: seq<CommentItem>, count: nat, max: int, last: bool)
    requires count < max
    requires last ==> rest == []
    requires last || count + Taken(|items|, count, max) >= max
    ensures items[..Taken(|items|, count, max)] == Take(items + rest, max - count)
  {
    var n := max - count;
    TakeAppend(items, rest, n);
    if last {
      assert items + rest == items;
    }
  }

  /** A failing request, or none left, ends what is available. */
  lemma AvailableEnds(rs: seq<CommentResponse>, k: nat)
    requires k >= |rs| || rs[k].FetchError?
    ensures Available(rs, k) == []
  {
  }

  /** A page without a next token is the last one available. */
  lemma AvailableLast(rs: seq<CommentResponse>, k: nat)
    requires k < |rs| && rs[k].CommentPage? && NoMorePages(rs[k].next)
    ensures Available(rs, k) == rs[k].items
  {
    assert rs[k].items + [] == rs[k].items;
  }

  /** A page with a next token is followed by what the next request offers. */
  lemma AvailableMore(rs: seq<CommentResponse>, k: nat)
    requires k < |rs| && rs[k].CommentPage? && !NoMorePages(rs[k].next)
    ensures Available(rs, k) == rs[k].items + Available(rs, k + 1)
  {
  }

  /** Per video, at most `max` comments when the cap is at least one, and at
      most one otherwise (the first comment is appended before the cap is
      compared). */
  lemma FetchedIsCapped(rs: seq<CommentResponse>, max: int)
    ensures max >= 1 ==> |FetchedItems(rs, max, 0, 0)| <= max
    ensures max < 1 ==> |FetchedItems(rs, max, 0, 0)| <= 1
  {
    if max >= 1 {
      FetchedIsCappedPrefix(rs, max, 0, 0);
    } else if 0 < |rs| && rs[0].CommentPage? {
      assert Taken(|rs[0].items|, 0, max) <= 1;
    }
  }

  // ---------------------------------------------------------------------------
  // the table
  // ---------------------------------------------------------------------------

  /** The settings `_load_configuration` keeps. */
  datatype ExtractorSettings = ExtractorSettings(
    inputPath: string,
    outputPath: string,
    outputDir: string,
    maxComments: int)

  /** The input is the crawler's table and the output the comments table, both
      in `<root>/outputs/<safe>`; the per-video cap reuses `max_results`. */
  function LoadExtractorSettings(root: string, cfg: ConfigFile): ExtractorSettings
  {
    var safe := SafeBrandName(cfg.searchTerms);
    var out := OutputDir(root, safe);
    ExtractorSettings(
      inputPath := PathJoin(out, safe + "_discovered_videos.csv"),
      outputPath := PathJoin(out, safe + "_raw_comments.csv"),
      outputDir := out,
      maxComments := cfg.maxResults)
  }

  /** The extractor reads the videos table and writes the comments table at
      the very paths the pipeline's settings name for them, in the same
      output directory. */
  lemma ExtractorPathsAreThePipelines(root: string, cfg: ConfigFile)
    ensures LoadExtractorSettings(root, cfg).inputPath == LoadSettings(root, cfg).videosCsv
    ensures LoadExtractorSettings(root, cfg).outputPath == LoadSettings(root, cfg).commentsCsv
    ensures LoadExtractorSettings(root, cfg).outputDir == LoadSettings(root, cfg).outputDir
  {
  }

  /** A row of the input table: `video_id`, and the `title` and `url` cells,
      `None` when the table has no such column. */
  datatype InputRow = InputRow(videoId: string, title: Option<string>, url: Option<string>)

  /** The input table as `pd.read_csv` returns it: whether it has a
      `video_id` column, and its rows. */
  datatype InputTable = InputTable(hasVideoId: bool, rows: seq<InputRow>)

  /** `row.get('title', 'Unknown Title')`. */
  function RowTitle(row: InputRow): string
  {
    row.title.GetOr("Unknown Title")
  }

  /** `row.get('url', f"https://www.youtube.com/watch?v={video_id}")`. */
  function RowUrl(row: InputRow): string
  {
    row.url.GetOr(WatchUrl(row.videoId))
  }

  function VideoComments(api: ThreadsApi, max: int, row: InputRow): seq<CommentRecord>
  {
    RecordsOf(row.videoId, RowTitle(row), RowUrl(row), FetchedItems(api(row.videoId), max, 0, 0))
  }

  function PerVideo(api: ThreadsApi, max: int, rows: seq<InputRow>): (r: seq<seq<CommentRecord>>)
    ensures |r| == |rows|
    ensures forall i :: 0 <= i < |rows| ==> r[i] == VideoComments(api, max, rows[i])
  {
    seq(|rows|, i requires 0 <= i < |rows| => VideoComments(api, max, rows[i]))
  }

  /** All comments: the per-video lists one after the other, in row order. */
  function AllComments(api: ThreadsApi, max: int, rows: seq<InputRow>): seq<CommentRecord>
  {
    Flatten(PerVideo(api, max, rows))
  }

  /** How `extract_comments` ends: no input file; reading it raised; no
      `video_id` column; no comment at all; or `count` comments saved. */
  datatype ExtractOutcome = InputMissing | InputUnreadable | NoVideoIdColumn | NoComments | Extracted(count: nat)

  /** `extract_comments`; `table` is what `pd.read_csv` returns (`None` when
      it raises) and `toCsv` is `DataFrame.to_csv`. */
  method ExtractComments(fs: FileSystem, es: ExtractorSettings, table: Option<InputTable>, api: ThreadsApi,
                         toCsv: seq<CommentRecord> -> string)
    returns (out: ExtractOutcome)
    modifies fs
    ensures es.inputPath !in old(fs.files) ==> out == InputMissing
    ensures es.inputPath in old(fs.files) && table.None? ==> out == InputUnreadable
    ensures es.inputPath in old(fs.files) && table.Some? && !table.value.hasVideoId ==> out == NoVideoIdColumn
    ensures es.inputPath in old(fs.files) && table.Some? && table.value.hasVideoId ==>
              var all := AllComments(api, es.maxComments, table.value.rows);
              out == (if all == [] then NoComments else Extracted(|all|))
              && (out.Extracted? ==> fs.files == old(fs.files)[es.outputPath := toCsv(all)]
                                     && fs.dirs == old(fs.dirs) + {es.outputDir})
    ensures !out.Extracted? ==> fs.State() == old(fs.State())
  {
    if es.inputPath !in fs.files {
      return InputMissing;
    }
    if table.None? {
      return InputUnreadable;
    }
    if !table.value.hasVideoId {
      return NoVideoIdColumn;
    }
    var rows := table.value.rows;
    var all := [];
    for i := 0 to |rows|
      invariant all == Flatten(PerVideo(api, es.maxComments, rows)[..i])
      invariant fs.files == old(fs.files) && fs.dirs == old(fs.dirs)
    {
      var row := rows[i];
      var forVideo := FetchCommentsForVideo(api, row.videoId, RowTitle(row), RowUrl(row), es.maxComments);
      assert PerVideo(api, es.maxComments, rows)[..i + 1] == PerVideo(api, es.maxComments, rows)[..i] + [forVideo];
      all := all + forVideo;
    }
    assert PerVideo(api, es.maxComments, rows)[..|rows|] == PerVideo(api, es.maxComments, rows);
    assert all == AllComments(api, es.maxComments, rows);
    if all == [] {
      return NoComments;
    }
    if es.outputDir !in fs.dirs {
      fs.MakeDirs(es.outputDir);
    }
    fs.WriteFile(es.outputPath, toCsv(all));
    return Extracted(|all|);
  }

  /** The output keeps the row order: the comments of the rows of `a ++ b` are
      those of `a`, then those of `b`. */
  lemma AllCommentsAppend(api: ThreadsApi, max: int, a: seq<InputRow>, b: seq<InputRow>)
    ensures AllComments(api, max, a + b) == AllComments(api, max, a) + AllComments(api, max, b)
  {
    assert PerVideo(api, max, a + b) == PerVideo(api, max, a) + PerVideo(api, max, b);
    FlattenAppend(PerVideo(api, max, a), PerVideo(api, max, b));
  }

  /** Every saved comment belongs to a row of the table: it carries that row's
      id, its title (or `Unknown Title`) and its url (or the watch URL). */
  lemma CommentsBelongToRows(api: ThreadsApi, max: int, rows: seq<InputRow>, c: CommentRecord)
    requires c in AllComments(api, max, rows)
    ensures exists i :: 0 <= i < |rows| && c.videoId == rows[i].videoId
              && c.videoTitle == RowTitle(rows[i]) && c.videoUrl == RowUrl(rows[i])
  {
    var per := PerVideo(api, max, rows);
    InFlatten(per, c);
    var i :| 0 <= i < |per| && c in per[i];
    var j :| 0 <= j < |per[i]| && per[i][j] == c;
    assert per[i] == VideoComments(api, max, rows[i]);
  }

  /** With a cap of at least one, the table holds at most `max` comments per row. */
  lemma AllCommentsBounded(api: ThreadsApi, max: int, rows: seq<InputRow>)
    requires max >= 1
    ensures |AllComments(api, max, rows)| <= max * |rows|
  {
    var per := PerVideo(api, max, rows);
    forall k | 0 <= k < |per| ensures |per[k]| <= max {
      FetchedIsCapped(api(rows[k].videoId), max);
    }
    FlattenLength(per, max);
  }
}
