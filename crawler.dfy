/** `YouTubeBrandCrawler` (src/crawler.py): one combined search query, up to
    three pages of search results collected as a set of video ids, their
    details fetched fifty ids at a time, then filtered, scored, sorted and cut
    to `max_results` rows before they are saved as
    `outputs/<safe>/<safe>_discovered_videos.csv`. */
module Crawler {
  import opened Wrappers
  import opened Text
  import opened Paths
  import opened Slices
  import opened Records
  import opened Config
  import opened FileStore
  import opened PipelineSettings

  // ---------------------------------------------------------------------------
  // configuration
  // ---------------------------------------------------------------------------

  /** The settings `_load_configuration` keeps. */
  datatype CrawlerSettings = CrawlerSettings(
    searchTerms: string,
    modifiers: seq<string>,
    excludes: seq<string>,
    minViewCount: int,
    sortBy: string,
    maxResults: int,
    outputDir: string,
    outputPath: string)

  /** `[mod.strip() for mod in raw.split(',')]`. */
  function ParseModifiers(raw: string): (r: seq<string>)
    ensures |r| == |Split(raw, ',')|
    ensures forall i :: 0 <= i < |r| ==> StrippedFrom(Split(raw, ',')[i], r[i])
    ensures forall i :: 0 <= i < |r| ==> ',' !in r[i] && Strip(r[i]) == r[i]
  {
    var parts := Split(raw, ',');
    forall i | 0 <= i < |parts|
      ensures ',' !in Strip(parts[i]) && Strip(Strip(parts[i])) == Strip(parts[i]) && StrippedFrom(parts[i], Strip(parts[i]))
    {
      StripInside(parts[i], ',');
      StripIdempotent(parts[i]);
      StripIsStrippedFrom(parts[i]);
    }
    seq(|parts|, i requires 0 <= i < |parts| => Strip(parts[i]))
  }

  /** `[key.strip().lower() for key in raw.split(',')]`. */
  function ParseExcludes(raw: string): (r: seq<string>)
    ensures |r| == |Split(raw, ',')|
    ensures forall i :: 0 <= i < |r| ==> StrippedFrom(Lower(Split(raw, ',')[i]), r[i])
    ensures forall i :: 0 <= i < |r| ==> ',' !in r[i] && Lower(r[i]) == r[i]
  {
    var parts := Split(raw, ',');
    forall i | 0 <= i < |parts|
      ensures ',' !in Lower(Strip(parts[i])) && Lower(Lower(Strip(parts[i]))) == Lower(Strip(parts[i]))
      ensures StrippedFrom(Lower(parts[i]), Lower(Strip(parts[i])))
    {
      StripInside(parts[i], ',');
      LowerInside(Strip(parts[i]), ',');
      LowerIdempotent(Strip(parts[i]));
      StripIsStrippedFrom(parts[i]);
      StrippedFromLower(parts[i], Strip(parts[i]));
    }
    seq(|parts|, i requires 0 <= i < |parts| => Lower(Strip(parts[i])))
  }

  /** A character that is not in a string is not in its stripped form. */
  lemma StripInside(s: string, c: char)
    requires c !in s
    ensures c !in Strip(s)
  {
    StripSpec(s);
    var r, i := Strip(s), LeadingSpaces(s);
    forall k | 0 <= k < |r| ensures r[k] != c {
      assert r[k] == s[i + k];
    }
  }

  /** Lower-casing never produces a character that is not a letter. */
  lemma LowerInside(s: string, c: char)
    requires c !in s && !('A' <= c <= 'Z') && !('a' <= c <= 'z')
    ensures c !in Lower(s)
  {
    var l := Lower(s);
    forall k | 0 <= k < |l| ensures l[k] != c {
      assert l[k] == LowerChar(s[k]) && s[k] != c;
    }
  }

  /** The list-valued options read back as written: a comma-separated list of
      stripped, comma-free modifiers is parsed into exactly those modifiers. */
  lemma ParseModifiersOfList(mods: seq<string>)
    requires |mods| > 0
    requires forall i :: 0 <= i < |mods| ==> ',' !in mods[i] && Strip(mods[i]) == mods[i]
    ensures ParseModifiers(Join(",", mods)) == mods
  {
    SplitJoin(mods, ',');
  }

  /** Likewise for the excluded keywords, when they are already lower case. */
  lemma ParseExcludesOfList(keys: seq<string>)
    requires |keys| > 0
    requires forall i :: 0 <= i < |keys| ==> ',' !in keys[i] && Strip(keys[i]) == keys[i] && Lower(keys[i]) == keys[i]
    ensures ParseExcludes(Join(",", keys)) == keys
  {
    SplitJoin(keys, ',');
  }

  /** `os.path.join('outputs', safe)`: relative to the working directory. */
  function CrawlerOutputDir(safe: string): string
  {
    PathJoin("outputs", safe)
  }

  function LoadCrawlerSettings(cfg: ConfigFile): CrawlerSettings
  {
    var safe := SafeBrandName(cfg.searchTerms);
    CrawlerSettings(
      searchTerms := cfg.searchTerms,
      modifiers := ParseModifiers(cfg.searchModifiers),
      excludes := ParseExcludes(cfg.excludeKeywords),
      minViewCount := cfg.minViewCount,
      sortBy := cfg.sortBy,
      maxResults := cfg.maxResults,
      outputDir := CrawlerOutputDir(safe),
      outputPath := PathJoin(CrawlerOutputDir(safe), safe + "_discovered_videos.csv"))
  }

  /** `__init__`: a missing or empty `YOUTUBE_API_KEY` raises `ValueError`
      (`None`); otherwise the settings are loaded and the output directory is
      created. */
  method InitializeCrawler(fs: FileSystem, cfg: ConfigFile, apiKey: Option<string>)
    returns (cs: Option<CrawlerSettings>)
    modifies fs
    ensures apiKey == None || apiKey == Some("") ==> cs == None && fs.State() == old(fs.State())
    ensures apiKey != None && apiKey != Some("") ==>
              cs == Some(LoadCrawlerSettings(cfg))
              && fs.files == old(fs.files) && fs.dirs == old(fs.dirs) + {cs.value.outputDir}
  {
    if apiKey == None || apiKey == Some("") {
      return None;
    }
    var settings := LoadCrawlerSettings(cfg);
    fs.MakeDirs(settings.outputDir);
    return Some(settings);
  }

  /** Run from the project root, the crawler saves its table exactly where the
      pipeline (and so the comment extractor and the analyzer) looks for it. */
  lemma CrawlerWritesWherePipelineReads(root: string, cfg: ConfigFile)
    ensures PathJoin(root, LoadCrawlerSettings(cfg).outputPath) == LoadSettings(root, cfg).videosCsv
  {
    var safe := SafeBrandName(cfg.searchTerms);
    var name := safe + "_discovered_videos.csv";
    SafeBrandNameIsSafe(safe);
    SafeBrandNameIsSafe(cfg.searchTerms);
    assert !StartsWith(safe, "/") by {
      if |safe| > 0 {
        assert safe[0] in safe;
      }
    }
    assert !StartsWith(name, "/") by {
      if |safe| > 0 {
        assert name[0] == safe[0] && safe[0] in safe;
      } else {
        assert name[0] == '_';
      }
    }
    assert !StartsWith("outputs", "/");
    JoinAssociative("outputs", safe, name);
    JoinAssociative(root, "outputs", safe);
    JoinAssociative(root, PathJoin("outputs", safe), name);
  }

  // ---------------------------------------------------------------------------
  // the search
  // ---------------------------------------------------------------------------

  /** `f'"{terms}" ({" | ".join(modifiers)})'`. */
  function Query(terms: string, mods: seq<string>): string
  {
    "\"" + terms + "\" (" + Join(" | ", mods) + ")"
  }

  /** The query quotes the search terms and names every modifier inside the
      parentheses. */
  lemma QueryShape(terms: string, mods: seq<string>)
    ensures StartsWith(Query(terms, mods), "\"" + terms + "\" (")
    ensures EndsWith(Query(terms, mods), ")")
    ensures forall i :: 0 <= i < |mods| ==> Contains(Query(terms, mods), mods[i])
  {
    var q, head, alts := Query(terms, mods), "\"" + terms + "\" (", Join(" | ", mods);
    assert q == head + (alts + ")");
    assert q[..|head|] == head;
    assert q[|q| - 1..] == ")";
    forall i | 0 <= i < |mods| ensures Contains(q, mods[i]) {
      JoinContainsParts(" | ", mods, i);
      ContainsBefore(alts, ")", mods[i]);
      ContainsAfter(head, alts + ")", mods[i]);
    }
  }

  /** One `search().list(...).execute()`: the ids on the page and
      `nextPageToken`, or an `HttpError`. */
  datatype SearchResponse = SearchPage(ids: seq<string>, next: Option<string>) | SearchError

  /** The search endpoint, given the query and the page token (`None` for the
      first page). */
  type SearchApi = (string, Option<string>) -> SearchResponse

  const MaxSearchPages: nat := 3

  /** The page tokens requested, at most `left` more pages from `token` on. */
  function Requests(api: SearchApi, q: string, token: Option<string>, left: nat): seq<Option<string>>
    decreases left
  {
    if left == 0 then []
    else
      match api(q, token)
      case SearchError => [token]
      case SearchPage(_, next) => [token] + (if NoMorePages(next) then [] else Requests(api, q, next, left - 1))
  }

  /** The ids collected from those pages. */
  function FoundIds(api: SearchApi, q: string, token: Option<string>, left: nat): set<string>
    decreases left
  {
    if left == 0 then {}
    else
      match api(q, token)
      case SearchError => {}
      case SearchPage(ids, next) =>
        (set x | x in ids) + (if NoMorePages(next) then {} else FoundIds(api, q, next, left - 1))
  }

  /** The page loop of `run_crawler`: returns the set of ids and, in order,
      the page tokens it sent. */
  method SearchVideoIds(api: SearchApi, q: string) returns (ids: set<string>, requests: seq<Option<string>>)
    ensures ids == FoundIds(api, q, None, MaxSearchPages)
    ensures requests == Requests(api, q, None, MaxSearchPages)
  {
    ids, requests := {}, [];
    var token: Option<string> := None;
    var i := 0;
    while i < MaxSearchPages
      invariant 0 <= i <= MaxSearchPages
      invariant ids + FoundIds(api, q, token, MaxSearchPages - i) == FoundIds(api, q, None, MaxSearchPages)
      invariant requests + Requests(api, q, token, MaxSearchPages - i) == Requests(api, q, None, MaxSearchPages)
    {
      SearchStep(api, q, token, MaxSearchPages - i);
      requests := requests + [token];
      var response := api(q, token);
      if response.SearchError? {
        break;
      }
      ids := ids + set x | x in response.ids;
      token := response.next;
      if NoMorePages(token) {
        break;
      }
      i := i + 1;
    }
  }

  /** One page of the search, unfolded. */
  lemma SearchStep(api: SearchApi, q: string, token: Option<string>, left: nat)
    requires left > 0
    ensures api(q, token).SearchError? ==>
              Requests(api, q, token, left) == [token] && FoundIds(api, q, token, left) == {}
    ensures api(q, token).SearchPage? && NoMorePages(api(q, token).next) ==>
              Requests(api, q, token, left) == [token]
              && FoundIds(api, q, token, left) == set x | x in api(q, token).ids
    ensures api(q, token).SearchPage? && !NoMorePages(api(q, token).next) ==>
              Requests(api, q, token, left) == [token] + Requests(api, q, api(q, token).next, left - 1)
              && FoundIds(api, q, token, left)
                 == (set x | x in api(q, token).ids) + FoundIds(api, q, api(q, token).next, left - 1)
  {
  }

  /** The requests form a chain: the first asks for the first page, each later
      one passes the token of the page before, there are at most `left`, and
      the last one ends the search: it failed, had no next token, or used up
      the page budget. */
  lemma {:induction false} RequestChain(api: SearchApi, q: string, token: Option<string>, left: nat)
    ensures var r := Requests(api, q, token, left);
      && |r| <= left
      && (left > 0 ==> |r| >= 1 && r[0] == token)
      && (forall j :: 0 <= j < |r| - 1 ==>
            api(q, r[j]).SearchPage? && !NoMorePages(api(q, r[j]).next) && r[j + 1] == api(q, r[j]).next)
      && (|r| > 0 ==> api(q, r[|r| - 1]).SearchError? || NoMorePages(api(q, r[|r| - 1]).next) || |r| == left)
    decreases left
  {
    if left > 0 {
      var resp := api(q, token);
      if resp.SearchPage? && !NoMorePages(resp.next) {
        RequestChain(api, q, resp.next, left - 1);
        var rest := Requests(api, q, resp.next, left - 1);
        var r := Requests(api, q, token, left);
        assert r == [token] + rest;
        forall j | 0 <= j < |r| - 1
          ensures api(q, r[j]).SearchPage? && !NoMorePages(api(q, r[j]).next) && r[j + 1] == api(q, r[j]).next
        {
          if j > 0 {
            assert r[j] == rest[j - 1] && r[j + 1] == rest[j];
          }
        }
      }
    }
  }

  /** The ids found are exactly the ids on the pages that were returned. */
  lemma {:induction false} FoundIdsArePagesIds(api: SearchApi, q: string, token: Option<string>, left: nat, x: string)
    ensures var r := Requests(api, q, token, left);
      x in FoundIds(api, q, token, left) <==>
        exists j :: 0 <= j < |r| && api(q, r[j]).SearchPage? && x in api(q, r[j]).ids
    decreases left
  {
    if left > 0 {
      var resp := api(q, token);
      var r := Requests(api, q, token, left);
      if resp.SearchPage? {
        if NoMorePages(resp.next) {
          assert r == [token];
          if x in resp.ids {
            assert api(q, r[0]).SearchPage? && x in api(q, r[0]).ids;
          }
        } else {
          FoundIdsArePagesIds(api, q, resp.next, left - 1, x);
          var rest := Requests(api, q, resp.next, left - 1);
          assert r == [token] + rest;
          if x in FoundIds(api, q, token, left) {
            if x in resp.ids {
              assert api(q, r[0]).SearchPage? && x in api(q, r[0]).ids;
            } else {
              var j :| 0 <= j < |rest| && api(q, rest[j]).SearchPage? && x in api(q, rest[j]).ids;
              assert r[j + 1] == rest[j];
            }
          }
          if exists j :: 0 <= j < |r| && api(q, r[j]).SearchPage? && x in api(q, r[j]).ids {
            var j :| 0 <= j < |r| && api(q, r[j]).SearchPage? && x in api(q, r[j]).ids;
            if j > 0 {
              assert r[j] == rest[j - 1];
            }
          }
        }
      } else {
        assert r == [token];
      }
    }
  }

  /** `list(video_ids)`: the ids of the set, each once, in an order the model
      leaves open (Python's depends on string hashing). */
  method ListOfSet(s: set<string>) returns (xs: seq<string>)
    ensures |xs| == |s|
    ensures forall x :: x in xs <==> x in s
    ensures forall i, j :: 0 <= i < j < |xs| ==> xs[i] != xs[j]
  {
    xs := [];
    var rest := s;
    while rest != {}
      invariant rest !! (set x | x in xs)
      invariant rest + (set x | x in xs) == s
      invariant |xs| + |rest| == |s|
      invariant forall i, j :: 0 <= i < j < |xs| ==> xs[i] != xs[j]
      decreases |rest|
    {
      var x :| x in rest;
      assert x !in xs;
      xs := xs + [x];
      rest := rest - {x};
    }
    assert forall x :: x in xs <==> x in (set y | y in xs);
  }

  // ---------------------------------------------------------------------------
  // the details
  // ---------------------------------------------------------------------------

  /** `item["statistics"]`: each count may be missing. */
  datatype Statistics = Statistics(viewCount: Option<nat>, likeCount: Option<nat>, commentCount: Option<nat>)

  /** One item of a `videos().list` response: id, snippet fields, statistics. */
  datatype VideoItem = VideoItem(id: string, title: string, channelTitle: string, description: string, stats: Statistics)

  /** `videos().list(id=ids).execute()["items"]` for a comma-joined id list,
      `None` on `HttpError`. */
  type DetailsApi = string -> Option<seq<VideoItem>>

  /** The API's limit on ids per details request. */
  const DetailsChunk: nat := 50

  /** The `id` parameter of every details request, one per chunk of 50 ids. */
  function DetailRequests(ids: seq<string>): (r: seq<string>)
    ensures |r| == CeilDiv(|ids|, DetailsChunk)
    ensures forall k :: 0 <= k < |r| ==> r[k] == Join(",", Chunk(ids, DetailsChunk, k))
  {
    var cs := Chunks(ids, DetailsChunk);
    seq(|cs|, k requires 0 <= k < |cs| => Join(",", cs[k]))
  }

  /** What each details request contributes: its items, or nothing when it failed. */
  function DetailResults(api: DetailsApi, ids: seq<string>): (r: seq<seq<VideoItem>>)
    ensures |r| == CeilDiv(|ids|, DetailsChunk)
    ensures forall k :: 0 <= k < |r| ==> r[k] == api(DetailRequests(ids)[k]).GetOr([])
  {
    var req := DetailRequests(ids);
    seq(|req|, k requires 0 <= k < |req| => api(req[k]).GetOr([]))
  }

  /** `_get_video_details`: the items of every chunk's response, in chunk
      order; a chunk whose request raises is skipped. Also returns the `id`
      parameters it sent. */
  method GetVideoDetails(api: DetailsApi, ids: seq<string>) returns (items: seq<VideoItem>, requests: seq<string>)
    ensures requests == DetailRequests(ids)
    ensures items == Flatten(DetailResults(api, ids))
  {
    items, requests := [], [];
    var n := CeilDiv(|ids|, DetailsChunk);
    CeilDivBounds(|ids|, DetailsChunk);
    var i, k := 0, 0;
    while i < |ids|
      invariant 0 <= k <= n && i == k * DetailsChunk
      invariant requests == DetailRequests(ids)[..k]
      invariant items == Flatten(DetailResults(api, ids)[..k])
    {
      assert k < n;
      var batch := Slice(ids, i, i + DetailsChunk);
      assert batch == Chunk(ids, DetailsChunk, k);
      var param := Join(",", batch);
      requests := requests + [param];
      var response := api(param);
      assert DetailResults(api, ids)[..k + 1] == DetailResults(api, ids)[..k] + [response.GetOr([])];
      if response.Some? {
        items := items + response.value;
      }
      assert DetailRequests(ids)[..k + 1] == DetailRequests(ids)[..k] + [param];
      i, k := i + DetailsChunk, k + 1;
    }
    assert k == n;
    assert DetailRequests(ids)[..k] == DetailRequests(ids);
    assert DetailResults(api, ids)[..k] == DetailResults(api, ids);
  }

  /** The details requests name every id exactly once, in order, at most 50 per
      request: split back on `,`, they give the id list itself (provided no id
      holds a comma, as YouTube ids do not). */
  lemma DetailRequestsCoverIds(ids: seq<string>)
    requires forall i :: 0 <= i < |ids| ==> ',' !in ids[i]
    ensures var r := DetailRequests(ids);
      (forall k :: 0 <= k < |r| ==> 0 < |Split(r[k], ',')| <= DetailsChunk)
      && Flatten(seq(|r|, k requires 0 <= k < |r| => Split(r[k], ','))) == ids
  {
    var r, cs := DetailRequests(ids), Chunks(ids, DetailsChunk);
    ChunksPartition(ids, DetailsChunk);
    forall k | 0 <= k < |r| ensures Split(r[k], ',') == cs[k] {
      var c := cs[k];
      forall j | 0 <= j < |c| ensures ',' !in c[j] {
        assert c == Slice(ids, k * DetailsChunk, k * DetailsChunk + DetailsChunk);
        assert c[j] == ids[k * DetailsChunk + j];
      }
      SplitJoin(c, ',');
    }
    assert seq(|r|, k requires 0 <= k < |r| => Split(r[k], ',')) == cs;
  }

  /** Each item kept comes from the answer to one of the requests, and every
      item of every successful answer is kept: the failed chunks are the only
      ones skipped. */
  lemma DetailItemsFromAnswers(api: DetailsApi, ids: seq<string>, x: VideoItem)
    ensures var r := DetailRequests(ids);
      x in Flatten(DetailResults(api, ids)) <==>
        exists k :: 0 <= k < |r| && api(r[k]).Some? && x in api(r[k]).value
  {
    var r, res := DetailRequests(ids), DetailResults(api, ids);
    InFlatten(res, x);
    if x in Flatten(res) {
      var k :| 0 <= k < |res| && x in res[k];
      assert api(r[k]).Some? && x in api(r[k]).value;
    }
    if exists k :: 0 <= k < |r| && api(r[k]).Some? && x in api(r[k]).value {
      var k :| 0 <= k < |r| && api(r[k]).Some? && x in api(r[k]).value;
      assert x in res[k];
    }
  }

  // ---------------------------------------------------------------------------
  // filtering and scoring
  // ---------------------------------------------------------------------------

  /** `int(stats.get(name, 0))`. */
  function Count(c: Option<nat>): nat
  {
    c.GetOr(0)
  }

  /** `any(keyword in title.lower() for keyword in excludes)`. */
  predicate Excluded(excludes: seq<string>, title: string)
  {
    exists i :: 0 <= i < |excludes| && Contains(Lower(title), excludes[i])
  }

  /** The video survives both filters. */
  predicate Kept(cs: CrawlerSettings, item: VideoItem)
  {
    !Excluded(cs.excludes, item.title) && Count(item.stats.viewCount) >= cs.minViewCount
  }

  /** The row `_process_and_filter_videos` builds for a kept video. */
  function RecordOf(item: VideoItem): Video
  {
    var likes, comments := Count(item.stats.likeCount), Count(item.stats.commentCount);
    Video(item.id, item.title, WatchUrl(item.id), item.channelTitle,
          Count(item.stats.viewCount), likes, comments, likes + comments, item.description)
  }

  function Filtered(cs: CrawlerSettings, items: seq<VideoItem>): seq<Video>
    decreases |items|
  {
    if items == [] then []
    else
      var last := items[|items| - 1];
      Filtered(cs, items[..|items| - 1]) + (if Kept(cs, last) then [RecordOf(last)] else [])
  }

  /** `_process_and_filter_videos`. */
  method ProcessAndFilterVideos(cs: CrawlerSettings, items: seq<VideoItem>) returns (rows: seq<Video>)
    ensures rows == Filtered(cs, items)
  {
    rows := [];
    for n := 0 to |items|
      invariant rows == Filtered(cs, items[..n])
    {
      var video := items[n];
      assert items[..n + 1][..n] == items[..n];
      if Excluded(cs.excludes, video.title) {
        continue;
      }
      var views := Count(video.stats.viewCount);
      if views < cs.minViewCount {
        continue;
      }
      var likes, comments := Count(video.stats.likeCount), Count(video.stats.commentCount);
      rows := rows + [Video(video.id, video.title, WatchUrl(video.id), video.channelTitle,
                            views, likes, comments, likes + comments, video.description)];
    }
    assert items[..|items|] == items;
  }

  /** Filtering keeps the order: it distributes over concatenation. */
  lemma {:induction false} FilteredAppend(cs: CrawlerSettings, a: seq<VideoItem>, b: seq<VideoItem>)
    ensures Filtered(cs, a + b) == Filtered(cs, a) + Filtered(cs, b)
    decreases |b|
  {
    if b == [] {
      assert a + b == a;
    } else {
      FilteredAppend(cs, a, b[..|b| - 1]);
      assert (a + b)[..|a + b| - 1] == a + b[..|b| - 1];
    }
  }

  /** A row is in the result exactly when it is the row of a video that passes
      both filters. */
  lemma {:induction false} FilteredKeepsExactly(cs: CrawlerSettings, items: seq<VideoItem>, v: Video)
    ensures v in Filtered(cs, items) <==> exists i :: 0 <= i < |items| && Kept(cs, items[i]) && v == RecordOf(items[i])
    decreases |items|
  {
    if items != [] {
      var init, last := items[..|items| - 1], items[|items| - 1];
      FilteredKeepsExactly(cs, init, v);
      if exists i :: 0 <= i < |items| && Kept(cs, items[i]) && v == RecordOf(items[i]) {
        var i :| 0 <= i < |items| && Kept(cs, items[i]) && v == RecordOf(items[i]);
        if i < |init| {
          assert init[i] == items[i];
        }
      }
      if v in Filtered(cs, init) {
        var i :| 0 <= i < |init| && Kept(cs, init[i]) && v == RecordOf(init[i]);
        assert items[i] == init[i];
      }
    }
  }

  /** Every row kept is consistent: engagement is likes plus comments, the url
      is the watch URL of the id, it has at least `min_view_count` views, and
      its lower-cased title holds no excluded keyword. */
  lemma FilteredRowsAreSound(cs: CrawlerSettings, items: seq<VideoItem>, v: Video)
    requires v in Filtered(cs, items)
    ensures v.engagement == v.likes + v.comments
    ensures v.url == WatchUrl(v.id)
    ensures v.views >= cs.minViewCount
    ensures forall k :: 0 <= k < |cs.excludes| ==> !Contains(Lower(v.title), cs.excludes[k])
  {
    FilteredKeepsExactly(cs, items, v);
  }

  /** An empty keyword (an empty `exclude_keywords` option, or one with a
      trailing comma) occurs in every title, so every video is dropped. */
  lemma EmptyKeywordExcludesAll(cs: CrawlerSettings, items: seq<VideoItem>)
    requires "" in cs.excludes
    ensures Filtered(cs, items) == []
  {
    if Filtered(cs, items) != [] {
      var v := Filtered(cs, items)[0];
      EmptyOccursEverywhere(Lower(v.title));
      FilteredRowsAreSound(cs, items, v);
      assert false;
    }
  }

  /** An `exclude_keywords` option left empty parses to the single empty keyword. */
  lemma EmptyExcludeOption()
    ensures ParseExcludes("") == [""]
  {
    assert Split("", ',') == [""];
    assert Strip("") == "";
  }

  // ---------------------------------------------------------------------------
  // sorting and the whole run
  // ---------------------------------------------------------------------------

  /** `_sort_results`: by views or by engagement, most first, or the order of
      the details responses for any other `sort_by`. */
  function SortResults(sortBy: string, rows: seq<Video>): (r: seq<Video>)
    ensures multiset(r) == multiset(rows)
    ensures sortBy == "viewCount" ==> SortedDesc(r, Views)
    ensures sortBy == "engagement" ==> SortedDesc(r, Engagement)
    ensures sortBy != "viewCount" && sortBy != "engagement" ==> r == rows
  {
    if sortBy == "viewCount" then SortDesc(rows, Views)
    else if sortBy == "engagement" then SortDesc(rows, Engagement)
    else rows
  }

  /** How `run_crawler` ends: no id found, no video left after filtering, or the
      table saved. */
  datatype CrawlOutcome = NoVideosFound | NoneRemained | Saved(rows: seq<Video>)

  /** The run once the ids are listed in the order `ids`. */
  function CrawlResult(cs: CrawlerSettings, details: DetailsApi, ids: seq<string>): CrawlOutcome
  {
    if ids == [] then NoVideosFound
    else
      var rows := Filtered(cs, Flatten(DetailResults(details, ids)));
      if rows == [] then NoneRemained
      else Saved(Head(SortResults(cs.sortBy, rows), cs.maxResults))
  }

  /** `run_crawler`; `toCsv` is `DataFrame.to_csv`. `order` is the order the
      id set was listed in. */
  method RunCrawler(fs: FileSystem, cs: CrawlerSettings, search: SearchApi, details: DetailsApi,
                    toCsv: seq<Video> -> string)
    returns (out: CrawlOutcome, order: seq<string>)
    modifies fs
    ensures (set x | x in order) == FoundIds(search, Query(cs.searchTerms, cs.modifiers), None, MaxSearchPages)
    ensures forall i, j :: 0 <= i < j < |order| ==> order[i] != order[j]
    ensures out == CrawlResult(cs, details, order)
    ensures fs.dirs == old(fs.dirs)
    ensures fs.files == if out.Saved? then old(fs.files)[cs.outputPath := toCsv(out.rows)] else old(fs.files)
  {
    var query := Query(cs.searchTerms, cs.modifiers);
    var ids, _ := SearchVideoIds(search, query);
    order := ListOfSet(ids);
    assert (set x | x in order) == ids;
    if ids == {} {
      return NoVideosFound, order;
    }
    var items, _ := GetVideoDetails(details, order);
    var rows := ProcessAndFilterVideos(cs, items);
    if rows == [] {
      return NoneRemained, order;
    }
    var sorted := SortResults(cs.sortBy, rows);
    var final := Head(sorted, cs.maxResults);
    fs.WriteFile(cs.outputPath, toCsv(final));
    return Saved(final), order;
  }

  /** What a saved table holds: at most `max_results` rows of videos that
      passed the filters, each the row of a distinct details item, ranked as
      `sort_by` asks; when nothing is cut, every video that passed is there. */
  lemma SavedRowsSpec(cs: CrawlerSettings, details: DetailsApi, ids: seq<string>)
    requires CrawlResult(cs, details, ids).Saved?
    ensures var rows, all := CrawlResult(cs, details, ids).rows, Filtered(cs, Flatten(DetailResults(details, ids)));
      && (cs.maxResults >= 0 ==> |rows| == Min(cs.maxResults, |all|))
      && multiset(rows) <= multiset(all)
      && (cs.sortBy == "viewCount" ==> SortedDesc(rows, Views))
      && (cs.sortBy == "engagement" ==> SortedDesc(rows, Engagement))
      && (cs.sortBy != "viewCount" && cs.sortBy != "engagement" ==> rows == all[..|rows|])
      && (cs.maxResults >= |all| ==> multiset(rows) == multiset(all))
  {
    var all := Filtered(cs, Flatten(DetailResults(details, ids)));
    var sorted := SortResults(cs.sortBy, all);
    var rows := Head(sorted, cs.maxResults);
    assert sorted == rows + sorted[|rows|..];
    assert multiset(sorted) == multiset(rows) + multiset(sorted[|rows|..]);
    if cs.sortBy == "viewCount" || cs.sortBy == "engagement" {
      var s := if cs.sortBy == "viewCount" then Views else Engagement;
      assert SortedDesc(sorted, s);
      assert SortedDesc(rows, s) by {
        forall i, j | 0 <= i < j < |rows| ensures StatOf(rows[i], s) >= StatOf(rows[j], s) {
          assert rows[i] == sorted[i] && rows[j] == sorted[j];
        }
      }
    }
    if cs.maxResults >= |all| {
      assert rows == sorted;
    }
  }
}
