/** Stage 1 of the pipeline (`_process_batches`, `_run_flash_analysis`,
    `_wait_for_files_active`): the videos are cut into positional batches;
    each batch is either read from its cache entry or summarised by the flash
    model from its metadata, its comments and its media files, and a
    non-empty summary is written to the cache. */
module BatchStage {
  import opened Wrappers
  import opened Text
  import opened Paths
  import opened Slices
  import opened Records
  import opened Oracles
  import opened FileStore
  import opened PipelineSettings
  import opened Placeholders

  /** What a run reads besides the filesystem: the settings, the services and
      the two tables as `pd.read_csv` returned them. */
  datatype Inputs = Inputs(s: Settings, ai: GenAI, fmt: Formatting, videos: seq<Video>, comments: seq<CommentRow>)

  // ---------------------------------------------------------------------------
  // batching
  // ---------------------------------------------------------------------------

  /** `math.ceil(n / size)` as the loop bound: `None` when `size` is 0
      (`ZeroDivisionError`); no batches for a negative size. */
  function NumBatches(n: nat, size: int): (r: Option<nat>)
    ensures r.None? <==> size == 0
    ensures r.Some? && r.value > 0 ==> size > 0 && (r.value - 1) * size < n <= r.value * size
    ensures size > 0 ==> r == Some(CeilDiv(n, size))
  {
    if size == 0 then None
    else if size < 0 then Some(0)
    else
      CeilDivBounds(n, size);
      Some(CeilDiv(n, size))
  }

  /** `videos_df.iloc[i*size : i*size+size]`. */
  function BatchVideos(videos: seq<Video>, size: nat, i: nat): seq<Video>
  {
    Chunk(videos, size, i)
  }

  /** The batches cover every video exactly once, in order, and none is empty
      or larger than the batch size. */
  lemma BatchesPartition(videos: seq<Video>, size: nat)
    requires size > 0
    ensures var k := CeilDiv(|videos|, size);
      Flatten(seq(k, i requires 0 <= i < k => BatchVideos(videos, size, i))) == videos
      && forall i :: 0 <= i < k ==> 0 < |BatchVideos(videos, size, i)| <= size
  {
    var k := CeilDiv(|videos|, size);
    ChunksPartition(videos, size);
    assert seq(k, i requires 0 <= i < k => BatchVideos(videos, size, i)) == Chunks(videos, size);
  }

  /** `batch_videos['video_id'].tolist()`. */
  function VideoIds(vs: seq<Video>): (r: seq<string>)
    ensures |r| == |vs|
    ensures forall i :: 0 <= i < |vs| ==> r[i] == vs[i].id
  {
    seq(|vs|, i requires 0 <= i < |vs| => vs[i].id)
  }

  /** `comments_df[comments_df['id_video'].isin(ids)]`: the rows of the
      batch's videos, in their original order. */
  function BatchComments(rows: seq<CommentRow>, ids: seq<string>): (r: seq<CommentRow>)
    ensures |r| <= |rows|
    ensures forall x :: x in r <==> x in rows && x.videoId in ids
    decreases |rows|
  {
    if rows == [] then []
    else
      var init := BatchComments(rows[..|rows| - 1], ids);
      assert rows == rows[..|rows| - 1] + [rows[|rows| - 1]];
      if rows[|rows| - 1].videoId in ids then init + [rows[|rows| - 1]] else init
  }

  /** `comments['texto_comentario'].dropna()`: the texts that are present, in order. */
  function CommentTexts(rows: seq<CommentRow>): (r: seq<string>)
    ensures |r| <= |rows|
    ensures forall t :: t in r <==> exists x :: x in rows && x.text == Some(t)
    decreases |rows|
  {
    if rows == [] then []
    else
      var init := CommentTexts(rows[..|rows| - 1]);
      var last := rows[|rows| - 1];
      assert rows == rows[..|rows| - 1] + [last];
      match last.text
      case None => init
      case Some(t) => init + [t]
  }

  /** Selecting the batch's comments distributes over the table's rows, so
      the selected rows keep their order and multiplicity. */
  lemma {:induction false} BatchCommentsAppend(a: seq<CommentRow>, b: seq<CommentRow>, ids: seq<string>)
    ensures BatchComments(a + b, ids) == BatchComments(a, ids) + BatchComments(b, ids)
    decreases |b|
  {
    if b == [] {
      assert a + b == a;
    } else {
      var b' := b[..|b| - 1];
      assert (a + b)[..|a + b| - 1] == a + b';
      assert (a + b)[|a + b| - 1] == b[|b| - 1];
      BatchCommentsAppend(a, b', ids);
    }
  }

  /** One row is kept exactly when its video is in the batch. */
  lemma BatchCommentsOne(x: CommentRow, ids: seq<string>)
    ensures BatchComments([x], ids) == if x.videoId in ids then [x] else []
  {
    assert [x][..0] == [];
  }

  /** Dropping the missing texts distributes over the rows, so the texts that
      are present keep their order and multiplicity. */
  lemma {:induction false} CommentTextsAppend(a: seq<CommentRow>, b: seq<CommentRow>)
    ensures CommentTexts(a + b) == CommentTexts(a) + CommentTexts(b)
    decreases |b|
  {
    if b == [] {
      assert a + b == a;
    } else {
      var b' := b[..|b| - 1];
      assert (a + b)[..|a + b| - 1] == a + b';
      assert (a + b)[|a + b| - 1] == b[|b| - 1];
      CommentTextsAppend(a, b');
    }
  }

  /** One row gives its text when it has one, and nothing otherwise. */
  lemma CommentTextsOne(x: CommentRow)
    ensures CommentTexts([x]) == if x.text.Some? then [x.text.value] else []
  {
    assert [x][..0] == [];
  }

  /** `"\n".join(f"- {c}" for c in texts)`. */
  function CommentsText(rows: seq<CommentRow>): string
  {
    BulletList(CommentTexts(rows))
  }

  // ---------------------------------------------------------------------------
  // media resolution
  // ---------------------------------------------------------------------------

  /** The file one video contributes: its `.mp4` when it exists, else its
      `.mp3` when that exists, else none. */
  function MediaChoice(s: Settings, files: map<string, string>, vid: string): (r: seq<string>)
    ensures |r| <= 1
    ensures VideoPath(s, vid) in files ==> r == [VideoPath(s, vid)]
    ensures VideoPath(s, vid) !in files && AudioPath(s, vid) in files ==> r == [AudioPath(s, vid)]
    ensures VideoPath(s, vid) !in files && AudioPath(s, vid) !in files ==> r == []
  {
    if VideoPath(s, vid) in files then [VideoPath(s, vid)]
    else if AudioPath(s, vid) in files then [AudioPath(s, vid)]
    else []
  }

  /** The media list of a batch: the choices of its videos, in batch order. */
  function ResolvedMedia(s: Settings, files: map<string, string>, ids: seq<string>): (r: seq<string>)
    ensures |r| <= |ids|
    ensures forall p :: p in r ==> p in files
    decreases |ids|
  {
    if ids == [] then []
    else ResolvedMedia(s, files, ids[..|ids| - 1]) + MediaChoice(s, files, ids[|ids| - 1])
  }

  /** The media list distributes over the batch's ids: the videos contribute
      their files in batch order. */
  lemma {:induction false} ResolvedMediaAppend(s: Settings, files: map<string, string>, a: seq<string>, b: seq<string>)
    ensures ResolvedMedia(s, files, a + b) == ResolvedMedia(s, files, a) + ResolvedMedia(s, files, b)
    decreases |b|
  {
    if b == [] {
      assert a + b == a;
    } else {
      var b' := b[..|b| - 1];
      assert (a + b)[..|a + b| - 1] == a + b';
      assert (a + b)[|a + b| - 1] == b[|b| - 1];
      ResolvedMediaAppend(s, files, a, b');
    }
  }

  /** One video contributes its `MediaChoice`. */
  lemma ResolvedMediaOne(s: Settings, files: map<string, string>, vid: string)
    ensures ResolvedMedia(s, files, [vid]) == MediaChoice(s, files, vid)
  {
    assert [vid][..0] == [];
  }

  /** When every video of the batch has its `.mp4`, exactly those are sent. */
  lemma {:induction false} AllVideosPresent(s: Settings, files: map<string, string>, ids: seq<string>)
    requires forall i :: 0 <= i < |ids| ==> VideoPath(s, ids[i]) in files
    ensures ResolvedMedia(s, files, ids) == seq(|ids|, i requires 0 <= i < |ids| => VideoPath(s, ids[i]))
    decreases |ids|
  {
    if ids != [] {
      AllVideosPresent(s, files, ids[..|ids| - 1]);
    }
  }

  /** The loop of `_process_batches` over the batch's ids. (`media_type` is
      updated as in the source and never read.) */
  method ResolveMedia(fs: FileSystem, s: Settings, ids: seq<string>) returns (media: seq<string>)
    ensures media == ResolvedMedia(s, fs.files, ids)
  {
    media := [];
    var mediaType := "video";
    var j := 0;
    while j < |ids|
      invariant 0 <= j <= |ids|
      invariant media == ResolvedMedia(s, fs.files, ids[..j])
    {
      var vid := ids[j];
      assert ids[..j + 1][..j] == ids[..j];
      var videoPath := VideoPath(s, vid);
      if videoPath in fs.files {
        media := media + [videoPath];
      } else {
        var audioPath := AudioPath(s, vid);
        if audioPath in fs.files {
          media := media + [audioPath];
          if mediaType == "video" {
            mediaType := "mixed";
          }
        }
      }
      j := j + 1;
    }
    assert ids[..|ids|] == ids;
  }

  // ---------------------------------------------------------------------------
  // the flash call
  // ---------------------------------------------------------------------------

  /** The four substitutions of the flash prompt, in order. */
  function FlashBindings(brand: string, metadata: string, comments: string): (b: seq<(string, string)>)
    ensures forall i :: 0 <= i < |b| ==> |b[i].0| > 0 && b[i].0[0] == '{'
  {
    [(BrandPlaceholder, brand), (TopicPlaceholder, brand),
     (MetadataPlaceholder, metadata), (CommentsPlaceholder, comments)]
  }

  /** `"\n".join(f"- {os.path.basename(f.name)}" for f in uploaded)`. */
  function FileList(uploaded: seq<RemoteFile>): string
  {
    BulletList(seq(|uploaded|, i requires 0 <= i < |uploaded| => Basename(uploaded[i].name)))
  }

  function MediaBindings(list: string): (b: seq<(string, string)>)
    ensures forall i :: 0 <= i < |b| ==> |b[i].0| > 0 && b[i].0[0] == '{'
  {
    [(AudioListPlaceholder, list), (MediaListPlaceholder, list)]
  }

  /** The `try` block of `_run_flash_analysis`: upload, wait, fill in the file
      list, generate. Any failure is `None`. */
  function FlashCall(ai: GenAI, model: string, prompt: string, media: seq<string>): Option<string>
  {
    match UploadAll(ai, media)
    case None => None
    case Some(uploaded) =>
      if !AllActive(ai, uploaded) then None
      else ai.generate(model, Substitute(prompt, MediaBindings(FileList(uploaded))), uploaded)
  }

  /** `_run_flash_analysis`: a missing flash template raises
      `FileNotFoundError`, which no caller in Stage 1 catches. */
  datatype FlashResult = NoTemplate | Generated(text: Option<string>)

  function FlashAnalysis(inp: Inputs, files: map<string, string>, batch: seq<Video>,
                         comments: seq<CommentRow>, media: seq<string>): FlashResult
  {
    if inp.s.flashPromptPath !in files then NoTemplate
    else
      var prompt := Substitute(files[inp.s.flashPromptPath],
        FlashBindings(inp.s.brand, inp.fmt.metadataTable(batch), CommentsText(comments)));
      Generated(FlashCall(inp.ai, inp.s.flashModel, prompt, media))
  }

  /** The flash result for batch `i` against the files `files`. */
  function FlashOutcome(inp: Inputs, files: map<string, string>, i: nat): FlashResult
    requires inp.s.batchSize > 0
  {
    var batch := BatchVideos(inp.videos, inp.s.batchSize, i);
    var ids := VideoIds(batch);
    FlashAnalysis(inp, files, batch, BatchComments(inp.comments, ids), ResolvedMedia(inp.s, files, ids))
  }

  /** `_wait_for_files_active`: poll each file while it is `Processing`; the
      result is whether every file ended `Active` (otherwise it raises). */
  method WaitForFilesActive(ai: GenAI, uploaded: seq<RemoteFile>) returns (ok: bool)
    ensures ok == AllActive(ai, uploaded)
  {
    var i := 0;
    while i < |uploaded|
      invariant 0 <= i <= |uploaded|
      invariant forall k :: 0 <= k < i ==> Settled(ai.states(uploaded[k].name)) == Some(Active)
    {
      var states := ai.states(uploaded[i].name);
      var j := 0;
      while j < |states| && states[j] == Processing
        invariant 0 <= j <= |states|
        invariant forall k :: 0 <= k < j ==> states[k] == Processing
      {
        j := j + 1;
      }
      SettledAt(states, j);
      if j == |states| || states[j] != Active {
        return false;
      }
      i := i + 1;
    }
    return true;
  }

  method RunFlashAnalysis(fs: FileSystem, inp: Inputs, batch: seq<Video>,
                          comments: seq<CommentRow>, media: seq<string>) returns (r: FlashResult)
    ensures r == FlashAnalysis(inp, fs.files, batch, comments, media)
  {
    if inp.s.flashPromptPath !in fs.files {
      return NoTemplate;
    }
    var template := fs.files[inp.s.flashPromptPath];
    var prompt := Substitute(template,
      FlashBindings(inp.s.brand, inp.fmt.metadataTable(batch), CommentsText(comments)));
    var uploaded := UploadAll(inp.ai, media);
    if uploaded.None? {
      return Generated(None);
    }
    var active := WaitForFilesActive(inp.ai, uploaded.value);
    if !active {
      return Generated(None);
    }
    var finalPrompt := Substitute(prompt, MediaBindings(FileList(uploaded.value)));
    return Generated(inp.ai.generate(inp.s.flashModel, finalPrompt, uploaded.value));
  }

  /** A flash template without `{` reaches the model unchanged, with the
      uploaded files, once every upload succeeded and settled `Active`. */
  lemma FlashPlainTemplateSentAsIs(inp: Inputs, files: map<string, string>, batch: seq<Video>,
                                   comments: seq<CommentRow>, media: seq<string>)
    requires inp.s.flashPromptPath in files && '{' !in files[inp.s.flashPromptPath]
    ensures var up := UploadAll(inp.ai, media);
      FlashAnalysis(inp, files, batch, comments, media)
        == Generated(if up.Some? && AllActive(inp.ai, up.value)
                     then inp.ai.generate(inp.s.flashModel, files[inp.s.flashPromptPath], up.value)
                     else None)
  {
    var t := files[inp.s.flashPromptPath];
    SubstituteUntouched(t, FlashBindings(inp.s.brand, inp.fmt.metadataTable(batch), CommentsText(comments)));
    var up := UploadAll(inp.ai, media);
    if up.Some? {
      SubstituteUntouched(t, MediaBindings(FileList(up.value)));
    }
  }

  /** The shape of the two file-list placeholders, and the metadata
      placeholders all differ from them at the third character. */
  lemma FileListPlaceholders(brand: string, metadata: string, comments: string)
    ensures IsPlaceholder(AudioListPlaceholder) && IsPlaceholder(MediaListPlaceholder)
    ensures AudioListPlaceholder[2] == 'A' && MediaListPlaceholder[2] == 'M'
    ensures AllDifferAt2(FlashBindings(brand, metadata, comments), AudioListPlaceholder)
    ensures AllDifferAt2(FlashBindings(brand, metadata, comments), MediaListPlaceholder)
  {
    FileListShapes();
    FlashPlaceholderLetters(brand, metadata, comments);
  }

  lemma FileListShapes()
    ensures IsPlaceholder(AudioListPlaceholder) && IsPlaceholder(MediaListPlaceholder)
    ensures AudioListPlaceholder[2] == 'A' && MediaListPlaceholder[2] == 'M'
  {
    NoBraceIn("AUDIO_FILES_LIST}}");
    assert AudioListPlaceholder[2..] == "AUDIO_FILES_LIST}}";
    NoBraceIn("MEDIA_FILES_LIST}}");
    assert MediaListPlaceholder[2..] == "MEDIA_FILES_LIST}}";
  }

  /** Upper-case letters, `_` and `}` are not `{`. */
  lemma NoBraceIn(x: string)
    requires forall k :: 0 <= k < |x| ==> 'A' <= x[k] <= 'Z' || x[k] == '_' || x[k] == '}'
    ensures '{' !in x
  {
  }

  lemma FlashPlaceholderLetters(brand: string, metadata: string, comments: string)
    ensures var b := FlashBindings(brand, metadata, comments);
      forall i :: 0 <= i < |b| ==> |b[i].0| > 2 && b[i].0[0] == '{' && b[i].0[1] == '{' && b[i].0[2] in "BTVC"
  {
    var b := FlashBindings(brand, metadata, comments);
    assert b[0].0 == BrandPlaceholder && b[1].0 == TopicPlaceholder;
    assert b[2].0 == MetadataPlaceholder && b[3].0 == CommentsPlaceholder;
  }

  /** The two file-list substitutions, one after the other. */
  lemma MediaBindingsApply(t: string, list: string)
    ensures Substitute(t, MediaBindings(list))
              == Replace(Replace(t, AudioListPlaceholder, list), MediaListPlaceholder, list)
  {
    var b := MediaBindings(list);
    var t1 := Replace(t, AudioListPlaceholder, list);
    assert b[0] == (AudioListPlaceholder, list) && b[1..][0] == (MediaListPlaceholder, list);
    assert Substitute(t, b) == Substitute(t1, b[1..]);
    assert b[1..][1..] == [];
    assert Substitute(t1, b[1..]) == Substitute(Replace(t1, MediaListPlaceholder, list), []);
  }

  /** In a flash template with the media placeholder and no other `{`, the
      list of uploaded file names lands exactly where the placeholder was. */
  lemma MediaListFilled(pre: string, post: string, brand: string, metadata: string, comments: string, list: string)
    requires '{' !in pre && '{' !in post
    ensures Substitute(Substitute(pre + MediaListPlaceholder + post, FlashBindings(brand, metadata, comments)),
                       MediaBindings(list))
              == pre + list + post
  {
    var m, a := MediaListPlaceholder, AudioListPlaceholder;
    FileListPlaceholders(brand, metadata, comments);
    SubstituteKeeps(pre, m, post, FlashBindings(brand, metadata, comments));
    MediaBindingsApply(pre + m + post, list);
    ReplaceSkipsOther(pre, m, post, a, list);
    ReplaceAfterPlain(pre, m, post, list);
  }

  /** With both file-list placeholders and no other `{` (and no `{` in the
      file names), each of the two is replaced by the same list. */
  lemma BothFileListsFilled(pre: string, mid: string, post: string,
                            brand: string, metadata: string, comments: string, list: string)
    requires '{' !in pre && '{' !in mid && '{' !in post && '{' !in list
    ensures Substitute(Substitute(pre + AudioListPlaceholder + mid + MediaListPlaceholder + post,
                                  FlashBindings(brand, metadata, comments)),
                       MediaBindings(list))
              == pre + list + mid + list + post
  {
    var m, a := MediaListPlaceholder, AudioListPlaceholder;
    var t := pre + a + mid + m + post;
    FileListPlaceholders(brand, metadata, comments);
    SubstituteKeepsTwo(pre, a, mid, m, post, FlashBindings(brand, metadata, comments));
    MediaBindingsApply(t, list);
    ReplaceFirstOfTwo(pre, a, mid, m, post, list);
    var pre' := pre + list + mid;
    assert pre + list + mid + m + post == pre' + m + post;
    ReplaceAfterPlain(pre', m, post, list);
  }

  /** So the prompt `_run_flash_analysis` sends for such a template lists the
      uploaded files where the media placeholder was. */
  lemma FlashPromptListsMedia(inp: Inputs, files: map<string, string>, batch: seq<Video>,
                              comments: seq<CommentRow>, media: seq<string>, pre: string, post: string)
    requires inp.s.flashPromptPath in files
    requires files[inp.s.flashPromptPath] == pre + MediaListPlaceholder + post
    requires '{' !in pre && '{' !in post
    ensures var up := UploadAll(inp.ai, media);
      FlashAnalysis(inp, files, batch, comments, media)
        == Generated(if up.Some? && AllActive(inp.ai, up.value)
                     then inp.ai.generate(inp.s.flashModel, pre + FileList(up.value) + post, up.value)
                     else None)
  {
    var up := UploadAll(inp.ai, media);
    if up.Some? {
      MediaListFilled(pre, post, inp.s.brand, inp.fmt.metadataTable(batch), CommentsText(comments), FileList(up.value));
    }
  }

  /** ... and for a template with both placeholders, the same list is sent
      in both places. */
  lemma FlashPromptListsMediaTwice(inp: Inputs, files: map<string, string>, batch: seq<Video>,
                                   comments: seq<CommentRow>, media: seq<string>, pre: string, mid: string, post: string)
    requires inp.s.flashPromptPath in files
    requires files[inp.s.flashPromptPath] == pre + AudioListPlaceholder + mid + MediaListPlaceholder + post
    requires '{' !in pre && '{' !in mid && '{' !in post
    requires UploadAll(inp.ai, media).Some? ==> '{' !in FileList(UploadAll(inp.ai, media).value)
    ensures var up := UploadAll(inp.ai, media);
      FlashAnalysis(inp, files, batch, comments, media)
        == Generated(if up.Some? && AllActive(inp.ai, up.value)
                     then var list := FileList(up.value);
                          inp.ai.generate(inp.s.flashModel, pre + list + mid + list + post, up.value)
                     else None)
  {
    var up := UploadAll(inp.ai, media);
    if up.Some? {
      BothFileListsFilled(pre, mid, post, inp.s.brand, inp.fmt.metadataTable(batch), CommentsText(comments), FileList(up.value));
    }
  }

  // ---------------------------------------------------------------------------
  // the batch loop
  // ---------------------------------------------------------------------------

  /** What happens to one batch: its cache entry is read, or a fresh summary
      is written, or the call fails, or the template is missing. */
  datatype Decision = Hit(cached: string) | Fresh(summary: string) | Failure | Abort

  /** The decision for batch `i` when the files are `seen`. */
  function Decide(inp: Inputs, seen: map<string, string>, i: nat): Decision
    requires inp.s.batchSize > 0
  {
    var path := CachePath(inp.s, i + 1);
    if path in seen then Hit(seen[path])
    else
      match FlashOutcome(inp, seen, i)
      case NoTemplate => Abort
      case Generated(t) => if t.Some? && t.value != "" then Fresh(t.value) else Failure
  }

  /** The loop's state: the files, the summaries collected, the batch numbers
      sent to the flash model and those among them that failed, and whether a
      missing template stopped the loop. */
  datatype Stage1State = Stage1State(
    files: map<string, string>,
    summaries: seq<string>,
    attempted: seq<nat>,
    failed: seq<nat>,
    aborted: bool)

  function Initial(files0: map<string, string>): Stage1State
  {
    Stage1State(files0, [], [], [], false)
  }

  /** Applying the decision for batch number `n`. */
  function Advance(s: Settings, st: Stage1State, d: Decision, n: nat): Stage1State
  {
    match d
    case Hit(t) => st.(summaries := st.summaries + [t])
    case Fresh(t) =>
      st.(files := st.files[CachePath(s, n) := t], summaries := st.summaries + [t],
          attempted := st.attempted + [n])
    case Failure => st.(attempted := st.attempted + [n], failed := st.failed + [n])
    case Abort => st.(aborted := true)
  }

  /** Batch number `n` of a loop that is still running. */
  function Step(s: Settings, st: Stage1State, d: Decision, n: nat): Stage1State
  {
    if st.aborted then st else Advance(s, st, d, n)
  }

  /** The state after the first `k` batches, each decided on the files as the
      earlier batches left them. */
  function Stage1Upto(inp: Inputs, files0: map<string, string>, k: nat): Stage1State
    requires k == 0 || inp.s.batchSize > 0
  {
    if k == 0 then Initial(files0)
    else
      var st := Stage1Upto(inp, files0, k - 1);
      Step(inp.s, st, Decide(inp, st.files, k - 1), k)
  }

  datatype Stage1Result = DivisionByZero | Ran(state: Stage1State)

  /** `_process_batches` on the files `files0`. */
  function Stage1(inp: Inputs, files0: map<string, string>): Stage1Result
  {
    match NumBatches(|inp.videos|, inp.s.batchSize)
    case None => DivisionByZero
    case Some(k) => Ran(Stage1Upto(inp, files0, k))
  }

  /** A run of the batch loop in which batch `i` is decided by `dec(i)`. */
  function DecidedRun(s: Settings, files0: map<string, string>, dec: nat -> Decision, k: nat): Stage1State
  {
    if k == 0 then Initial(files0)
    else
      var st := DecidedRun(s, files0, dec, k - 1);
      Step(s, st, dec(k - 1), k)
  }

  /** Every batch decided on the files the loop has when it reaches it. */
  function OnlineDecisions(inp: Inputs, files0: map<string, string>): nat -> Decision
    requires inp.s.batchSize > 0
  {
    (i: nat) => Decide(inp, Stage1Upto(inp, files0, i).files, i)
  }

  lemma {:induction false} UptoIsOnline(inp: Inputs, files0: map<string, string>, k: nat)
    requires inp.s.batchSize > 0
    ensures Stage1Upto(inp, files0, k) == DecidedRun(inp.s, files0, OnlineDecisions(inp, files0), k)
  {
    if k > 0 {
      UptoIsOnline(inp, files0, k - 1);
      OnlineApply(inp, files0, k - 1);
      UptoStep(inp, files0, k);
    }
  }

  lemma OnlineApply(inp: Inputs, files0: map<string, string>, i: nat)
    requires inp.s.batchSize > 0
    ensures OnlineDecisions(inp, files0)(i) == Decide(inp, Stage1Upto(inp, files0, i).files, i)
  {
  }

  lemma UptoStep(inp: Inputs, files0: map<string, string>, k: nat)
    requires inp.s.batchSize > 0 && k > 0
    ensures var st := Stage1Upto(inp, files0, k - 1);
      Stage1Upto(inp, files0, k) == Step(inp.s, st, Decide(inp, st.files, k - 1), k)
  {
  }

  /** A stopped run stays as it stopped. */
  lemma {:induction false} RunAbortedStays(s: Settings, files0: map<string, string>, dec: nat -> Decision, j: nat, k: nat)
    requires j <= k
    requires DecidedRun(s, files0, dec, j).aborted
    ensures DecidedRun(s, files0, dec, k) == DecidedRun(s, files0, dec, j)
    decreases k - j
  {
    if j < k {
      RunAbortedStays(s, files0, dec, j, k - 1);
    }
  }

  /** An aborted run stays as it stopped. */
  lemma AbortedStays(inp: Inputs, files0: map<string, string>, j: nat, k: nat)
    requires j <= k
    requires k == 0 || inp.s.batchSize > 0
    requires Stage1Upto(inp, files0, j).aborted
    ensures Stage1Upto(inp, files0, k) == Stage1Upto(inp, files0, j)
  {
    if k > 0 {
      UptoIsOnline(inp, files0, j);
      UptoIsOnline(inp, files0, k);
      RunAbortedStays(inp.s, files0, OnlineDecisions(inp, files0), j, k);
    }
  }

  /** The body of the batch loop for batch `i`: the cache lookup, or the media
      lookup, the flash call and the cache write of a non-empty summary. */
  method ProcessBatch(fs: FileSystem, inp: Inputs, i: nat) returns (d: Decision)
    requires inp.s.batchSize > 0
    modifies fs
    ensures d == Decide(inp, old(fs.files), i)
    ensures fs.files == if d.Fresh? then old(fs.files)[CachePath(inp.s, i + 1) := d.summary] else old(fs.files)
    ensures fs.dirs == old(fs.dirs)
  {
    var path := CachePath(inp.s, i + 1);
    if path in fs.files {
      return Hit(fs.files[path]);
    }
    var batch := BatchVideos(inp.videos, inp.s.batchSize, i);
    var ids := VideoIds(batch);
    var batchComments := BatchComments(inp.comments, ids);
    var media := ResolveMedia(fs, inp.s, ids);
    var outcome := RunFlashAnalysis(fs, inp, batch, batchComments, media);
    if outcome.NoTemplate? {
      return Abort;
    }
    var summary := outcome.text;
    if summary.Some? && summary.value != "" {
      fs.WriteFile(path, summary.value);
      return Fresh(summary.value);
    }
    return Failure;
  }

  method ProcessBatches(fs: FileSystem, inp: Inputs) returns (r: Stage1Result)
    modifies fs
    ensures r == Stage1(inp, old(fs.files))
    ensures r.Ran? ==> fs.files == r.state.files
    ensures r.DivisionByZero? ==> fs.files == old(fs.files)
    ensures fs.dirs == old(fs.dirs)
  {
    ghost var files0 := fs.files;
    var count := NumBatches(|inp.videos|, inp.s.batchSize);
    if count.None? {
      return DivisionByZero;
    }
    var k := count.value;
    var summaries: seq<string> := [];
    var attempted: seq<nat> := [];
    var failed: seq<nat> := [];
    var i := 0;
    while i < k
      invariant 0 <= i <= k
      invariant fs.dirs == old(fs.dirs)
      invariant Stage1Upto(inp, files0, i) == Stage1State(fs.files, summaries, attempted, failed, false)
    {
      var n := i + 1;
      var d := ProcessBatch(fs, inp, i);
      match d {
        case Hit(t) =>
          summaries := summaries + [t];
        case Fresh(t) =>
          summaries := summaries + [t];
          attempted := attempted + [n];
        case Failure =>
          attempted := attempted + [n];
          failed := failed + [n];
        case Abort =>
          var st := Stage1State(fs.files, summaries, attempted, failed, true);
          assert Stage1Upto(inp, files0, n) == st;
          AbortedStays(inp, files0, n, k);
          return Ran(st);
      }
      i := i + 1;
    }
    return Ran(Stage1State(fs.files, summaries, attempted, failed, false));
  }
}
