/** The records shared by the crawler, the comment extractor, the analyzer and
    the pipeline: a discovered video (one row of `<brand>_discovered_videos.csv`),
    a comment row as the pipeline reads it back, column totals, and ranking by
    a numeric column in descending order. */
module Records {
  import opened Wrappers
  import opened Slices

  /** Prefix of every watch URL the crawler and the comment extractor build. */
  const WatchUrlPrefix: string := "https://www.youtube.com/watch?v="

  function WatchUrl(videoId: string): string
  {
    WatchUrlPrefix + videoId
  }

  /** `not next_page_token`: a page without a (non-empty) `nextPageToken` is
      the last one. */
  predicate NoMorePages(next: Option<string>)
  {
    next == None || next == Some("")
  }

  /** One discovered video with its statistics (all non-negative). */
  datatype Video = Video(
    id: string,
    title: string,
    url: string,
    channel: string,
    views: nat,
    likes: nat,
    comments: nat,
    engagement: nat,
    description: string)

  /** One row of `<brand>_raw_comments.csv` as pandas reads it: the video it
      belongs to (`id_video`) and its text (`texto_comentario`), `None` when
      the cell is empty. */
  datatype CommentRow = CommentRow(videoId: string, text: Option<string>)

  /** The numeric columns of the videos table. */
  datatype Stat = Views | Likes | Comments | Engagement

  function StatOf(v: Video, s: Stat): nat
  {
    match s
    case Views => v.views
    case Likes => v.likes
    case Comments => v.comments
    case Engagement => v.engagement
  }

  /** `df[column].sum()`. */
  function Total(vs: seq<Video>, s: Stat): nat
  {
    if vs == [] then 0 else Total(vs[..|vs| - 1], s) + StatOf(vs[|vs| - 1], s)
  }

  lemma {:induction false} TotalAppend(a: seq<Video>, b: seq<Video>, s: Stat)
    ensures Total(a + b, s) == Total(a, s) + Total(b, s)
    decreases |b|
  {
    if b == [] {
      assert a + b == a;
    } else {
      TotalAppend(a, b[..|b| - 1], s);
      assert (a + b)[..|a + b| - 1] == a + b[..|b| - 1];
    }
  }

  /** When every row's engagement is its likes plus its comments (as the
      crawler computes it), the engagement total is the likes total plus the
      comments total. */
  lemma {:induction false} EngagementTotal(vs: seq<Video>)
    requires forall i :: 0 <= i < |vs| ==> vs[i].engagement == vs[i].likes + vs[i].comments
    ensures Total(vs, Engagement) == Total(vs, Likes) + Total(vs, Comments)
  {
    if vs != [] {
      EngagementTotal(vs[..|vs| - 1]);
    }
  }

  /** Non-increasing in column `s`. */
  predicate SortedDesc(vs: seq<Video>, s: Stat)
  {
    forall i, j :: 0 <= i < j < |vs| ==> StatOf(vs[i], s) >= StatOf(vs[j], s)
  }

  function Insert(x: Video, vs: seq<Video>, s: Stat): seq<Video>
  {
    if vs == [] || StatOf(x, s) >= StatOf(vs[0], s) then [x] + vs
    else [vs[0]] + Insert(x, vs[1..], s)
  }

  /** Putting in front an element at least as large as everything keeps a list ranked. */
  lemma ConsSorted(y: Video, rest: seq<Video>, s: Stat)
    requires SortedDesc(rest, s)
    requires forall z :: z in rest ==> StatOf(z, s) <= StatOf(y, s)
    ensures SortedDesc([y] + rest, s)
  {
    var r := [y] + rest;
    forall i, j | 0 <= i < j < |r| ensures StatOf(r[i], s) >= StatOf(r[j], s) {
      if i == 0 {
        assert r[j] == rest[j - 1] && r[j] in rest;
      } else {
        assert r[i] == rest[i - 1] && r[j] == rest[j - 1];
      }
    }
  }

  lemma SortedHeadIsLargest(vs: seq<Video>, s: Stat)
    requires SortedDesc(vs, s) && vs != []
    ensures forall z :: z in vs ==> StatOf(z, s) <= StatOf(vs[0], s)
  {
    forall z | z in vs ensures StatOf(z, s) <= StatOf(vs[0], s) {
      var k :| 0 <= k < |vs| && vs[k] == z;
      if k > 0 {
        assert StatOf(vs[0], s) >= StatOf(vs[k], s);
      }
    }
  }

  /** Inserting into a ranked list keeps it ranked and adds exactly one element. */
  lemma {:induction false} InsertSpec(x: Video, vs: seq<Video>, s: Stat)
    requires SortedDesc(vs, s)
    ensures SortedDesc(Insert(x, vs, s), s)
    ensures multiset(Insert(x, vs, s)) == multiset(vs) + multiset{x}
    ensures |Insert(x, vs, s)| == |vs| + 1
  {
    if vs == [] {
      ConsSorted(x, vs, s);
    } else if StatOf(x, s) >= StatOf(vs[0], s) {
      SortedHeadIsLargest(vs, s);
      ConsSorted(x, vs, s);
    } else {
      var tail := vs[1..];
      assert vs == [vs[0]] + tail;
      InsertSpec(x, tail, s);
      var rest := Insert(x, tail, s);
      SortedHeadIsLargest(vs, s);
      forall z | z in rest ensures StatOf(z, s) <= StatOf(vs[0], s) {
        assert z in multiset(rest);
        assert z == x || z in multiset(tail);
      }
      ConsSorted(vs[0], rest, s);
    }
  }

  /** `sort_values(by=column, ascending=False)`: non-increasing in the column and
      a permutation of the input. (pandas' default sort is not stable, so the
      order among equal values is not part of the contract.) */
  function SortDesc(vs: seq<Video>, s: Stat): (r: seq<Video>)
    ensures SortedDesc(r, s)
    ensures multiset(r) == multiset(vs)
    ensures |r| == |vs|
  {
    if vs == [] then []
    else
      var rest := SortDesc(vs[1..], s);
      InsertSpec(vs[0], rest, s);
      assert vs == [vs[0]] + vs[1..];
      Insert(vs[0], rest, s)
  }

  /** `sort_values(by=column, ascending=False).head(k)`. */
  function TopBy(vs: seq<Video>, s: Stat, k: nat): seq<Video>
  {
    Take(SortDesc(vs, s), k)
  }

  /** In a ranked list, nothing after position `m` is larger than anything before it. */
  lemma SortedSplit(r: seq<Video>, s: Stat, m: nat)
    requires SortedDesc(r, s) && m <= |r|
    ensures forall x, y :: x in r[m..] && y in r[..m] ==> StatOf(x, s) <= StatOf(y, s)
  {
    forall x, y | x in r[m..] && y in r[..m] ensures StatOf(x, s) <= StatOf(y, s) {
      var i :| 0 <= i < |r| - m && r[m..][i] == x;
      var j :| 0 <= j < m && r[..m][j] == y;
      assert r[m + i] == x && r[j] == y;
    }
  }

  /** A prefix of a ranking of `vs` keeps the ranking, comes from `vs`, and no
      row of `vs` outside it is larger than a row inside it. */
  lemma PrefixOfRanking(vs: seq<Video>, r: seq<Video>, s: Stat, m: nat)
    requires SortedDesc(r, s) && multiset(r) == multiset(vs) && m <= |r|
    ensures SortedDesc(r[..m], s)
    ensures multiset(r[..m]) <= multiset(vs)
    ensures forall x, y :: x in multiset(vs) - multiset(r[..m]) && y in r[..m]
              ==> StatOf(x, s) <= StatOf(y, s)
  {
    SortedPrefix(r, s, m);
    SplitMultiset(vs, r, m);
    SortedSplit(r, s, m);
    forall x, y | x in multiset(vs) - multiset(r[..m]) && y in r[..m] ensures StatOf(x, s) <= StatOf(y, s) {
      assert x in r[m..];
    }
  }

  lemma SortedPrefix(r: seq<Video>, s: Stat, m: nat)
    requires SortedDesc(r, s) && m <= |r|
    ensures SortedDesc(r[..m], s)
  {
    forall i, j | 0 <= i < j < m ensures StatOf(r[..m][i], s) >= StatOf(r[..m][j], s) {
      assert r[..m][i] == r[i] && r[..m][j] == r[j];
    }
  }

  /** Splitting a permutation of `vs` leaves the rest of `vs` beyond the prefix. */
  lemma SplitMultiset(vs: seq<Video>, r: seq<Video>, m: nat)
    requires multiset(r) == multiset(vs) && m <= |r|
    ensures multiset(r[..m]) <= multiset(vs)
    ensures multiset(vs) - multiset(r[..m]) == multiset(r[m..])
  {
    assert r == r[..m] + r[m..];
  }

  /** The first `k` after ranking are `k` of the rows (or all of them), ranked,
      and no row left out has a larger value than any row kept. */
  lemma TopByIsTop(vs: seq<Video>, s: Stat, k: nat)
    ensures |TopBy(vs, s, k)| == Min(k, |vs|)
    ensures SortedDesc(TopBy(vs, s, k), s)
    ensures multiset(TopBy(vs, s, k)) <= multiset(vs)
    ensures forall x, y :: x in multiset(vs) - multiset(TopBy(vs, s, k)) && y in TopBy(vs, s, k)
              ==> StatOf(x, s) <= StatOf(y, s)
  {
    var r := SortDesc(vs, s);
    var m := Min(k, |vs|);
    assert TopBy(vs, s, k) == r[..m];
    PrefixOfRanking(vs, r, s, m);
  }
}
