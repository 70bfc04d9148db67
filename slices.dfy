/** Python/pandas sequence slicing, `head`, and cutting a sequence into
    consecutive fixed-size chunks (the shape of both the pipeline's batches and
    the crawler's 50-id detail requests). */
module Slices {

  function Min(a: int, b: int): int
  {
    if a < b then a else b
  }

  /** `s[lo:hi]` for non-negative bounds: both clamp to the length, and a
      reversed range is empty. */
  function Slice<T>(s: seq<T>, lo: nat, hi: nat): seq<T>
  {
    if lo >= |s| || hi <= lo then [] else s[lo..Min(hi, |s|)]
  }

  /** The first `n` elements, or all of them when there are fewer. */
  function Take<T>(s: seq<T>, n: nat): (r: seq<T>)
    ensures |r| == Min(n, |s|)
    ensures r == s[..|r|]
  {
    if n < |s| then s[..n] else s
  }

  /** `DataFrame.head(n)`: the first `n` rows; a negative `n` keeps all rows
      but the last `-n`. */
  function Head<T>(s: seq<T>, n: int): (r: seq<T>)
    ensures |r| <= |s| && r == s[..|r|]
    ensures n >= 0 ==> |r| == Min(n, |s|)
    ensures n < 0 ==> |r| == (if |s| + n > 0 then |s| + n else 0)
  {
    if n >= 0 then Take(s, n) else Take(s, if |s| + n > 0 then |s| + n else 0)
  }

  /** `math.ceil(n / size)` for a positive `size`. */
  function CeilDiv(n: nat, size: nat): nat
    requires size > 0
  {
    (n + size - 1) / size
  }

  /** The chunk count is the least `c` with `c * size >= n`. */
  lemma CeilDivBounds(n: nat, size: nat)
    requires size > 0
    ensures CeilDiv(n, size) * size >= n
    ensures CeilDiv(n, size) > 0 ==> (CeilDiv(n, size) - 1) * size < n
  {
    var c, r := (n + size - 1) / size, (n + size - 1) % size;
    assert n + size - 1 == c * size + r;
    assert (c - 1) * size == c * size - size;
  }

  /** Concatenation of a list of lists, `[x for part in ss for x in part]`. */
  function Flatten<T>(ss: seq<seq<T>>): seq<T>
  {
    if ss == [] then [] else Flatten(ss[..|ss| - 1]) + ss[|ss| - 1]
  }

  /** The `k`-th chunk, `s[k*size : k*size+size]`. */
  function Chunk<T>(s: seq<T>, size: nat, k: nat): seq<T>
  {
    Slice(s, k * size, k * size + size)
  }

  /** All chunks in order: as many as `ceil(|s| / size)`. */
  function Chunks<T>(s: seq<T>, size: nat): (r: seq<seq<T>>)
    requires size > 0
    ensures |r| == CeilDiv(|s|, size)
    ensures forall k :: 0 <= k < |r| ==> r[k] == Chunk(s, size, k)
  {
    seq(CeilDiv(|s|, size), k requires 0 <= k => Chunk(s, size, k))
  }

  lemma MulStep(j: nat, size: nat)
    ensures (j + 1) * size == j * size + size
  {
  }

  lemma MulMonotone(a: nat, b: nat, size: nat)
    requires a <= b
    ensures a * size <= b * size
  {
  }

  lemma {:induction false} FlattenPrefixOfChunks<T>(s: seq<T>, size: nat, m: nat)
    requires size > 0
    requires m <= CeilDiv(|s|, size)
    ensures Flatten(Chunks(s, size)[..m]) == s[..Min(m * size, |s|)]
  {
    var cs := Chunks(s, size);
    if m > 0 {
      var j := m - 1;
      ChunkStart(s, size, m);
      var lo, hi := j * size, m * size;
      FlattenPrefixOfChunks(s, size, j);
      var e := Min(hi, |s|);
      assert cs[j] == s[lo..e];
      FlattenStep(cs, m, s[..lo], s[lo..e]);
      PrefixThenSlice(s, lo, e);
    }
  }

  lemma FlattenStep<T>(ss: seq<seq<T>>, m: nat, pre: seq<T>, last: seq<T>)
    requires 0 < m <= |ss| && Flatten(ss[..m - 1]) == pre && ss[m - 1] == last
    ensures Flatten(ss[..m]) == pre + last
  {
    assert ss[..m][..m - 1] == ss[..m - 1];
  }

  /** Chunk `j` before the count starts inside the sequence, `size` before the next. */
  lemma ChunkStart<T>(s: seq<T>, size: nat, m: nat)
    requires size > 0 && 0 < m <= CeilDiv(|s|, size)
    ensures (m - 1) * size < |s| && m * size == (m - 1) * size + size
  {
    CeilDivBounds(|s|, size);
    MulMonotone(m - 1, CeilDiv(|s|, size) - 1, size);
    MulStep(m - 1, size);
  }

  lemma PrefixThenSlice<T>(s: seq<T>, lo: nat, hi: nat)
    requires lo <= hi <= |s|
    ensures s[..lo] + s[lo..hi] == s[..hi]
  {
  }

  /** The chunks partition the sequence: their concatenation is the sequence
      itself, in order, and each chunk holds between one and `size` elements. */
  lemma ChunksPartition<T>(s: seq<T>, size: nat)
    requires size > 0
    ensures Flatten(Chunks(s, size)) == s
    ensures forall k :: 0 <= k < |Chunks(s, size)| ==> 0 < |Chunks(s, size)[k]| <= size
  {
    var cs := Chunks(s, size);
    var c := |cs|;
    CeilDivBounds(|s|, size);
    FlattenPrefixOfChunks(s, size, c);
    assert cs[..c] == cs;
    assert Min(c * size, |s|) == |s|;
    forall k | 0 <= k < c ensures 0 < |cs[k]| <= size {
      ChunkSize(s, size, k);
    }
  }

  /** Every chunk before the count holds between one and `size` elements. */
  lemma ChunkSize<T>(s: seq<T>, size: nat, k: nat)
    requires size > 0 && k < CeilDiv(|s|, size)
    ensures 0 < |Chunk(s, size, k)| <= size
  {
    CeilDivBounds(|s|, size);
    MulMonotone(k, CeilDiv(|s|, size) - 1, size);
    assert k * size < |s|;
  }

  /** Flattening distributes over concatenation. */
  lemma {:induction false} FlattenAppend<T>(a: seq<seq<T>>, b: seq<seq<T>>)
    ensures Flatten(a + b) == Flatten(a) + Flatten(b)
    decreases |b|
  {
    if b == [] {
      assert a + b == a;
    } else {
      var init, last := b[..|b| - 1], b[|b| - 1];
      FlattenAppend(a, init);
      assert (a + b)[..|a + b| - 1] == a + init;
      FlattenSnoc(a + b);
      FlattenSnoc(b);
      assert Flatten(a + b) == (Flatten(a) + Flatten(init)) + last;
    }
  }

  lemma FlattenSnoc<T>(ss: seq<seq<T>>)
    requires ss != []
    ensures Flatten(ss) == Flatten(ss[..|ss| - 1]) + ss[|ss| - 1]
  {
  }

  /** An element is in the concatenation exactly when it is in one of the parts. */
  lemma {:induction false} InFlatten<T>(ss: seq<seq<T>>, x: T)
    ensures x in Flatten(ss) <==> exists k :: 0 <= k < |ss| && x in ss[k]
    decreases |ss|
  {
    if ss != [] {
      var init := ss[..|ss| - 1];
      InFlatten(init, x);
      if x in Flatten(init) {
        var k :| 0 <= k < |init| && x in init[k];
        assert ss[k] == init[k];
      }
      if exists k :: 0 <= k < |ss| && x in ss[k] {
        var k :| 0 <= k < |ss| && x in ss[k];
        if k < |init| {
          assert init[k] == ss[k];
        }
      }
    }
  }

  /** Taking from a concatenation takes from the first part, then the rest from the second. */
  lemma TakeAppend<T>(a: seq<T>, b: seq<T>, n: nat)
    ensures Take(a + b, n) == if n <= |a| then a[..n] else a + Take(b, n - |a|)
  {
    if n <= |a| {
      assert (a + b)[..n] == a[..n];
    } else if n < |a + b| {
      assert (a + b)[..n] == a + b[..n - |a|];
    }
  }

  /** Parts of at most `m` elements each concatenate to at most `m` per part. */
  lemma {:induction false} FlattenLength<T>(ss: seq<seq<T>>, m: nat)
    requires forall k :: 0 <= k < |ss| ==> |ss[k]| <= m
    ensures |Flatten(ss)| <= m * |ss|
    decreases |ss|
  {
    if ss != [] {
      FlattenLength(ss[..|ss| - 1], m);
      assert m * |ss| == m * (|ss| - 1) + m;
    }
  }
}
