/** What the cache guarantees about Stage 1. Each batch is decided by the
    filesystem as the run found it: a batch is sent to the flash model at
    most once, and only when its cache entry was missing. A failure changes
    nothing but its own batch. A rerun after a complete run retries exactly
    the batches that failed, and writes nothing else. */
module BatchCache {
  import opened Wrappers
  import opened Records
  import opened Oracles
  import opened PipelineSettings
  import opened BatchStage
  import opened Text

  /** `a` and `b` agree about path `p`. */
  predicate AgreeOn(a: map<string, string>, b: map<string, string>, p: string)
  {
    (p in a <==> p in b) && (p in a ==> a[p] == b[p])
  }

  /** The flash template is not itself one of the cache entries. */
  ghost predicate TemplateApart(s: Settings)
  {
    forall n :: s.flashPromptPath != CachePath(s, n)
  }

  /** A flash template whose name does not end like a cache entry is apart
      from every cache entry. */
  lemma TemplateApartOfName(s: Settings)
    requires !EndsWith(s.flashPromptPath, "_summary.txt")
    ensures TemplateApart(s)
  {
    NotACacheEntry(s, s.flashPromptPath);
  }

  /** Every batch decided on the initial files `files0`. */
  function Decisions(inp: Inputs, files0: map<string, string>): nat -> Decision
    requires inp.s.batchSize > 0
  {
    (i: nat) => Decide(inp, files0, i)
  }

  /** The reference run: every batch decided on the initial files. */
  function Stage1Ref(inp: Inputs, files0: map<string, string>, k: nat): Stage1State
    requires inp.s.batchSize > 0
  {
    DecidedRun(inp.s, files0, Decisions(inp, files0), k)
  }

  /** The summaries the first `k` decisions contribute. */
  function Collected(dec: nat -> Decision, k: nat): seq<string>
  {
    if k == 0 then []
    else
      Collected(dec, k - 1) +
        match dec(k - 1)
        case Hit(t) => [t]
        case Fresh(t) => [t]
        case _ => []
  }

  /** Decisions that read the cache exactly where `files0` has an entry, and
      read what the entry holds. */
  ghost predicate CacheDecided(s: Settings, files0: map<string, string>, dec: nat -> Decision)
  {
    forall i: nat ::
      (dec(i).Hit? <==> CachePath(s, i + 1) in files0)
      && (dec(i).Hit? ==> dec(i).cached == files0[CachePath(s, i + 1)])
  }

  /** How `Decide` depends on the files: a batch is read from the cache
      exactly when its entry exists, and the run stops exactly when there is
      neither an entry nor a template. */
  lemma DecideShape(inp: Inputs, files: map<string, string>, i: nat)
    requires inp.s.batchSize > 0
    ensures Decide(inp, files, i).Hit? <==> CachePath(inp.s, i + 1) in files
    ensures Decide(inp, files, i).Hit? ==> Decide(inp, files, i).cached == files[CachePath(inp.s, i + 1)]
    ensures Decide(inp, files, i) == Abort <==>
              CachePath(inp.s, i + 1) !in files && inp.s.flashPromptPath !in files
  {
  }

  lemma DecisionsCacheDecided(inp: Inputs, files0: map<string, string>)
    requires inp.s.batchSize > 0
    ensures CacheDecided(inp.s, files0, Decisions(inp, files0))
  {
    forall i: nat
      ensures var d := Decisions(inp, files0)(i);
        (d.Hit? <==> CachePath(inp.s, i + 1) in files0)
        && (d.Hit? ==> d.cached == files0[CachePath(inp.s, i + 1)])
    {
      DecideShape(inp, files0, i);
    }
  }

  /** The batch loop writes only cache entries of its batches. */
  lemma UptoFrame(inp: Inputs, files0: map<string, string>, k: nat, p: string)
    requires k == 0 || inp.s.batchSize > 0
    requires forall m :: 1 <= m <= k ==> p != CachePath(inp.s, m)
    ensures AgreeOn(Stage1Upto(inp, files0, k).files, files0, p)
  {
    if k > 0 {
      UptoIsOnline(inp, files0, k);
      RunFrame(inp.s, files0, OnlineDecisions(inp, files0), k, p);
    }
  }

  // ---------------------------------------------------------------------------
  // facts about any decided run
  // ---------------------------------------------------------------------------

  /** A run writes only the cache entries of its batches. */
  lemma {:induction false} RunFrame(s: Settings, files0: map<string, string>, dec: nat -> Decision, k: nat, p: string)
    requires forall m :: 1 <= m <= k ==> p != CachePath(s, m)
    ensures AgreeOn(DecidedRun(s, files0, dec, k).files, files0, p)
  {
    if k > 0 {
      RunFrame(s, files0, dec, k - 1, p);
    }
  }

  lemma {:induction false} RunNotAborted(s: Settings, files0: map<string, string>, dec: nat -> Decision, j: nat, k: nat)
    requires j <= k && !DecidedRun(s, files0, dec, k).aborted
    ensures !DecidedRun(s, files0, dec, j).aborted
    ensures j < k ==> dec(j) != Abort
    decreases k - j
  {
    if j < k {
      RunNotAborted(s, files0, dec, j + 1, k);
    }
  }

  /** Which batches are sent: only those decided `Fresh` or `Failure`, each
      once, in increasing order, and all of them when the run was not
      stopped. */
  lemma {:induction false} RunAttempted(s: Settings, files0: map<string, string>, dec: nat -> Decision, k: nat)
    ensures var st := DecidedRun(s, files0, dec, k);
      (forall n :: n in st.attempted ==> 1 <= n <= k && (dec(n - 1).Fresh? || dec(n - 1).Failure?))
      && (forall a, b :: 0 <= a < b < |st.attempted| ==> st.attempted[a] < st.attempted[b])
      && (!st.aborted ==> forall n :: 1 <= n <= k && (dec(n - 1).Fresh? || dec(n - 1).Failure?) ==> n in st.attempted)
  {
    if k > 0 {
      RunAttempted(s, files0, dec, k - 1);
      var prev := DecidedRun(s, files0, dec, k - 1);
      if !prev.aborted && (dec(k - 1).Fresh? || dec(k - 1).Failure?) {
        assert DecidedRun(s, files0, dec, k).attempted == prev.attempted + [k];
        forall a | 0 <= a < |prev.attempted| ensures prev.attempted[a] < k {
          assert prev.attempted[a] in prev.attempted;
        }
      }
    }
  }

  lemma AttemptedBelow(s: Settings, files0: map<string, string>, dec: nat -> Decision, k: nat, n: nat)
    requires n > k
    ensures n !in DecidedRun(s, files0, dec, k).attempted
  {
    RunAttempted(s, files0, dec, k);
  }

  /** The failed batches are exactly the ones sent whose decision is `Failure`. */
  lemma {:induction false} RunFailed(s: Settings, files0: map<string, string>, dec: nat -> Decision, k: nat)
    ensures forall n :: n in DecidedRun(s, files0, dec, k).failed <==>
              n in DecidedRun(s, files0, dec, k).attempted && 1 <= n && dec(n - 1) == Failure
  {
    if k > 0 {
      RunFailed(s, files0, dec, k - 1);
      RunAttempted(s, files0, dec, k - 1);
      var prev := DecidedRun(s, files0, dec, k - 1);
      var st := DecidedRun(s, files0, dec, k);
      assert st == Step(s, prev, dec(k - 1), k);
      if !prev.aborted && (dec(k - 1).Fresh? || dec(k - 1).Failure?) {
        assert st.attempted == prev.attempted + [k];
        AttemptedBelow(s, files0, dec, k - 1, k);
        forall n ensures n in st.failed <==> n in st.attempted && 1 <= n && dec(n - 1) == Failure {
          assert n in st.attempted <==> n in prev.attempted || n == k;
          if dec(k - 1).Failure? {
            assert st.failed == prev.failed + [k];
          } else {
            assert st.failed == prev.failed;
          }
        }
      } else {
        assert st.attempted == prev.attempted && st.failed == prev.failed;
        forall n ensures n in st.failed <==> n in st.attempted && 1 <= n && dec(n - 1) == Failure {
          assert n in prev.failed <==> n in prev.attempted && 1 <= n && dec(n - 1) == Failure;
        }
      }
    }
  }

  /** The cache entry of batch `n` after `k >= n` batches: as it was, unless
      the batch wrote a fresh summary. */
  lemma {:induction false} RunCacheEntry(s: Settings, files0: map<string, string>, dec: nat -> Decision, k: nat, n: nat)
    requires 1 <= n <= k && !DecidedRun(s, files0, dec, k).aborted
    ensures var files, p := DecidedRun(s, files0, dec, k).files, CachePath(s, n);
      if dec(n - 1).Fresh? then p in files && files[p] == dec(n - 1).summary else AgreeOn(files, files0, p)
  {
    RunNotAborted(s, files0, dec, n - 1, k);
    if k == n {
      forall m | 1 <= m <= n - 1 ensures CachePath(s, n) != CachePath(s, m) {
        CacheEntriesDistinct(s, n, m);
      }
      RunFrame(s, files0, dec, n - 1, CachePath(s, n));
    } else {
      RunCacheEntry(s, files0, dec, k - 1, n);
      RunNotAborted(s, files0, dec, k - 1, k);
      CacheEntriesDistinct(s, n, k);
    }
  }

  /** The summaries are the contributions of the batches, in batch order. */
  lemma {:induction false} RunSummaries(s: Settings, files0: map<string, string>, dec: nat -> Decision, k: nat)
    requires !DecidedRun(s, files0, dec, k).aborted
    ensures DecidedRun(s, files0, dec, k).summaries == Collected(dec, k)
  {
    if k > 0 {
      RunNotAborted(s, files0, dec, k - 1, k);
      RunSummaries(s, files0, dec, k - 1);
    }
  }

  // ---------------------------------------------------------------------------
  // the real run is the reference run
  // ---------------------------------------------------------------------------

  lemma {:induction false} ResolvedMediaFrame(s: Settings, a: map<string, string>, b: map<string, string>, ids: seq<string>)
    requires forall v :: AgreeOn(a, b, VideoPath(s, v)) && AgreeOn(a, b, AudioPath(s, v))
    ensures ResolvedMedia(s, a, ids) == ResolvedMedia(s, b, ids)
    decreases |ids|
  {
    if ids != [] {
      var v := ids[|ids| - 1];
      assert AgreeOn(a, b, VideoPath(s, v)) && AgreeOn(a, b, AudioPath(s, v));
      ResolvedMediaFrame(s, a, b, ids[..|ids| - 1]);
    }
  }

  /** A batch's flash result depends only on the template and the media files. */
  lemma FlashOutcomeFrame(inp: Inputs, a: map<string, string>, b: map<string, string>, i: nat)
    requires inp.s.batchSize > 0
    requires AgreeOn(a, b, inp.s.flashPromptPath)
    requires forall v :: AgreeOn(a, b, VideoPath(inp.s, v)) && AgreeOn(a, b, AudioPath(inp.s, v))
    ensures FlashOutcome(inp, a, i) == FlashOutcome(inp, b, i)
  {
    var ids := VideoIds(BatchVideos(inp.videos, inp.s.batchSize, i));
    ResolvedMediaFrame(inp.s, a, b, ids);
  }

  lemma CacheEntriesDistinct(s: Settings, m: nat, n: nat)
    requires m != n
    ensures CachePath(s, m) != CachePath(s, n)
  {
    if CachePath(s, m) == CachePath(s, n) {
      CachePathInjective(s, m, n);
    }
  }

  /** After any run, the template and every media file are as they were. */
  lemma RunKeepsInputs(s: Settings, files0: map<string, string>, dec: nat -> Decision, k: nat)
    requires TemplateApart(s)
    ensures AgreeOn(DecidedRun(s, files0, dec, k).files, files0, s.flashPromptPath)
    ensures forall v :: AgreeOn(DecidedRun(s, files0, dec, k).files, files0, VideoPath(s, v))
                     && AgreeOn(DecidedRun(s, files0, dec, k).files, files0, AudioPath(s, v))
  {
    RunFrame(s, files0, dec, k, s.flashPromptPath);
    forall v | true
      ensures AgreeOn(DecidedRun(s, files0, dec, k).files, files0, VideoPath(s, v))
      ensures AgreeOn(DecidedRun(s, files0, dec, k).files, files0, AudioPath(s, v))
    {
      forall m | 1 <= m <= k ensures VideoPath(s, v) != CachePath(s, m) && AudioPath(s, v) != CachePath(s, m) {
        CacheIsNotMedia(s, m, v);
      }
      RunFrame(s, files0, dec, k, VideoPath(s, v));
      RunFrame(s, files0, dec, k, AudioPath(s, v));
    }
  }

  /** Deciding batch `k` on the files the first `k` batches left gives the
      same decision as deciding it on the initial files. */
  lemma DecideOnInitial(inp: Inputs, files0: map<string, string>, k: nat)
    requires inp.s.batchSize > 0
    requires TemplateApart(inp.s)
    ensures Decide(inp, Stage1Ref(inp, files0, k).files, k) == Decide(inp, files0, k)
  {
    var files := Stage1Ref(inp, files0, k).files;
    forall m | 1 <= m <= k ensures CachePath(inp.s, k + 1) != CachePath(inp.s, m) {
      CacheEntriesDistinct(inp.s, k + 1, m);
    }
    RunFrame(inp.s, files0, Decisions(inp, files0), k, CachePath(inp.s, k + 1));
    RunKeepsInputs(inp.s, files0, Decisions(inp, files0), k);
    FlashOutcomeFrame(inp, files, files0, k);
  }

  /** The loop of `_process_batches` equals the reference run. */
  lemma {:induction false} UptoIsRef(inp: Inputs, files0: map<string, string>, k: nat)
    requires inp.s.batchSize > 0
    requires TemplateApart(inp.s)
    ensures Stage1Upto(inp, files0, k) == Stage1Ref(inp, files0, k)
  {
    OnlineIsInitial(inp, files0, k);
    UptoFromAgree(inp, files0, k);
  }

  lemma UptoFromAgree(inp: Inputs, files0: map<string, string>, k: nat)
    requires inp.s.batchSize > 0
    requires Agree(OnlineDecisions(inp, files0), Decisions(inp, files0), k)
    ensures Stage1Upto(inp, files0, k) == Stage1Ref(inp, files0, k)
  {
    UptoIsOnline(inp, files0, k);
    RunsAgree(inp.s, files0, OnlineDecisions(inp, files0), Decisions(inp, files0), k);
  }

  /** The loop's first `k` decisions are those made on the initial files. */
  lemma {:induction false} OnlineIsInitial(inp: Inputs, files0: map<string, string>, k: nat)
    requires inp.s.batchSize > 0
    requires TemplateApart(inp.s)
    ensures Agree(OnlineDecisions(inp, files0), Decisions(inp, files0), k)
  {
    if k > 0 {
      OnlineIsInitial(inp, files0, k - 1);
      UptoFromAgree(inp, files0, k - 1);
      OnlineAtInitial(inp, files0, k - 1);
      AgreeExtend(OnlineDecisions(inp, files0), Decisions(inp, files0), k);
    }
  }

  /** The first `k` decisions of `d1` and `d2` are the same. */
  predicate Agree(d1: nat -> Decision, d2: nat -> Decision, k: nat)
  {
    forall i: nat :: i < k ==> d1(i) == d2(i)
  }

  lemma AgreeExtend(d1: nat -> Decision, d2: nat -> Decision, k: nat)
    requires k > 0 && Agree(d1, d2, k - 1) && d1(k - 1) == d2(k - 1)
    ensures Agree(d1, d2, k)
  {
  }

  lemma OnlineAtInitial(inp: Inputs, files0: map<string, string>, i: nat)
    requires inp.s.batchSize > 0
    requires TemplateApart(inp.s)
    requires Stage1Upto(inp, files0, i) == Stage1Ref(inp, files0, i)
    ensures OnlineDecisions(inp, files0)(i) == Decisions(inp, files0)(i)
  {
    DecideOnInitial(inp, files0, i);
    OnlineApply(inp, files0, i);
    DecisionsApply(inp, files0, i);
  }

  /** Two runs whose first `k` decisions agree are in the same state. */
  lemma {:induction false} RunsAgree(s: Settings, files0: map<string, string>, d1: nat -> Decision, d2: nat -> Decision, k: nat)
    requires Agree(d1, d2, k)
    ensures DecidedRun(s, files0, d1, k) == DecidedRun(s, files0, d2, k)
  {
    if k > 0 {
      RunsAgree(s, files0, d1, d2, k - 1);
    }
  }

  // ---------------------------------------------------------------------------
  // the cache properties of any run whose decisions read the cache
  // ---------------------------------------------------------------------------

  lemma RunWorkAtMostOnce(s: Settings, files0: map<string, string>, dec: nat -> Decision, k: nat)
    requires CacheDecided(s, files0, dec)
    ensures var st := DecidedRun(s, files0, dec, k);
      (forall n :: n in st.attempted ==> 1 <= n <= k && CachePath(s, n) !in files0)
      && (forall a, b :: 0 <= a < b < |st.attempted| ==> st.attempted[a] < st.attempted[b])
      && (!st.aborted ==> forall n :: 1 <= n <= k && CachePath(s, n) !in files0 ==> n in st.attempted)
  {
    RunAttempted(s, files0, dec, k);
    var st := DecidedRun(s, files0, dec, k);
    forall n | n in st.attempted ensures CachePath(s, n) !in files0 {
      assert !dec(n - 1).Hit?;
    }
    if !st.aborted {
      forall n | 1 <= n <= k && CachePath(s, n) !in files0 ensures n in st.attempted {
        RunNotAborted(s, files0, dec, n - 1, k);
        assert !dec(n - 1).Hit?;
      }
    }
  }

  lemma RunFailuresIsolated(s: Settings, files0: map<string, string>, dec: nat -> Decision, k: nat)
    requires CacheDecided(s, files0, dec)
    requires !DecidedRun(s, files0, dec, k).aborted
    ensures var st := DecidedRun(s, files0, dec, k);
      (forall n :: n in st.failed <==> 1 <= n <= k && dec(n - 1) == Failure)
      && (forall n :: n in st.failed ==> CachePath(s, n) !in st.files)
      && st.summaries == Collected(dec, k)
  {
    RunAttempted(s, files0, dec, k);
    RunFailed(s, files0, dec, k);
    RunSummaries(s, files0, dec, k);
    var st := DecidedRun(s, files0, dec, k);
    forall n | 1 <= n <= k && dec(n - 1) == Failure ensures n in st.attempted {
      RunNotAborted(s, files0, dec, n - 1, k);
    }
    forall n | n in st.failed ensures CachePath(s, n) !in st.files {
      RunCacheEntry(s, files0, dec, k, n);
      assert !dec(n - 1).Hit?;
    }
  }

  lemma RunCacheAfter(s: Settings, files0: map<string, string>, dec: nat -> Decision, k: nat)
    requires CacheDecided(s, files0, dec)
    requires !DecidedRun(s, files0, dec, k).aborted
    ensures var st := DecidedRun(s, files0, dec, k);
      forall n :: 1 <= n <= k ==>
        (CachePath(s, n) in st.files <==> CachePath(s, n) in files0 || (n in st.attempted && n !in st.failed))
  {
    RunAttempted(s, files0, dec, k);
    RunFailed(s, files0, dec, k);
    var st := DecidedRun(s, files0, dec, k);
    forall n | 1 <= n <= k
      ensures CachePath(s, n) in st.files <==> CachePath(s, n) in files0 || (n in st.attempted && n !in st.failed)
    {
      RunCacheEntry(s, files0, dec, k, n);
      RunNotAborted(s, files0, dec, n - 1, k);
      assert dec(n - 1).Hit? <==> CachePath(s, n) in files0;
    }
  }

  // ---------------------------------------------------------------------------
  // the properties of `_process_batches`
  // ---------------------------------------------------------------------------

  /** At most once per batch index: batch `n` is sent to the flash model only
      when its cache entry did not exist, never twice, and (when no template
      was missing) every batch without a cache entry is sent. */
  lemma CacheMakesWorkAtMostOnce(inp: Inputs, files0: map<string, string>, k: nat)
    requires inp.s.batchSize > 0
    requires TemplateApart(inp.s)
    ensures var st := Stage1Upto(inp, files0, k);
      (forall n :: n in st.attempted ==> 1 <= n <= k && CachePath(inp.s, n) !in files0)
      && (forall a, b :: 0 <= a < b < |st.attempted| ==> st.attempted[a] < st.attempted[b])
      && (!st.aborted ==> forall n :: 1 <= n <= k && CachePath(inp.s, n) !in files0 ==> n in st.attempted)
  {
    UptoIsRef(inp, files0, k);
    DecisionsCacheDecided(inp, files0);
    RunWorkAtMostOnce(inp.s, files0, Decisions(inp, files0), k);
  }

  /** Failures stay in their batch: batch `n` fails exactly when its own
      decision on the initial files is a failure; a failed batch gets no cache
      entry and contributes no summary, and the summaries are the
      contributions of the batches decided one by one. */
  lemma FailuresAreIsolated(inp: Inputs, files0: map<string, string>, k: nat)
    requires inp.s.batchSize > 0
    requires TemplateApart(inp.s)
    requires !Stage1Upto(inp, files0, k).aborted
    ensures var st := Stage1Upto(inp, files0, k);
      (forall n :: n in st.failed <==> 1 <= n <= k && Decide(inp, files0, n - 1) == Failure)
      && (forall n :: n in st.failed ==> CachePath(inp.s, n) !in st.files)
      && st.summaries == Collected(Decisions(inp, files0), k)
  {
    UptoIsRef(inp, files0, k);
    DecisionsCacheDecided(inp, files0);
    RunFailuresIsolated(inp.s, files0, Decisions(inp, files0), k);
    FailedOnInitial(inp, files0, k, Stage1Upto(inp, files0, k).failed);
  }

  lemma DecisionsApply(inp: Inputs, files0: map<string, string>, i: nat)
    requires inp.s.batchSize > 0
    ensures Decisions(inp, files0)(i) == Decide(inp, files0, i)
  {
  }

  /** The failed batches, stated by the decisions on the initial files. */
  lemma FailedOnInitial(inp: Inputs, files0: map<string, string>, k: nat, failed: seq<nat>)
    requires inp.s.batchSize > 0
    requires forall n :: n in failed <==> 1 <= n <= k && Decisions(inp, files0)(n - 1) == Failure
    ensures forall n :: n in failed <==> 1 <= n <= k && Decide(inp, files0, n - 1) == Failure
  {
    forall n ensures n in failed <==> 1 <= n <= k && Decide(inp, files0, n - 1) == Failure {
      if 1 <= n {
        DecisionsApply(inp, files0, n - 1);
      }
    }
  }

  /** After a run that was not stopped, batch `n`'s cache entry exists exactly
      when it existed before or the batch was sent and did not fail; a fresh
      entry holds the summary. Every path other than these entries is
      unchanged. */
  lemma CacheAfterRun(inp: Inputs, files0: map<string, string>, k: nat)
    requires inp.s.batchSize > 0
    requires TemplateApart(inp.s)
    requires !Stage1Upto(inp, files0, k).aborted
    ensures var st := Stage1Upto(inp, files0, k);
      forall n :: 1 <= n <= k ==>
        (CachePath(inp.s, n) in st.files <==>
           CachePath(inp.s, n) in files0 || (n in st.attempted && n !in st.failed))
    ensures forall p :: (forall m :: 1 <= m <= k ==> p != CachePath(inp.s, m)) ==>
              AgreeOn(Stage1Upto(inp, files0, k).files, files0, p)
  {
    UptoIsRef(inp, files0, k);
    DecisionsCacheDecided(inp, files0);
    RunCacheAfter(inp.s, files0, Decisions(inp, files0), k);
    forall p | (forall m :: 1 <= m <= k ==> p != CachePath(inp.s, m))
      ensures AgreeOn(Stage1Ref(inp, files0, k).files, files0, p)
    {
      RunFrame(inp.s, files0, Decisions(inp, files0), k, p);
    }
  }

  /** How batch `i` is decided on a second run, given how it was decided on
      the first: an entry read or written is read back; a failed batch is
      sent again and, with the same services, fails again. */
  predicate Redecided(first: Decision, again: Decision, same: bool)
  {
    match first
    case Hit(t) => again == Hit(t)
    case Fresh(t) => again == Hit(t)
    case Failure => (again.Fresh? || again.Failure?) && (same ==> again == Failure)
    case Abort => false
  }

  /** Deciding a batch on two sets of files that agree about its entry, the
      template and the media gives the same decision. */
  lemma DecideFrame(inp: Inputs, a: map<string, string>, b: map<string, string>, i: nat)
    requires inp.s.batchSize > 0
    requires AgreeOn(a, b, CachePath(inp.s, i + 1)) && AgreeOn(a, b, inp.s.flashPromptPath)
    requires forall v :: AgreeOn(a, b, VideoPath(inp.s, v)) && AgreeOn(a, b, AudioPath(inp.s, v))
    ensures Decide(inp, a, i) == Decide(inp, b, i)
  {
    FlashOutcomeFrame(inp, a, b, i);
  }

  /** The decisions of a rerun on the files a complete run left, with the same
      settings and tables (and possibly other services). */
  lemma RerunDecision(inp: Inputs, inp2: Inputs, files0: map<string, string>, k: nat, i: nat)
    requires inp.s.batchSize > 0
    requires TemplateApart(inp.s)
    requires inp2.s == inp.s && inp2.videos == inp.videos && inp2.comments == inp.comments
    requires i < k && !Stage1Ref(inp, files0, k).aborted
    ensures Redecided(Decide(inp, files0, i), Decide(inp2, Stage1Ref(inp, files0, k).files, i), inp2 == inp)
  {
    var dec := Decisions(inp, files0);
    var files1 := Stage1Ref(inp, files0, k).files;
    var d1 := Decide(inp, files0, i);
    assert dec(i) == d1;
    RunNotAborted(inp.s, files0, dec, i, k);
    RunCacheEntry(inp.s, files0, dec, k, i + 1);
    RunKeepsInputs(inp.s, files0, dec, k);
    DecideShape(inp, files0, i);
    DecideShape(inp2, files1, i);
    if d1.Hit? || d1 == Failure {
      DecideFrame(inp2, files1, files0, i);
      if d1 == Failure {
        DecideShape(inp2, files0, i);
      }
    }
  }

  lemma {:induction false} RerunRun(s: Settings, files0: map<string, string>, files1: map<string, string>,
                                    dec1: nat -> Decision, dec2: nat -> Decision, same: bool, j: nat)
    requires forall i :: 0 <= i < j ==> Redecided(dec1(i), dec2(i), same)
    ensures var first, again := DecidedRun(s, files0, dec1, j), DecidedRun(s, files1, dec2, j);
      !first.aborted && !again.aborted && again.attempted == first.failed
      && (same ==> again == Stage1State(files1, first.summaries, first.failed, first.failed, false))
  {
    if j > 0 {
      RerunRun(s, files0, files1, dec1, dec2, same, j - 1);
      assert Redecided(dec1(j - 1), dec2(j - 1), same);
    }
  }

  /** Resuming: running Stage 1 again on the files a complete run left (with
      the same settings and tables) sends exactly the batches that failed the
      first time. With the same services as well, the rerun is a fixed point:
      it writes nothing, collects the same summaries and fails the same
      batches; in particular, after a run without failures a rerun sends
      nothing. */
  lemma RerunRetriesOnlyFailures(inp: Inputs, inp2: Inputs, files0: map<string, string>, k: nat)
    requires inp.s.batchSize > 0
    requires TemplateApart(inp.s)
    requires inp2.s == inp.s && inp2.videos == inp.videos && inp2.comments == inp.comments
    requires !Stage1Upto(inp, files0, k).aborted
    ensures var first := Stage1Upto(inp, files0, k);
      var again := Stage1Upto(inp2, first.files, k);
      !again.aborted && again.attempted == first.failed
      && (inp2 == inp ==> again == first.(attempted := first.failed))
  {
    UptoIsRef(inp, files0, k);
    var first := Stage1Ref(inp, files0, k);
    UptoIsRef(inp2, first.files, k);
    forall i | 0 <= i < k
      ensures Redecided(Decisions(inp, files0)(i), Decisions(inp2, first.files)(i), inp2 == inp)
    {
      RerunDecision(inp, inp2, files0, k, i);
    }
    RerunRun(inp.s, files0, first.files, Decisions(inp, files0), Decisions(inp2, first.files), inp2 == inp, k);
    RunNotAborted(inp.s, files0, Decisions(inp, files0), k, k);
    RunAttempted(inp.s, files0, Decisions(inp, files0), k);
  }
}
