/** `_cleanup`: after a successful run the audio, video and cache directories
    are removed, each one only if it is a directory, and a removal that raises
    `OSError` is reported and skipped without stopping the others. */
module Cleanup {
  import opened Text
  import opened Paths
  import opened Config
  import opened FileStore
  import opened PipelineSettings

  /** The directories `_cleanup` removes, in its order. */
  function CleanupTargets(s: Settings): seq<string>
  {
    [s.audioDir, s.videoDir, s.cacheDir]
  }

  /** One `if os.path.isdir(d): shutil.rmtree(d)` block; removing a directory
      in `fails` raises, which leaves it as it was. */
  function RemoveStep(st: FsState, d: string, fails: set<string>): FsState
  {
    if d in st.dirs && d !in fails then AfterRemoveTree(st, d) else st
  }

  /** The blocks run one after the other, each on what the earlier ones left. */
  function AfterCleanup(st: FsState, targets: seq<string>, fails: set<string>): FsState
    decreases |targets|
  {
    if targets == [] then st
    else AfterCleanup(RemoveStep(st, targets[0], fails), targets[1..], fails)
  }

  /** Cleaning up only removes: no file or directory appears and no file's
      contents change. */
  lemma {:induction false} CleanupOnlyRemoves(st: FsState, targets: seq<string>, fails: set<string>)
    ensures var r := AfterCleanup(st, targets, fails);
      r.files.Keys <= st.files.Keys && r.dirs <= st.dirs
      && forall p :: p in r.files ==> r.files[p] == st.files[p]
    decreases |targets|
  {
    if targets != [] {
      CleanupOnlyRemoves(RemoveStep(st, targets[0], fails), targets[1..], fails);
    }
  }

  /** Every target that existed and whose removal does not fail is gone with
      everything inside it, whatever happens to the others. */
  lemma {:induction false} CleanupRemoves(st: FsState, targets: seq<string>, fails: set<string>, t: string)
    requires t in targets && t !in fails && t in st.dirs
    ensures var r := AfterCleanup(st, targets, fails);
      t !in r.dirs && forall p :: Within(t, p) ==> p !in r.files
    decreases |targets|
  {
    var d := targets[0];
    var next := RemoveStep(st, d, fails);
    if t == d {
      CleanupOnlyRemoves(next, targets[1..], fails);
    } else if t in next.dirs {
      CleanupRemoves(next, targets[1..], fails, t);
      CleanupOnlyRemoves(next, targets[1..], fails);
    } else {
      // `t` went with the tree of an earlier target, and so did its contents.
      assert Within(d, t);
      forall p | Within(t, p) ensures p !in next.files {
        WithinTransitive(d, t, p);
      }
      CleanupOnlyRemoves(next, targets[1..], fails);
    }
  }

  /** A file inside none of the targets whose removal succeeds is left as it
      was; in particular a failing removal costs nothing outside its own tree.
      A directory is kept as well when it is not itself such a target. */
  lemma {:induction false} CleanupKeeps(st: FsState, targets: seq<string>, fails: set<string>, p: string)
    requires forall i :: 0 <= i < |targets| && targets[i] !in fails ==> !Within(targets[i], p)
    ensures var r := AfterCleanup(st, targets, fails);
      (p in r.files <==> p in st.files) && (p in r.files ==> r.files[p] == st.files[p])
    ensures (forall i :: 0 <= i < |targets| && targets[i] !in fails ==> targets[i] != p) ==>
      (p in AfterCleanup(st, targets, fails).dirs <==> p in st.dirs)
    decreases |targets|
  {
    if targets != [] {
      assert forall i :: 0 <= i < |targets[1..]| ==> targets[1..][i] == targets[i + 1];
      CleanupKeeps(RemoveStep(st, targets[0], fails), targets[1..], fails, p);
    }
  }

  /** `_cleanup` on the filesystem. */
  method CleanupDirs(fs: FileSystem, s: Settings, fails: set<string>)
    modifies fs
    ensures fs.State() == AfterCleanup(old(fs.State()), CleanupTargets(s), fails)
  {
    ghost var st0 := fs.State();
    if s.audioDir in fs.dirs {
      fs.RemoveTree(s.audioDir, s.audioDir in fails);
    }
    ghost var st1 := fs.State();
    assert st1 == RemoveStep(st0, s.audioDir, fails);
    if s.videoDir in fs.dirs {
      fs.RemoveTree(s.videoDir, s.videoDir in fails);
    }
    ghost var st2 := fs.State();
    assert st2 == RemoveStep(st1, s.videoDir, fails);
    if s.cacheDir in fs.dirs {
      fs.RemoveTree(s.cacheDir, s.cacheDir in fails);
    }
    ghost var st3 := fs.State();
    assert st3 == RemoveStep(st2, s.cacheDir, fails);
    ghost var t := CleanupTargets(s);
    assert t[1..] == [s.videoDir, s.cacheDir] && t[1..][1..] == [s.cacheDir] && t[1..][1..][1..] == [];
    assert AfterCleanup(st3, [], fails) == st3;
    assert AfterCleanup(st2, [s.cacheDir], fails) == st3;
    assert AfterCleanup(st1, [s.videoDir, s.cacheDir], fails) == st3;
  }

  /** With one-component folder names, a file named without `/` directly in
      the output directory is kept by the cleanup, along with its contents. */
  lemma OutputFileSurvivesCleanup(root: string, cfg: ConfigFile, st: FsState, fails: set<string>, file: string)
    requires IsFolderName(cfg.audioFolderName.GetOr("audio"))
    requires IsFolderName(cfg.videoFolderName.GetOr("video"))
    requires IsFolderName(cfg.cacheDir.GetOr("cache"))
    requires IsFolderName(file)
    ensures var s := LoadSettings(root, cfg);
      var p := PathJoin(s.outputDir, file);
      var r := AfterCleanup(st, CleanupTargets(s), fails);
      (p in r.files <==> p in st.files) && (p in r.files ==> r.files[p] == st.files[p])
  {
    var s := LoadSettings(root, cfg);
    var a, v, c := cfg.audioFolderName.GetOr("audio"), cfg.videoFolderName.GetOr("video"), cfg.cacheDir.GetOr("cache");
    assert CleanupTargets(s) == [PathJoin(s.outputDir, a), PathJoin(s.outputDir, v), PathJoin(s.outputDir, c)];
    SiblingFileKept(st, fails, s.outputDir, a, v, c, file);
  }

  /** A file beside three sibling folders survives their removal. */
  lemma SiblingFileKept(st: FsState, fails: set<string>, out: string, a: string, v: string, c: string, file: string)
    requires IsFolderName(a) && IsFolderName(v) && IsFolderName(c) && IsFolderName(file)
    ensures var p := PathJoin(out, file);
      var r := AfterCleanup(st, [PathJoin(out, a), PathJoin(out, v), PathJoin(out, c)], fails);
      (p in r.files <==> p in st.files) && (p in r.files ==> r.files[p] == st.files[p])
  {
    var p := PathJoin(out, file);
    var targets := [PathJoin(out, a), PathJoin(out, v), PathJoin(out, c)];
    SiblingsDisjoint(out, a, file);
    SiblingsDisjoint(out, v, file);
    SiblingsDisjoint(out, c, file);
    forall i | 0 <= i < |targets| && targets[i] !in fails ensures !Within(targets[i], p) {
      assert targets[i] == PathJoin(out, a) || targets[i] == PathJoin(out, v) || targets[i] == PathJoin(out, c);
    }
    CleanupKeeps(st, targets, fails, p);
  }

  /** An empty folder name makes the directory the output directory itself,
      so removing it would remove every file of the output directory with it. */
  lemma EmptyFolderNameHoldsOutputs(out: string, file: string)
    requires out != "" && !StartsWith(file, "/")
    ensures Within(PathJoin(out, ""), PathJoin(out, file))
  {
    var x := DirPrefix(out);
    assert !StartsWith("", "/");
    assert EndsWith(x, "/") by {
      if !EndsWith(out, "/") {
        assert x == out + "/";
        assert x[|x| - 1..] == "/";
      }
    }
    assert DirPrefix(x) == x;
    JoinInside(out, file);
  }
}
