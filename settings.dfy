/** The pipeline's configuration (`CachedAnalysisPipeline.__init__` and
    `_load_configuration`): where its inputs, its cache, its media and its
    report live, all derived from the project root and `config.ini`. */
module PipelineSettings {
  import opened Wrappers
  import opened Text
  import opened Numerals
  import opened Paths
  import opened Config
  import opened FileStore

  datatype Settings = Settings(
    projectRoot: string,
    brand: string,
    safeBrand: string,
    proModel: string,
    flashModel: string,
    proPromptPath: string,
    flashPromptPath: string,
    batchSize: int,
    reportFormat: string,
    outputDir: string,
    videosCsv: string,
    commentsCsv: string,
    audioDir: string,
    videoDir: string,
    cacheDir: string)

  /** `os.path.join(root, 'outputs', safe)`. */
  function OutputDir(root: string, safe: string): string
  {
    PathJoin(PathJoin(root, "outputs"), safe)
  }

  function LoadSettings(root: string, cfg: ConfigFile): Settings
  {
    var safe := SafeBrandName(cfg.searchTerms);
    var out := OutputDir(root, safe);
    Settings(
      projectRoot := root,
      brand := cfg.searchTerms,
      safeBrand := safe,
      proModel := cfg.proModelName,
      flashModel := cfg.flashModelName,
      proPromptPath := PathJoin(root, cfg.proPromptTemplatePath),
      flashPromptPath := PathJoin(root, cfg.flashPromptTemplatePath),
      batchSize := cfg.batchSize,
      reportFormat := cfg.reportFormat,
      outputDir := out,
      videosCsv := PathJoin(out, safe + "_discovered_videos.csv"),
      commentsCsv := PathJoin(out, safe + "_raw_comments.csv"),
      audioDir := PathJoin(out, cfg.audioFolderName.GetOr("audio")),
      videoDir := PathJoin(out, cfg.videoFolderName.GetOr("video")),
      cacheDir := PathJoin(out, cfg.cacheDir.GetOr("cache")))
  }

  /** `__init__`: a missing or empty `GEMINI_API_KEY` raises `ValueError`
      (`None`); otherwise the settings are loaded and the cache directory is
      created. */
  method Initialize(fs: FileSystem, root: string, cfg: ConfigFile, apiKey: Option<string>)
    returns (s: Option<Settings>)
    modifies fs
    ensures apiKey == None || apiKey == Some("") ==> s == None && fs.State() == old(fs.State())
    ensures apiKey != None && apiKey != Some("") ==>
              s == Some(LoadSettings(root, cfg))
              && fs.files == old(fs.files) && fs.dirs == old(fs.dirs) + {s.value.cacheDir}
  {
    if apiKey == None || apiKey == Some("") {
      return None;
    }
    var settings := LoadSettings(root, cfg);
    fs.MakeDirs(settings.cacheDir);
    return Some(settings);
  }

  /** A sub-directory name the configuration may give: not absolute, not empty,
      one path component, and neither `.` nor `..` (which name the directory
      itself and its parent, not a folder inside it). */
  predicate IsFolderName(name: string)
  {
    name != "" && '/' !in name && name != "." && name != ".."
  }

  /** The default folder names qualify; the dot names do not. */
  lemma DefaultFolderNames()
    ensures IsFolderName("audio") && IsFolderName("video") && IsFolderName("cache")
    ensures !IsFolderName(".") && !IsFolderName("..")
  {
  }

  lemma FolderNameRelative(name: string)
    requires IsFolderName(name)
    ensures !StartsWith(name, "/")
  {
    assert name[0] in name;
  }

  /** Of two one-component names under one directory, neither path lies
      inside the other. */
  lemma SiblingsDisjoint(d: string, a: string, b: string)
    requires IsFolderName(a) && IsFolderName(b)
    ensures !Within(PathJoin(d, a), PathJoin(d, b))
  {
    FolderNameRelative(a);
    FolderNameRelative(b);
    JoinRelative(d, a);
    JoinRelative(d, b);
    var pa := PathJoin(d, a);
    JoinEndsWith(pa, "");
    var p := DirPrefix(d);
    assert DirPrefix(pa) == pa + "/" by {
      assert !EndsWith(pa, "/") by {
        assert pa[|pa| - 1] == a[|a| - 1];
        assert a[|a| - 1] in a;
      }
    }
    var q := p + a + "/";
    if |q| <= |p + b| {
      assert b[|a|] in b;
      assert (p + b)[..|q|][|p| + |a|] == b[|a|] != '/';
      assert q[|p| + |a|] == '/';
    }
    assert !StartsWith(p + b, q);
  }

  /** With the default folder names (or any distinct one-component names),
      the audio, video and cache directories lie inside the output
      directory and none of them lies inside another. */
  lemma FolderLayout(root: string, cfg: ConfigFile)
    requires IsFolderName(cfg.audioFolderName.GetOr("audio"))
    requires IsFolderName(cfg.videoFolderName.GetOr("video"))
    requires IsFolderName(cfg.cacheDir.GetOr("cache"))
    requires cfg.audioFolderName.GetOr("audio") != cfg.videoFolderName.GetOr("video")
    requires cfg.audioFolderName.GetOr("audio") != cfg.cacheDir.GetOr("cache")
    requires cfg.videoFolderName.GetOr("video") != cfg.cacheDir.GetOr("cache")
    ensures var s := LoadSettings(root, cfg);
      Within(s.outputDir, s.audioDir) && Within(s.outputDir, s.videoDir) && Within(s.outputDir, s.cacheDir)
    ensures var s := LoadSettings(root, cfg);
      !Within(s.audioDir, s.videoDir) && !Within(s.audioDir, s.cacheDir)
      && !Within(s.videoDir, s.audioDir) && !Within(s.videoDir, s.cacheDir)
      && !Within(s.cacheDir, s.audioDir) && !Within(s.cacheDir, s.videoDir)
  {
    var s := LoadSettings(root, cfg);
    var a, v, c := cfg.audioFolderName.GetOr("audio"), cfg.videoFolderName.GetOr("video"), cfg.cacheDir.GetOr("cache");
    FolderNameRelative(a);
    FolderNameRelative(v);
    FolderNameRelative(c);
    JoinInside(s.outputDir, a);
    JoinInside(s.outputDir, v);
    JoinInside(s.outputDir, c);
    SiblingsDisjoint(s.outputDir, a, v);
    SiblingsDisjoint(s.outputDir, a, c);
    SiblingsDisjoint(s.outputDir, v, a);
    SiblingsDisjoint(s.outputDir, v, c);
    SiblingsDisjoint(s.outputDir, c, a);
    SiblingsDisjoint(s.outputDir, c, v);
  }

  /** `batch_{n}_summary.txt`. */
  function CacheFileName(n: nat): string
  {
    "batch_" + DecimalString(n) + "_summary.txt"
  }

  /** `os.path.join(cache_dir, f"batch_{n}_summary.txt")`. */
  function CachePath(s: Settings, n: nat): string
  {
    PathJoin(s.cacheDir, CacheFileName(n))
  }

  /** `os.path.join(video_dir, f"{vid}.mp4")`. */
  function VideoPath(s: Settings, vid: string): string
  {
    PathJoin(s.videoDir, vid + ".mp4")
  }

  /** `os.path.join(audio_dir, f"{vid}.mp3")`. */
  function AudioPath(s: Settings, vid: string): string
  {
    PathJoin(s.audioDir, vid + ".mp3")
  }

  /** Every cache entry lies inside the cache directory. */
  lemma CacheEntriesInCacheDir(s: Settings)
    ensures forall n :: Within(s.cacheDir, CachePath(s, n))
  {
    forall n | true ensures Within(s.cacheDir, CachePath(s, n)) {
      assert !StartsWith(CacheFileName(n), "/") by {
        assert CacheFileName(n)[0] == 'b';
      }
      JoinInside(s.cacheDir, CacheFileName(n));
    }
  }

  /** Every batch index has a cache entry of its own. */
  lemma CachePathInjective(s: Settings, m: nat, n: nat)
    requires CachePath(s, m) == CachePath(s, n)
    ensures m == n
  {
    var a, b := CacheFileName(m), CacheFileName(n);
    assert !StartsWith(a, "/") && !StartsWith(b, "/") by {
      assert a[0] == 'b' && b[0] == 'b';
    }
    JoinInjective(s.cacheDir, a, b);
    var dm, dn := DecimalString(m), DecimalString(n);
    assert dm == a[6..|a| - 12];
    assert dn == b[6..|b| - 12];
    DecimalStringInjective(m, n);
  }

  /** A cache entry is never a media file: their names end differently. */
  lemma CacheIsNotMedia(s: Settings, n: nat, vid: string)
    ensures CachePath(s, n) != VideoPath(s, vid)
    ensures CachePath(s, n) != AudioPath(s, vid)
  {
    var c := CachePath(s, n);
    JoinEndsWith(s.cacheDir, CacheFileName(n));
    JoinEndsWith(s.videoDir, vid + ".mp4");
    JoinEndsWith(s.audioDir, vid + ".mp3");
    assert c[|c| - 1] == 't';
    assert VideoPath(s, vid)[|VideoPath(s, vid)| - 1] == '4';
    assert AudioPath(s, vid)[|AudioPath(s, vid)| - 1] == '3';
  }

  /** A path whose name does not end like a cache entry is no batch's cache entry. */
  lemma NotACacheEntry(s: Settings, p: string)
    requires !EndsWith(p, "_summary.txt")
    ensures forall n :: p != CachePath(s, n)
  {
    forall n | true ensures p != CachePath(s, n) {
      JoinEndsWith(s.cacheDir, CacheFileName(n));
      var c := CachePath(s, n);
      assert c[|c| - 12..] == CacheFileName(n)[|CacheFileName(n)| - 12..];
    }
  }
}
