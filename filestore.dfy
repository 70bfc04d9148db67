/** The part of the local filesystem the pipeline reads and changes: regular
    files with their text contents (`open(p).read()`, `open(p, 'w').write(t)`,
    `os.path.exists`) and the directories that exist (`os.path.isdir`,
    `os.makedirs`, `shutil.rmtree`). */
module FileStore {
  import opened Wrappers
  import opened Paths

  /** A snapshot: the regular files with their contents, and the directories. */
  datatype FsState = FsState(files: map<string, string>, dirs: set<string>)

  /** What a successful `shutil.rmtree(d)` leaves: `d` and everything inside it
      are gone, everything else stays as it was. */
  function AfterRemoveTree(st: FsState, d: string): (r: FsState)
    ensures forall p :: p in r.files <==> p in st.files && !Within(d, p)
    ensures forall p :: p in r.files ==> r.files[p] == st.files[p]
    ensures forall e :: e in r.dirs <==> e in st.dirs && e != d && !Within(d, e)
  {
    FsState(map p | p in st.files && !Within(d, p) :: st.files[p],
            set e | e in st.dirs && e != d && !Within(d, e))
  }

  /** Removing a tree never adds anything, and removing it twice is removing it once. */
  lemma RemoveTreeIdempotent(st: FsState, d: string)
    ensures AfterRemoveTree(AfterRemoveTree(st, d), d) == AfterRemoveTree(st, d)
    ensures AfterRemoveTree(st, d).files.Keys <= st.files.Keys
    ensures AfterRemoveTree(st, d).dirs <= st.dirs
  {
    var once := AfterRemoveTree(st, d);
    var twice := AfterRemoveTree(once, d);
    assert twice.files == once.files;
    assert twice.dirs == once.dirs;
  }

  /** `_load_data` (and the analyzer's loaders): an empty table when the file
      is missing, or when `pd.read_csv` raises (`parsed` is `None`). */
  function LoadTable<T>(files: map<string, string>, path: string, parsed: Option<seq<T>>): (r: seq<T>)
    ensures path !in files || parsed.None? ==> r == []
    ensures path in files && parsed.Some? ==> r == parsed.value
  {
    if path !in files then [] else parsed.GetOr([])
  }

  class FileSystem {
    var files: map<string, string>
    var dirs: set<string>

    function State(): FsState
      reads this
    {
      FsState(files, dirs)
    }

    constructor (init: FsState)
      ensures State() == init
    {
      files := init.files;
      dirs := init.dirs;
    }

    /** `open(p, 'w').write(text)`: creates or truncates the file. */
    method WriteFile(p: string, text: string)
      modifies this
      ensures files == old(files)[p := text]
      ensures dirs == old(dirs)
    {
      files := files[p := text];
    }

    /** `os.makedirs(d, exist_ok=True)`. */
    method MakeDirs(d: string)
      modifies this
      ensures dirs == old(dirs) + {d}
      ensures files == old(files)
    {
      dirs := dirs + {d};
    }

    /** `shutil.rmtree(d)`; `fails` says that the call raises `OSError`, in which
        case the tree is left as it was. */
    method RemoveTree(d: string, fails: bool)
      modifies this
      ensures State() == if fails then old(State()) else AfterRemoveTree(old(State()), d)
    {
      if !fails {
        var r := AfterRemoveTree(State(), d);
        files, dirs := r.files, r.dirs;
      }
    }
  }
}
