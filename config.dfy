/** The settings every stage reads from `config.ini`, and the brand-name
    sanitising that all four stages apply to `search_terms` before using it
    as a directory and file-name component. */
module Config {
  import opened Wrappers
  import opened Text

  /** The options of `config.ini` the modelled stages read. The options read
      with a fallback are `Option`s (`None` when absent); the others are
      present. */
  datatype ConfigFile = ConfigFile(
    // [Crawler]
    searchTerms: string,
    searchModifiers: string,
    excludeKeywords: string,
    minViewCount: int,
    sortBy: string,
    maxResults: int,
    // [Analysis]
    proModelName: string,
    flashModelName: string,
    proPromptTemplatePath: string,
    flashPromptTemplatePath: string,
    batchSize: int,
    reportFormat: string,
    cacheDir: Option<string>,
    commentsCsvPath: Option<string>,
    // [AudioExtractor] and [VideoDownloader]
    audioFolderName: Option<string>,
    videoFolderName: Option<string>)

  /** A character `\w` matches in the ASCII range: a letter, a digit or `_`. */
  predicate IsWordChar(c: char)
  {
    ('a' <= c <= 'z') || ('A' <= c <= 'Z') || ('0' <= c <= '9') || c == '_'
  }

  /** `re.sub(r'\W+', '', s)`: deleting every run of non-word characters
      deletes every non-word character, keeping the rest in order. */
  function DeleteNonWord(s: string): (r: string)
    ensures |r| <= |s|
    ensures forall i :: 0 <= i < |r| ==> IsWordChar(r[i])
    decreases |s|
  {
    if s == [] then []
    else if IsWordChar(s[|s| - 1]) then DeleteNonWord(s[..|s| - 1]) + [s[|s| - 1]]
    else DeleteNonWord(s[..|s| - 1])
  }

  /** The deletion works character by character: it distributes over
      concatenation, and a single character is kept exactly when it is a
      word character. With `DeleteNonWordKeeps`, the input's word characters
      survive in order. */
  lemma {:induction false} DeleteNonWordAppend(a: string, b: string)
    ensures DeleteNonWord(a + b) == DeleteNonWord(a) + DeleteNonWord(b)
    decreases |b|
  {
    if b == [] {
      assert a + b == a;
    } else {
      var b' := b[..|b| - 1];
      assert (a + b)[..|a + b| - 1] == a + b';
      assert (a + b)[|a + b| - 1] == b[|b| - 1];
      DeleteNonWordAppend(a, b');
    }
  }

  lemma DeleteNonWordOne(c: char)
    ensures DeleteNonWord([c]) == if IsWordChar(c) then [c] else []
  {
    assert [c][..0] == [];
  }

  /** `re.sub(r'\W+', '', name.replace(' ', '_'))`. */
  function SafeBrandName(name: string): string
  {
    DeleteNonWord(Replace(name, " ", "_"))
  }

  /** A string of word characters is left as it is. */
  lemma {:induction false} DeleteNonWordKeeps(s: string)
    requires forall i :: 0 <= i < |s| ==> IsWordChar(s[i])
    ensures DeleteNonWord(s) == s
    decreases |s|
  {
    if s != [] {
      DeleteNonWordKeeps(s[..|s| - 1]);
    }
  }

  /** Space is the one separator kept, as `_`: the safe name of a name made of
      word characters and spaces has the same length, with every space
      turned into `_`. */
  lemma {:induction false} SafeBrandNameOfWords(name: string)
    requires forall i :: 0 <= i < |name| ==> IsWordChar(name[i]) || name[i] == ' '
    ensures |SafeBrandName(name)| == |name|
    ensures forall i :: 0 <= i < |name| ==>
              SafeBrandName(name)[i] == (if name[i] == ' ' then '_' else name[i])
  {
    var u := Replace(name, " ", "_");
    ReplaceSpaces(name);
    DeleteNonWordKeeps(u);
  }

  lemma {:induction false} ReplaceSpaces(s: string)
    ensures |Replace(s, " ", "_")| == |s|
    ensures forall i :: 0 <= i < |s| ==> Replace(s, " ", "_")[i] == (if s[i] == ' ' then '_' else s[i])
    decreases |s|
  {
    if s != [] {
      ReplaceSpaces(s[1..]);
    }
  }

  /** The safe name is made of word characters only, so it never holds a `/`
      or a space, and sanitising it again changes nothing. */
  lemma SafeBrandNameIsSafe(name: string)
    ensures forall i :: 0 <= i < |SafeBrandName(name)| ==> IsWordChar(SafeBrandName(name)[i])
    ensures '/' !in SafeBrandName(name) && ' ' !in SafeBrandName(name)
    ensures SafeBrandName(SafeBrandName(name)) == SafeBrandName(name)
  {
    var s := SafeBrandName(name);
    SafeBrandNameOfWords(s);
    DeleteNonWordKeeps(s);
    assert forall i :: 0 <= i < |s| ==> s[i] != ' ';
  }
}
