/** The services the pipeline and the analyzer call but whose code is not part
    of this model: the generative-AI SDK and the table and Markdown renderers.
    Each one is a total function given with the inputs, so a run of the model
    is determined by its inputs; a call that raises is `None`. */
module Oracles {
  import opened Wrappers
  import opened Records

  /** `file.state.name` of an uploaded file. */
  datatype FileState = Processing | Active | Failed | Unspecified

  /** An uploaded file: its resource name (`files/<id>`) and display name. */
  datatype RemoteFile = RemoteFile(name: string, displayName: string)

  datatype GenAI = GenAI(
    /** `genai.upload_file(path=p)`; `None` when it raises. */
    upload: string -> Option<RemoteFile>,
    /** The states that successive `genai.get_file(name)` calls report. */
    states: string -> seq<FileState>,
    /** `GenerativeModel(model).generate_content([prompt] + files).text`;
        `None` when the call or reading `.text` raises. */
    generate: (string, string, seq<RemoteFile>) -> Option<string>)

  /** One row of the report appendix, the numbers already formatted. */
  datatype AppendixRow = AppendixRow(title: string, channel: string, views: string, likes: string, comments: string)

  datatype Formatting = Formatting(
    /** `videos[['title', 'views', 'likes', 'comments']].to_string(index=False)`. */
    metadataTable: seq<Video> -> string,
    /** `to_markdown(index=False)` of the appendix rows. */
    appendixTable: seq<AppendixRow> -> string,
    /** `markdown.markdown(text, extensions=['tables'])`. */
    markdownToHtml: string -> string)

  /** `[genai.upload_file(path=p) for p in paths]`: every upload in order, or
      `None` as soon as one raises. */
  function UploadAll(g: GenAI, paths: seq<string>): (r: Option<seq<RemoteFile>>)
    ensures r.Some? ==> |r.value| == |paths|
    ensures r.Some? ==> forall i :: 0 <= i < |paths| ==> g.upload(paths[i]) == Some(r.value[i])
    ensures r.None? <==> exists i :: 0 <= i < |paths| && g.upload(paths[i]).None?
    decreases |paths|
  {
    if paths == [] then Some([])
    else
      match g.upload(paths[0])
      case None => None
      case Some(f) =>
        match UploadAll(g, paths[1..])
        case None => None
        case Some(rest) => Some([f] + rest)
  }

  /** The state a polling loop stops at: the first one that is not
      `Processing`, or `None` when the reported states never leave it. */
  function Settled(states: seq<FileState>): (r: Option<FileState>)
    ensures r != Some(Processing)
    ensures r.Some? ==> r.value in states
    ensures r.None? <==> forall k :: 0 <= k < |states| ==> states[k] == Processing
    decreases |states|
  {
    if states == [] then None
    else if states[0] != Processing then Some(states[0])
    else Settled(states[1..])
  }

  /** Polling from position `j` on, after only `Processing` before it, stops
      where `Settled` says. */
  lemma {:induction false} SettledAt(states: seq<FileState>, j: nat)
    requires j <= |states|
    requires forall k :: 0 <= k < j ==> states[k] == Processing
    requires j == |states| || states[j] != Processing
    ensures Settled(states) == if j == |states| then None else Some(states[j])
    decreases j
  {
    if j > 0 {
      SettledAt(states[1..], j - 1);
    }
  }

  /** Every uploaded file reaches `Active`. */
  predicate AllActive(g: GenAI, files: seq<RemoteFile>)
  {
    forall i :: 0 <= i < |files| ==> Settled(g.states(files[i].name)) == Some(Active)
  }
}
