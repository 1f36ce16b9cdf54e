/**
 * The earlier Responses-API prototype of streamlit_openai/responses.py: a chat that
 * keeps every input entry it ever sent (nothing is flushed), accumulates each reply
 * from the streamed text deltas, and a `TrackedFile` that announces a local file and
 * adds its vector store to the `file_search` tool.
 */
module ResponsesPrototype {

  import opened Common
  import opened Strings
  import opened ResponsesTools

  const DeveloperMessage: string :=
    "\n- Use GitHub-flavored Markdown in your response, including tables, images, URLs, code blocks, and lists."
    + "\n- Wrap all mathematical expressions and LaTeX terms in `$...$` for inline math and `$$...$$` for display math.\n"

  /** One item of the `input` list. */
  datatype Entry =
    | Message(role: Role, content: string)   // {"role": role, "content": text}
    | InputText(text: string)                // a user message with one input_text part

  /** The streamed events: `response.output_text.delta` and everything else. */
  datatype Event = TextDelta(delta: string) | OtherEvent

  /** The arguments of one `responses.create` call (model and temperature left out). */
  datatype Request = Request(input: seq<Entry>, instructions: string, tools: seq<Tool>)

  // ---------------------------------------------------------------------------
  // `respond`

  /** The text deltas of a stream, in order. */
  function Deltas(events: seq<Event>): seq<string>
    decreases |events|
  {
    if events == [] then []
    else
      var e := events[|events| - 1];
      Deltas(events[..|events| - 1]) + (if e.TextDelta? then [e.delta] else [])
  }

  /** The updates the new container receives: one text update per delta. */
  function TextOps(events: seq<Event>): seq<ContainerOp>
    decreases |events|
  {
    if events == [] then []
    else
      var e := events[|events| - 1];
      TextOps(events[..|events| - 1]) + (if e.TextDelta? then [Streamed(Text, Chars(e.delta))] else [])
  }

  /**
   * The container receives every delta, as text and in order, and the reply stored in
   * `input` is exactly what the container shows joined together.
   */
  lemma {:induction false} TextOpsShowReply(events: seq<Event>)
    ensures |Streams(TextOps(events), Text)| == |Deltas(events)|
    ensures forall j :: 0 <= j < |Deltas(events)| ==> Streams(TextOps(events), Text)[j] == Chars(Deltas(events)[j])
    ensures JoinText(Streams(TextOps(events), Text)) == Concat(Deltas(events))
    decreases |events|
  {
    if events != [] {
      var n := |events| - 1;
      var e := events[n];
      TextOpsShowReply(events[..n]);
      var ops := if e.TextDelta? then [Streamed(Text, Chars(e.delta))] else [];
      StreamsAppend(TextOps(events[..n]), ops, Text);
      if e.TextDelta? {
        StreamsSingle(Streamed(Text, Chars(e.delta)), Text);
        var before := Streams(TextOps(events[..n]), Text);
        var after := before + [Chars(e.delta)];
        assert after[..|after| - 1] == before;
        var ds := Deltas(events[..n]) + [e.delta];
        assert ds[..|ds| - 1] == Deltas(events[..n]);
      } else {
        assert Streams([], Text) == [];
        assert Streams(TextOps(events[..n]), Text) + [] == Streams(TextOps(events[..n]), Text);
        assert Deltas(events[..n]) + [] == Deltas(events[..n]);
      }
    }
  }

  /** Other events never reach the container. */
  lemma {:induction false} TextOpsOnlyText(events: seq<Event>, c: Category)
    requires c != Text
    ensures Streams(TextOps(events), c) == []
    decreases |events|
  {
    if events != [] {
      var n := |events| - 1;
      var e := events[n];
      TextOpsOnlyText(events[..n], c);
      var ops := if e.TextDelta? then [Streamed(Text, Chars(e.delta))] else [];
      StreamsAppend(TextOps(events[..n]), ops, c);
      if e.TextDelta? {
        StreamsSingle(Streamed(Text, Chars(e.delta)), c);
      }
    }
  }

  datatype PrototypeState = PrototypeState(input: seq<Entry>, containers: seq<Container>, requests: seq<Request>)

  /**
   * `respond(prompt)`: the user entry is appended, a new assistant container is
   * opened and receives the deltas, one request carries the whole input so far, and
   * the concatenated deltas come back as one assistant entry.
   */
  function RespondTurn(s: PrototypeState, instructions: string, tools: seq<Tool>, prompt: string, events: seq<Event>)
    : PrototypeState
  {
    var asked := s.input + [Message(User, prompt)];
    PrototypeState(
      asked + [Message(Assistant, Concat(Deltas(events)))],
      s.containers + [Container(Assistant, [], TextOps(events))],
      s.requests + [Request(asked, DeveloperMessage + instructions, tools)])
  }

  /**
   * `input` is never cleared: each turn keeps it and adds the user entry and the
   * reply; the request sees everything before the reply; exactly one container is
   * added, and what it shows joined is the reply.
   */
  lemma {:induction false} RespondTurnKeepsHistory(
    s: PrototypeState, instructions: string, tools: seq<Tool>, prompt: string, events: seq<Event>)
    ensures var t := RespondTurn(s, instructions, tools, prompt, events);
      && |t.input| == |s.input| + 2 && t.input[..|s.input|] == s.input
      && t.input[|s.input|] == Message(User, prompt)
      && t.input[|s.input| + 1].role == Assistant
      && |t.containers| == |s.containers| + 1 && t.containers[..|s.containers|] == s.containers
      && t.containers[|s.containers|].role == Assistant && t.containers[|s.containers|].blocks == []
      && JoinText(Streams(t.containers[|s.containers|].log, Text)) == t.input[|s.input| + 1].content
      && |t.requests| == |s.requests| + 1 && t.requests[|s.requests|].input == t.input[..|s.input| + 1]
  {
    TextOpsShowReply(events);
    var t := RespondTurn(s, instructions, tools, prompt, events);
    assert t.input[..|s.input| + 1] == s.input + [Message(User, prompt)];
  }

  // ---------------------------------------------------------------------------
  // `TrackedFile`

  const ExactlyOneSource: string := "Exactly one of 'uploaded_file' or 'message_file' must be provided."

  /** The record `TrackedFile` keeps: where the file lives and its vector store, if indexed. */
  datatype PrototypeFile = PrototypeFile(messageFile: string, filePath: string, vectorStore: Option<string>)

  datatype Tracked = Tracked(input: seq<Entry>, tools: seq<Tool>, file: PrototypeFile)

  function Announcement(path: string): string {
    "File locally available at: " + path
  }

  /**
   * `TrackedFile(chat, uploaded_file, message_file)`. Exactly one source must be
   * given. An upload is written into `chat.temp_dir`, which this chat never defines,
   * so it raises `AttributeError`. A message file is resolved to its absolute path
   * (`resolve`), announced, and, when its suffix is searchable, indexed into the new
   * vector store `store` the service creates for this call, which joins the
   * `file_search` tool.
   */
  function TrackFile(
    input: seq<Entry>, tools: seq<Tool>, uploaded: Option<Upload>, messageFile: Option<string>,
    resolve: string -> string, store: string): Result<Tracked>
  {
    if uploaded.None? == messageFile.None? then Err(ValueError(ExactlyOneSource))
    else if uploaded.Some? then Err(AttributeError("temp_dir"))
    else
      var path := resolve(messageFile.value);
      var searchable := Suffix(path) in FileSearchExtensions;
      Ok(Tracked(
        input + [InputText(Announcement(path))],
        if searchable then MergeFileSearch(tools, store) else tools,
        PrototypeFile(messageFile.value, path, if searchable then Some(store) else None)))
  }

  /**
   * The argument check refuses both and neither; a message file is always announced
   * by exactly one entry; a suffix outside the search list leaves the tools alone; a
   * searchable file's vector store ends up in the first `file_search` tool, without
   * creating a second one.
   */
  lemma {:induction false} TrackFileChecks(
    input: seq<Entry>, tools: seq<Tool>, uploaded: Option<Upload>, messageFile: Option<string>,
    resolve: string -> string, store: string)
    ensures var r := TrackFile(input, tools, uploaded, messageFile, resolve, store);
      && (r.Ok? <==> uploaded.None? && messageFile.Some?)
      && (uploaded.None? == messageFile.None? ==> r == Err(ValueError(ExactlyOneSource)))
      && (r.Ok? ==>
        && r.value.file.messageFile == messageFile.value
        && r.value.file.filePath == resolve(messageFile.value)
        && r.value.input == input + [InputText(Announcement(r.value.file.filePath))]
        && (r.value.file.vectorStore.Some? <==> Suffix(r.value.file.filePath) in FileSearchExtensions)
        && (r.value.file.vectorStore.Some? ==> r.value.file.vectorStore.value == store)
        && (Suffix(r.value.file.filePath) !in FileSearchExtensions ==> r.value.tools == tools)
        && (Suffix(r.value.file.filePath) in FileSearchExtensions ==>
              && r.value.file.vectorStore.Some?
              && FirstFileSearch(r.value.tools) >= 0
              && r.value.file.vectorStore.value in r.value.tools[FirstFileSearch(r.value.tools)].vectorStoreIds)
        && (FileSearchCount(tools) <= 1 ==> FileSearchCount(r.value.tools) <= 1))
  {
    var r := TrackFile(input, tools, uploaded, messageFile, resolve, store);
    if r.Ok? && Suffix(r.value.file.filePath) in FileSearchExtensions && FileSearchCount(tools) <= 1 {
      MergeKeepsOneFileSearch(tools, store);
    }
  }

  /**
   * Merging keeps the vector stores already in the first `file_search` tool, in
   * order, at the front of its list.
   */
  lemma {:induction false} MergeKeepsFirstIds(tools: seq<Tool>, id: string)
    requires FirstFileSearch(tools) >= 0
    ensures var k := FirstFileSearch(tools);
      var ids := MergeFileSearch(tools, id)[k].vectorStoreIds;
      && FirstFileSearch(MergeFileSearch(tools, id)) == k
      && |tools[k].vectorStoreIds| <= |ids| && ids[..|tools[k].vectorStoreIds|] == tools[k].vectorStoreIds
  {
    var k := FirstFileSearch(tools);
    var r := MergeFileSearch(tools, id);
    FirstFileSearchIs(r, k);
  }

  /** The input, tools and tracked files as the constructor's loop over message files grows them. */
  datatype Workspace = Workspace(input: seq<Entry>, tools: seq<Tool>, tracked: seq<PrototypeFile>)

  /** The message files tracked in order; a message file on its own always passes the check. */
  function TrackMessageFiles(w: Workspace, files: seq<string>, resolve: string -> string, vectorStores: nat -> string)
    : Workspace
    decreases |files|
  {
    if files == [] then w
    else
      var v := TrackMessageFiles(w, files[..|files| - 1], resolve, vectorStores);
      match TrackFile(v.input, v.tools, None, Some(files[|files| - 1]), resolve, vectorStores(|v.tracked|))
      case Ok(t) => Workspace(t.input, t.tools, v.tracked + [t.file])
      case Err(_) => v
  }

  /**
   * Every message file is announced once and tracked once, in order; the tools never
   * hold more than one `file_search` tool; and when `vector_store_ids` was given, the
   * first tool is still that `file_search` tool, its given ids still first.
   */
  lemma {:induction false} TrackMessageFilesGrows(
    w: Workspace, files: seq<string>, resolve: string -> string, vectorStores: nat -> string)
    ensures var v := TrackMessageFiles(w, files, resolve, vectorStores);
      && Announced(w, files, resolve, vectorStores, v)
      && (FileSearchCount(w.tools) <= 1 ==> FileSearchCount(v.tools) <= 1)
      && (w.tools != [] && w.tools[0].FileSearch? ==>
            v.tools != [] && v.tools[0].FileSearch?
            && |w.tools[0].vectorStoreIds| <= |v.tools[0].vectorStoreIds|
            && v.tools[0].vectorStoreIds[..|w.tools[0].vectorStoreIds|] == w.tools[0].vectorStoreIds)
  {
    TrackMessageFilesEntries(w, files, resolve, vectorStores);
    TrackMessageFilesTools(w, files, resolve, vectorStores);
  }

  /**
   * `f` is the record of message file `file`: it lives at the resolved path, and any
   * vector store it has is the one created for it (`TrackFileChecks` says when it has one).
   */
  predicate TracksMessageFile(f: PrototypeFile, file: string, resolve: string -> string, store: string) {
    && f.messageFile == file
    && f.filePath == resolve(file)
    && (f.vectorStore.Some? ==> f.vectorStore.value == store)
  }

  /**
   * `v` extends `w` by one announcement of the resolved path and one tracked file per
   * entry of `files`, in order; the `k`-th file tracked gets the `k`-th vector store.
   */
  predicate Announced(w: Workspace, files: seq<string>, resolve: string -> string, vectorStores: nat -> string, v: Workspace) {
    && |v.input| == |w.input| + |files| && v.input[..|w.input|] == w.input
    && |v.tracked| == |w.tracked| + |files| && v.tracked[..|w.tracked|] == w.tracked
    && (forall j :: 0 <= j < |files| ==>
          && TracksMessageFile(v.tracked[|w.tracked| + j], files[j], resolve, vectorStores(|w.tracked| + j))
          && v.input[|w.input| + j] == InputText(Announcement(resolve(files[j]))))
  }

  /** Each message file adds one announcement to the input and one tracked file, in order. */
  lemma {:induction false} TrackMessageFilesEntries(
    w: Workspace, files: seq<string>, resolve: string -> string, vectorStores: nat -> string)
    ensures Announced(w, files, resolve, vectorStores, TrackMessageFiles(w, files, resolve, vectorStores))
    decreases |files|
  {
    if files != [] {
      var n := |files| - 1;
      var v := TrackMessageFiles(w, files[..n], resolve, vectorStores);
      TrackMessageFilesEntries(w, files[..n], resolve, vectorStores);
      TrackFileChecks(v.input, v.tools, None, Some(files[n]), resolve, vectorStores(|v.tracked|));
      var t := TrackFile(v.input, v.tools, None, Some(files[n]), resolve, vectorStores(|v.tracked|)).value;
      assert TracksMessageFile(t.file, files[n], resolve, vectorStores(|v.tracked|));
      AnnouncedNext(w, files, resolve, vectorStores, v, t.file, t.tools);
    }
  }

  /** One more message file keeps `Announced`. */
  lemma {:induction false} AnnouncedNext(
    w: Workspace, files: seq<string>, resolve: string -> string, vectorStores: nat -> string,
    v: Workspace, f: PrototypeFile, tools: seq<Tool>)
    requires files != [] && Announced(w, files[..|files| - 1], resolve, vectorStores, v)
    requires TracksMessageFile(f, files[|files| - 1], resolve, vectorStores(|v.tracked|))
    ensures Announced(w, files, resolve, vectorStores,
      Workspace(v.input + [InputText(Announcement(f.filePath))], tools, v.tracked + [f]))
  {
    var u := Workspace(v.input + [InputText(Announcement(f.filePath))], tools, v.tracked + [f]);
    assert u.input[..|w.input|] == v.input[..|w.input|];
    assert u.tracked[..|w.tracked|] == v.tracked[..|w.tracked|];
    forall j | 0 <= j < |files|
      ensures TracksMessageFile(u.tracked[|w.tracked| + j], files[j], resolve, vectorStores(|w.tracked| + j))
      ensures u.input[|w.input| + j] == InputText(Announcement(resolve(files[j])))
    {
      AnnouncedNextAt(w, files, resolve, vectorStores, v, f, tools, j);
    }
  }

  /** The `j`-th entry after one more message file. */
  lemma AnnouncedNextAt(
    w: Workspace, files: seq<string>, resolve: string -> string, vectorStores: nat -> string,
    v: Workspace, f: PrototypeFile, tools: seq<Tool>, j: nat)
    requires files != [] && Announced(w, files[..|files| - 1], resolve, vectorStores, v)
    requires TracksMessageFile(f, files[|files| - 1], resolve, vectorStores(|v.tracked|))
    requires j < |files|
    ensures var u := Workspace(v.input + [InputText(Announcement(f.filePath))], tools, v.tracked + [f]);
      && TracksMessageFile(u.tracked[|w.tracked| + j], files[j], resolve, vectorStores(|w.tracked| + j))
      && u.input[|w.input| + j] == InputText(Announcement(resolve(files[j])))
  {
    var n := |files| - 1;
    var u := Workspace(v.input + [InputText(Announcement(f.filePath))], tools, v.tracked + [f]);
    if j < n {
      AnnouncedAt(w, files[..n], resolve, vectorStores, v, j);
      assert files[..n][j] == files[j];
      assert u.tracked[|w.tracked| + j] == v.tracked[|w.tracked| + j];
      assert u.input[|w.input| + j] == v.input[|w.input| + j];
      TracksSame(v.tracked[|w.tracked| + j], files[..n][j], resolve, vectorStores(|w.tracked| + j),
        u.tracked[|w.tracked| + j], files[j], vectorStores(|w.tracked| + j));
    } else {
      TracksSame(f, files[n], resolve, vectorStores(|v.tracked|),
        u.tracked[|w.tracked| + j], files[j], vectorStores(|w.tracked| + j));
    }
  }

  /** The `j`-th entry of an `Announced` extension. */
  lemma AnnouncedAt(w: Workspace, files: seq<string>, resolve: string -> string, vectorStores: nat -> string, v: Workspace, j: nat)
    requires Announced(w, files, resolve, vectorStores, v) && j < |files|
    ensures TracksMessageFile(v.tracked[|w.tracked| + j], files[j], resolve, vectorStores(|w.tracked| + j))
    ensures v.input[|w.input| + j] == InputText(Announcement(resolve(files[j])))
  {
  }

  /** `TracksMessageFile` carried over to equal arguments. */
  lemma TracksSame(f: PrototypeFile, file: string, resolve: string -> string, store: string,
                   g: PrototypeFile, file': string, store': string)
    requires TracksMessageFile(f, file, resolve, store)
    requires g == f && file' == file && store' == store
    ensures TracksMessageFile(g, file', resolve, store')
  {
  }

  /**
   * The tools never gain a second `file_search` tool, and a `file_search` tool in
   * front keeps its place and its ids.
   */
  lemma {:induction false} TrackMessageFilesTools(
    w: Workspace, files: seq<string>, resolve: string -> string, vectorStores: nat -> string)
    ensures FrontKept(w.tools, TrackMessageFiles(w, files, resolve, vectorStores).tools)
    decreases |files|
  {
    if files == [] {
      assert w.tools != [] && w.tools[0].FileSearch? ==> w.tools[0].vectorStoreIds[..|w.tools[0].vectorStoreIds|] == w.tools[0].vectorStoreIds;
    } else {
      var n := |files| - 1;
      var v := TrackMessageFiles(w, files[..n], resolve, vectorStores);
      var store := vectorStores(|v.tracked|);
      var searchable := Suffix(resolve(files[n])) in FileSearchExtensions;
      TrackMessageFilesTools(w, files[..n], resolve, vectorStores);
      assert TrackMessageFiles(w, files, resolve, vectorStores).tools
        == if searchable then MergeFileSearch(v.tools, store) else v.tools;
      if searchable {
        MergeKeepsFront(w.tools, v.tools, store);
      }
    }
  }

  /**
   * `after` has at most one `file_search` tool when `before` had, and a `file_search`
   * tool in front of `before` is still in front, its ids still first.
   */
  predicate FrontKept(before: seq<Tool>, after: seq<Tool>) {
    && (FileSearchCount(before) <= 1 ==> FileSearchCount(after) <= 1)
    && (before != [] && before[0].FileSearch? ==>
          after != [] && after[0].FileSearch?
          && |before[0].vectorStoreIds| <= |after[0].vectorStoreIds|
          && after[0].vectorStoreIds[..|before[0].vectorStoreIds|] == before[0].vectorStoreIds)
  }

  /** One more merge keeps `FrontKept`. */
  lemma {:induction false} MergeKeepsFront(before: seq<Tool>, tools: seq<Tool>, id: string)
    requires FrontKept(before, tools)
    ensures FrontKept(before, MergeFileSearch(tools, id))
  {
    var after := MergeFileSearch(tools, id);
    if FileSearchCount(tools) <= 1 {
      MergeKeepsOneFileSearch(tools, id);
    }
    if before != [] && before[0].FileSearch? {
      FirstFileSearchIs(tools, 0);
      MergeKeepsFirstIds(tools, id);
      var p := before[0].vectorStoreIds;
      assert after[0].vectorStoreIds[..|p|] == after[0].vectorStoreIds[..|tools[0].vectorStoreIds|][..|p|];
    }
  }

  /** `tools` before any message file: one `file_search` tool with the given ids, if any. */
  function InitialTools(vectorStoreIds: Option<seq<string>>): (tools: seq<Tool>)
    ensures |tools| <= 1
    ensures tools != [] <==> vectorStoreIds.Some?
    ensures tools != [] ==> tools[0] == FileSearch(vectorStoreIds.value)
  {
    if vectorStoreIds.Some? then [FileSearch(vectorStoreIds.value)] else []
  }

  function Greeting(welcomeMessage: Option<string>): seq<Entry> {
    if welcomeMessage.Some? then [Message(Assistant, welcomeMessage.value)] else []
  }

  // ---------------------------------------------------------------------------
  // The driver

  class Responses {
    const instructions: string

    var input: seq<Entry>
    var containers: seq<Container>
    var tools: seq<Tool>
    var trackedFiles: seq<PrototypeFile>
    /** Every `responses.create` call issued so far, in order. */
    var requests: seq<Request>

    function State(): PrototypeState
      reads this
    {
      PrototypeState(input, containers, requests)
    }

    function Files(): Workspace
      reads this
    {
      Workspace(input, tools, trackedFiles)
    }

    /**
     * `__init__`: the `file_search` tool for `vector_store_ids`, the welcome message,
     * then one tracked file per message file.
     */
    constructor(
      instructions: Option<string>, welcomeMessage: Option<string>, messageFiles: Option<seq<string>>,
      vectorStoreIds: Option<seq<string>>, resolve: string -> string, vectorStores: nat -> string)
      ensures this.instructions == (if instructions.Some? then instructions.value else "")
      ensures Files() == TrackMessageFiles(
        Workspace(Greeting(welcomeMessage), InitialTools(vectorStoreIds), []),
        if messageFiles.Some? then messageFiles.value else [], resolve, vectorStores)
      ensures containers ==
        (if welcomeMessage.Some? then [Container(Assistant, [Block(Text, Chars(welcomeMessage.value))], [])] else [])
      ensures requests == []
    {
      this.instructions := if instructions.Some? then instructions.value else "";
      new;
      input := [];
      containers := [];
      tools := [];
      trackedFiles := [];
      requests := [];
      if vectorStoreIds.Some? {
        tools := tools + [FileSearch(vectorStoreIds.value)];
      }
      if welcomeMessage.Some? {
        input := input + [Message(Assistant, welcomeMessage.value)];
        containers := containers + [Container(Assistant, [Block(Text, Chars(welcomeMessage.value))], [])];
      }
      ghost var start := Files();
      assert start == Workspace(Greeting(welcomeMessage), InitialTools(vectorStoreIds), []);
      TrackMessageFilesIn(if messageFiles.Some? then messageFiles.value else [], resolve, vectorStores);
    }

    /** The constructor's loop over `message_files`. */
    method TrackMessageFilesIn(files: seq<string>, resolve: string -> string, vectorStores: nat -> string)
      modifies this`input, this`tools, this`trackedFiles
      ensures Files() == TrackMessageFiles(old(Files()), files, resolve, vectorStores)
    {
      for i := 0 to |files|
        invariant Files() == TrackMessageFiles(old(Files()), files[..i], resolve, vectorStores)
      {
        assert files[..i + 1][..i] == files[..i];
        var r := NewTrackedFile(None, Some(files[i]), resolve, vectorStores(|trackedFiles|));
        trackedFiles := trackedFiles + [r.value];
      }
      assert files[..|files|] == files;
    }

    /** `respond(prompt)`: the reply is built by `response += event.delta` as the deltas stream. */
    method Respond(prompt: string, events: seq<Event>)
      modifies this`input, this`containers, this`requests
      ensures State() == RespondTurn(old(State()), instructions, tools, prompt, events)
    {
      input := input + [Message(User, prompt)];
      containers := containers + [Empty(Assistant)];
      requests := requests + [Request(input, DeveloperMessage + instructions, tools)];
      ghost var prefix := containers[..|containers| - 1];
      assert containers == prefix + [Container(Assistant, [], TextOps(events[..0]))];
      var response := "";
      for i := 0 to |events|
        invariant response == Concat(Deltas(events[..i]))
        invariant containers == prefix + [Container(Assistant, [], TextOps(events[..i]))]
        invariant input == old(input) + [Message(User, prompt)]
        invariant requests == old(requests) + [Request(input, DeveloperMessage + instructions, tools)]
      {
        assert events[..i + 1][..i] == events[..i];
        if events[i].TextDelta? {
          var n := |containers| - 1;
          var c := containers[n];
          assert containers[..n] == prefix;
          containers := containers[..n] + [c.(log := c.log + [Streamed(Text, Chars(events[i].delta))])];
          ghost var ds := Deltas(events[..i]);
          assert Concat(ds + [events[i].delta]) == Concat(ds) + events[i].delta by {
            assert (ds + [events[i].delta])[..|ds|] == ds;
          }
          response := response + events[i].delta;
          assert Deltas(events[..i + 1]) == ds + [events[i].delta];
          assert TextOps(events[..i + 1]) == TextOps(events[..i]) + [Streamed(Text, Chars(events[i].delta))];
        } else {
          assert TextOps(events[..i + 1]) == TextOps(events[..i]) by {
            assert TextOps(events[..i]) + [] == TextOps(events[..i]);
          }
          assert Deltas(events[..i + 1]) == Deltas(events[..i]) by {
            assert Deltas(events[..i]) + [] == Deltas(events[..i]);
          }
        }
      }
      assert events[..|events|] == events;
      input := input + [Message(Assistant, response)];
    }

    /**
     * `TrackedFile(self, uploaded_file, message_file)`: raises before any change, or
     * announces the file and merges its vector store when the suffix is searchable.
     */
    method NewTrackedFile(
      uploaded: Option<Upload>, messageFile: Option<string>, resolve: string -> string, store: string)
      returns (r: Result<PrototypeFile>)
      modifies this`input, this`tools
      ensures var t := TrackFile(old(input), old(tools), uploaded, messageFile, resolve, store);
        && (t.Err? ==> r == Err(t.error) && input == old(input) && tools == old(tools))
        && (t.Ok? ==> r == Ok(t.value.file) && input == t.value.input && tools == t.value.tools)
    {
      if uploaded.None? == messageFile.None? {
        return Err(ValueError(ExactlyOneSource));
      }
      if uploaded.Some? {
        return Err(AttributeError("temp_dir"));
      }
      var path := resolve(messageFile.value);
      input := input + [InputText(Announcement(path))];
      if Suffix(path) in FileSearchExtensions {
        tools := JoinFileSearch(tools, store);
        return Ok(PrototypeFile(messageFile.value, path, Some(store)));
      }
      return Ok(PrototypeFile(messageFile.value, path, None));
    }
  }
}
