/**
 * The Chat Completions driver, `ChatCompletions` in streamlit_openai/chat_completions.py:
 * a message list that starts with the developer message, one container per turn, and
 * a streamed reply that may carry function-call fragments. Those fragments are
 * gathered chunk by chunk into a current record (`current_tool`) that a
 * `finish_reason == "tool_calls"` chunk files under its name (`used_tools`); every
 * filed call is then answered and the conversation is streamed once more.
 *
 * The driver reads `function.definition` and `function.function` on its custom
 * functions; here they are the function's `spec` and `handler`.
 */
module CompletionsChat {

  import opened Common
  import opened Strings
  import opened OrderedDicts
  import opened UploadTracking

  const DeveloperMessage: string :=
    "\n- Use GitHub-flavored Markdown in your response, including tables, images, URLs, code blocks, and lists."
    + "\n- Wrap all mathematical expressions and LaTeX terms in `$...$` for inline math and `$$...$$` for display math.\n"

  /** An entry of `messages`. */
  datatype Message =
    | DeveloperText(content: string)                                  // {"role": "developer", "content": ...}
    | UserText(content: string)                                       // {"role": "user", "content": prompt}
    | AssistantText(content: string)                                  // {"role": "assistant", "content": welcome}
    | AssistantStream(chunks: seq<Chunk>)                             // {"role": "assistant", "content": chunks}
    | FileUpload(fileId: string, text: string)                        // a "file" part and a "text" part
    | ToolCallRequest(id: string, name: string, arguments: string)    // {"role": "assistant", "tool_calls": [...]}
    | ToolResult(toolCallId: string, content: string)                 // {"role": "tool", ...}

  /** `x.choices[0].delta.tool_calls[0]`: its id, function name (absent after the first fragment) and arguments. */
  datatype ToolCallDelta = ToolCallDelta(id: string, name: Option<string>, arguments: string)

  /** `x.choices[0]` of one streamed chunk. */
  datatype Chunk = Chunk(content: Option<string>, finishReason: Option<string>, toolCall: Option<ToolCallDelta>)

  /** The `current_tool` dictionary once it is not empty. */
  datatype ToolRecord = ToolRecord(name: string, id: string, args: string)

  /** One `chat.completions.create` call: the messages sent, and `tools` when it is passed. */
  datatype CompletionRequest = CompletionRequest(messages: seq<Message>, tools: Option<seq<FunctionSpec>>)

  /* ---------------------------------------------------------------------------
   * Construction
   * ------------------------------------------------------------------------- */

  /** `{"type": "function", "function": function.definition}` for each function, in order. */
  function Definitions(functions: seq<CustomFunction>): (r: seq<FunctionSpec>)
    ensures |r| == |functions|
    ensures forall j :: 0 <= j < |functions| ==> r[j] == functions[j].spec
    decreases |functions|
  {
    if functions == [] then [] else Definitions(functions[..|functions| - 1]) + [functions[|functions| - 1].spec]
  }

  /** `tools` exists only when functions are given. */
  function ToolsFor(functions: Option<seq<CustomFunction>>): Option<seq<FunctionSpec>> {
    if functions.Some? then Some(Definitions(functions.value)) else None
  }

  /** The message announcing one of the `message_files`, with the closing parenthesis the source adds. */
  function FileMessage(path: string, fileId: string): Message {
    FileUpload(fileId, "File uploaded: " + Basename(path) + ")")
  }

  function FileMessages(paths: seq<string>, fileIds: nat -> string): seq<Message>
    decreases |paths|
  {
    if paths == [] then []
    else FileMessages(paths[..|paths| - 1], fileIds) + [FileMessage(paths[|paths| - 1], fileIds(|paths| - 1))]
  }

  /** One file message per path, in order, with the id the service gave the `j`-th upload. */
  lemma {:induction false} FileMessagesAt(paths: seq<string>, fileIds: nat -> string)
    ensures |FileMessages(paths, fileIds)| == |paths|
    ensures forall j :: 0 <= j < |paths| ==> FileMessages(paths, fileIds)[j] == FileMessage(paths[j], fileIds(j))
    decreases |paths|
  {
    if paths != [] {
      var n := |paths| - 1;
      var front := paths[..n];
      FileMessagesAt(front, fileIds);
      var ms := FileMessages(paths, fileIds);
      var m0 := FileMessages(front, fileIds);
      var last := FileMessage(paths[n], fileIds(n));
      assert ms == m0 + [last];
      forall j | 0 <= j < |paths|
        ensures ms[j] == FileMessage(paths[j], fileIds(j))
      {
        if j < n {
          assert (m0 + [last])[j] == m0[j];
          assert front[j] == paths[j];
        } else {
          assert (m0 + [last])[j] == last;
        }
      }
    }
  }

  /** The messages `__init__` leaves: the developer message, the welcome message, the file messages. */
  function InitialMessages(
    instructions: string, welcome: Option<string>, messageFiles: Option<seq<string>>, fileIds: nat -> string)
    : seq<Message>
  {
    [DeveloperText(DeveloperMessage + instructions)]
    + (if welcome.Some? then [AssistantText(welcome.value)] else [])
    + (if messageFiles.Some? then FileMessages(messageFiles.value, fileIds) else [])
  }

  /** No entry of `ms` is a developer message. */
  predicate NoDeveloper(ms: seq<Message>) {
    forall j :: 0 <= j < |ms| ==> !ms[j].DeveloperText?
  }

  lemma {:induction false} FileMessagesNoDeveloper(paths: seq<string>, fileIds: nat -> string)
    ensures NoDeveloper(FileMessages(paths, fileIds))
    decreases |paths|
  {
    if paths != [] {
      FileMessagesNoDeveloper(paths[..|paths| - 1], fileIds);
    }
  }

  /**
   * The message list starts with exactly one developer message, holding the fixed
   * text followed by the instructions; a welcome message comes next when there is
   * one, then one message per message file, in order.
   */
  lemma {:induction false} InitialMessagesShape(
    instructions: string, welcome: Option<string>, messageFiles: Option<seq<string>>, fileIds: nat -> string)
    ensures var m := InitialMessages(instructions, welcome, messageFiles, fileIds);
      var w := if welcome.Some? then 1 else 0;
      var files := if messageFiles.Some? then messageFiles.value else [];
      && |m| == 1 + w + |files|
      && m[0] == DeveloperText(DeveloperMessage + instructions)
      && NoDeveloper(m[1..])
      && (welcome.Some? ==> m[1] == AssistantText(welcome.value))
      && m[1 + w..] == FileMessages(files, fileIds)
  {
    var files := if messageFiles.Some? then messageFiles.value else [];
    var greeting: seq<Message> := if welcome.Some? then [AssistantText(welcome.value)] else [];
    assert |greeting| == if welcome.Some? then 1 else 0;
    var announced := FileMessages(files, fileIds);
    assert |announced| == |files| by {
      FileMessagesAt(files, fileIds);
    }
    FileMessagesNoDeveloper(files, fileIds);
    assert NoDeveloper(greeting);
    NoDeveloperJoin(greeting, announced);
    var head := DeveloperText(DeveloperMessage + instructions);
    assert InitialMessages(instructions, welcome, messageFiles, fileIds) == [head] + (greeting + announced);
    AfterHead(head, greeting, announced);
  }

  lemma {:induction false} NoDeveloperJoin(a: seq<Message>, b: seq<Message>)
    requires NoDeveloper(a) && NoDeveloper(b)
    ensures NoDeveloper(a + b)
  {
    forall j | 0 <= j < |a + b|
      ensures !(a + b)[j].DeveloperText?
    {
      if j < |a| {
        assert (a + b)[j] == a[j];
      } else {
        assert (a + b)[j] == b[j - |a|];
      }
    }
  }

  /** Past the head come the greeting, then the rest. */
  lemma {:induction false} AfterHead(head: Message, greeting: seq<Message>, rest: seq<Message>)
    ensures var m := [head] + (greeting + rest);
      && |m| == 1 + |greeting| + |rest| && m[0] == head && m[1..] == greeting + rest
      && (|greeting| > 0 ==> m[1] == greeting[0])
      && m[1 + |greeting|..] == rest
  {
    var m := [head] + (greeting + rest);
    assert m[1..] == greeting + rest;
    assert m[1 + |greeting|..] == (greeting + rest)[|greeting|..];
    assert (greeting + rest)[|greeting|..] == rest;
  }

  /* ---------------------------------------------------------------------------
   * Streaming text
   * ------------------------------------------------------------------------- */

  /** The text updates a stream makes: one per chunk whose content is not `None`. */
  function TextOps(chunks: seq<Chunk>): seq<ContainerOp>
    decreases |chunks|
  {
    if chunks == [] then []
    else
      var x := chunks[|chunks| - 1];
      TextOps(chunks[..|chunks| - 1]) + (if x.content.Some? then [Streamed(Text, Chars(x.content.value))] else [])
  }

  /** The contents of the chunks that carry one, in order. */
  function Contents(chunks: seq<Chunk>): seq<Payload>
    decreases |chunks|
  {
    if chunks == [] then []
    else
      var x := chunks[|chunks| - 1];
      Contents(chunks[..|chunks| - 1]) + (if x.content.Some? then [Chars(x.content.value)] else [])
  }

  /**
   * `_respond1` streams exactly the non-`None` content deltas, in order, as text, and
   * nothing under any other category.
   */
  lemma {:induction false} TextOpsStreams(chunks: seq<Chunk>, c: Category)
    ensures Streams(TextOps(chunks), c) == if c == Text then Contents(chunks) else []
    decreases |chunks|
  {
    if chunks != [] {
      var n := |chunks| - 1;
      var x := chunks[n];
      TextOpsStreams(chunks[..n], c);
      var step: seq<ContainerOp> := if x.content.Some? then [Streamed(Text, Chars(x.content.value))] else [];
      StreamsAppend(TextOps(chunks[..n]), step, c);
      if x.content.Some? {
        StreamsSingle(Streamed(Text, Chars(x.content.value)), c);
      }
    }
  }

  /* ---------------------------------------------------------------------------
   * The tool-call accumulator of `_respond2`
   * ------------------------------------------------------------------------- */

  /**
   * The loop state of `_respond2`: what went into the last container, the current
   * record (`None` for the empty dictionary), the filed records, and the error that
   * ended the loop.
   */
  datatype Accumulator = Accumulator(
    log: seq<ContainerOp>, current: Option<ToolRecord>, used: Dict<ToolRecord>, failure: Option<Error>)

  predicate Finishes(x: Chunk) {
    x.finishReason == Some("tool_calls")
  }

  /** Whether a tool-call fragment starts a new record: it names a function other than the current one. */
  predicate Starts(current: Option<ToolRecord>, d: ToolCallDelta) {
    d.name.Some? && (current.None? || current.value.name != d.name.value)
  }

  /**
   * One chunk: its content is streamed; a finishing chunk files the current record
   * under its name (`KeyError` on the empty dictionary); a fragment that starts a
   * record replaces the current one, and every fragment's arguments are appended to
   * the record (`KeyError` when there is none).
   */
  function StepChunk(a: Accumulator, x: Chunk): Accumulator {
    if a.failure.Some? then a
    else
      var log := a.log + (if x.content.Some? then [Streamed(Text, Chars(x.content.value))] else []);
      if Finishes(x) && a.current.None? then Accumulator(log, a.current, a.used, Some(KeyError("name")))
      else
        var current := if Finishes(x) then None else a.current;
        var used := if Finishes(x) then Put(a.used, a.current.value.name, a.current.value) else a.used;
        if x.toolCall.None? then Accumulator(log, current, used, None)
        else
          var d := x.toolCall.value;
          var record := if Starts(current, d) then Some(ToolRecord(d.name.value, d.id, "")) else current;
          if record.None? then Accumulator(log, record, used, Some(KeyError("args")))
          else Accumulator(log, Some(record.value.(args := record.value.args + d.arguments)), used, None)
  }

  function Accumulate(a: Accumulator, chunks: seq<Chunk>): Accumulator
    decreases |chunks|
  {
    if chunks == [] then a else StepChunk(Accumulate(a, chunks[..|chunks| - 1]), chunks[|chunks| - 1])
  }

  /** The accumulator a reply starts from: nothing streamed, no record, nothing filed. */
  function Fresh(): Accumulator {
    Accumulator([], None, [], None)
  }

  /** Once the loop has failed, later chunks change nothing. */
  lemma {:induction false} AccumulateStops(a: Accumulator, chunks: seq<Chunk>, i: nat)
    requires i <= |chunks| && Accumulate(a, chunks[..i]).failure.Some?
    ensures Accumulate(a, chunks) == Accumulate(a, chunks[..i])
    decreases |chunks|
  {
    if i < |chunks| {
      var n := |chunks| - 1;
      assert chunks[..n][..i] == chunks[..i];
      AccumulateStops(a, chunks[..n], i);
    } else {
      assert chunks[..i] == chunks;
    }
  }

  /** The argument fragments of a run of tool-call chunks, concatenated (a chunk with no tool call adds none). */
  function Fragments(chunks: seq<Chunk>): string
    decreases |chunks|
  {
    if chunks == [] then []
    else
      var x := chunks[|chunks| - 1];
      Fragments(chunks[..|chunks| - 1]) + (if x.toolCall.Some? then x.toolCall.value.arguments else "")
  }

  /** Chunks that continue the record called `name`: tool-call fragments that name no other function, and no finish. */
  predicate Continues(chunks: seq<Chunk>, name: string) {
    forall j :: 0 <= j < |chunks| ==>
      && !Finishes(chunks[j])
      && chunks[j].toolCall.Some?
      && (chunks[j].toolCall.value.name.None? || chunks[j].toolCall.value.name == Some(name))
  }

  /**
   * Consecutive fragments of the same function merge: while no chunk finishes and
   * none names another function, the record keeps its name and id and its arguments
   * grow by each fragment in turn, and nothing is filed.
   */
  lemma {:induction false} SameNameMerges(a: Accumulator, chunks: seq<Chunk>)
    requires a.failure.None? && a.current.Some?
    requires Continues(chunks, a.current.value.name)
    ensures var r := Accumulate(a, chunks);
      && r.failure.None?
      && r.used == a.used
      && r.current == Some(a.current.value.(args := a.current.value.args + Fragments(chunks)))
    decreases |chunks|
  {
    if chunks != [] {
      var n := |chunks| - 1;
      assert Continues(chunks[..n], a.current.value.name) by {
        forall j | 0 <= j < n ensures chunks[..n][j] == chunks[j] { }
      }
      SameNameMerges(a, chunks[..n]);
      var r0 := Accumulate(a, chunks[..n]);
      var x := chunks[n];
      assert r0.current.value.name == a.current.value.name;
      assert !Starts(r0.current, x.toolCall.value);
      var before := a.current.value.args + Fragments(chunks[..n]);
      assert r0.current.value.args == before;
      var after := before + x.toolCall.value.arguments;
      assert Accumulate(a, chunks).current == Some(r0.current.value.(args := after));
      assert Fragments(chunks) == Fragments(chunks[..n]) + x.toolCall.value.arguments;
      assert a.current.value.args + Fragments(chunks) == after;
    } else {
      assert a.current.value.args + [] == a.current.value.args;
    }
  }

  /**
   * A record's arguments are the concatenation of the fragments since it started: the
   * chunk that names a function other than the current record's (or arrives when
   * there is none) opens a record with that name and its id, and the chunks that
   * continue it add their fragments.
   */
  lemma {:induction false} ArgumentsSinceStart(a: Accumulator, first: Chunk, rest: seq<Chunk>)
    requires a.failure.None? && !Finishes(first) && first.toolCall.Some? && Starts(a.current, first.toolCall.value)
    requires Continues(rest, first.toolCall.value.name.value)
    ensures var d := first.toolCall.value;
      var r := Accumulate(a, [first] + rest);
      && r.failure.None?
      && r.used == a.used
      && r.current == Some(ToolRecord(d.name.value, d.id, Fragments([first] + rest)))
  {
    var d := first.toolCall.value;
    var a1 := StepChunk(a, first);
    assert Accumulate(a, [first]) == a1 by {
      assert [first][..0] == [];
    }
    assert "" + d.arguments == d.arguments;
    assert a1.current == Some(ToolRecord(d.name.value, d.id, d.arguments));
    SameNameMerges(a1, rest);
    AccumulateSplit(a, [first], rest);
    FragmentsSplit([first], rest);
    assert Fragments([first]) == d.arguments by {
      assert [first][..0] == [];
    }
  }

  lemma {:induction false} AccumulateSplit(a: Accumulator, xs: seq<Chunk>, ys: seq<Chunk>)
    ensures Accumulate(a, xs + ys) == Accumulate(Accumulate(a, xs), ys)
    decreases |ys|
  {
    if ys == [] {
      assert xs + ys == xs;
    } else {
      var n := |ys| - 1;
      assert (xs + ys)[..|xs + ys| - 1] == xs + ys[..n];
      AccumulateSplit(a, xs, ys[..n]);
    }
  }

  lemma {:induction false} FragmentsSplit(xs: seq<Chunk>, ys: seq<Chunk>)
    ensures Fragments(xs + ys) == Fragments(xs) + Fragments(ys)
    decreases |ys|
  {
    if ys == [] {
      assert xs + ys == xs;
    } else {
      var n := |ys| - 1;
      assert (xs + ys)[..|xs + ys| - 1] == xs + ys[..n];
      FragmentsSplit(xs, ys[..n]);
    }
  }

  /** A finishing chunk files the current record under its name and empties it. */
  lemma {:induction false} FinishFilesRecord(a: Accumulator, x: Chunk)
    requires a.failure.None? && a.current.Some? && Finishes(x) && x.toolCall.None?
    ensures var r := StepChunk(a, x);
      && r.failure.None? && r.current.None?
      && Get(r.used, a.current.value.name) == Some(a.current.value)
      && Keys(r.used) == if a.current.value.name in Keys(a.used) then Keys(a.used) else Keys(a.used) + [a.current.value.name]
  {
  }

  /** A finishing chunk with no current record fails on `current_tool["name"]`. */
  lemma {:induction false} FinishWithoutRecordFails(a: Accumulator, x: Chunk)
    requires a.failure.None? && a.current.None? && Finishes(x)
    ensures StepChunk(a, x).failure == Some(KeyError("name"))
  {
  }

  /** A fragment that names no function while there is no record fails on `current_tool["args"]`. */
  lemma {:induction false} FragmentWithoutRecordFails(a: Accumulator, x: Chunk)
    requires a.failure.None? && a.current.None? && !Finishes(x) && x.toolCall.Some? && x.toolCall.value.name.None?
    ensures StepChunk(a, x).failure == Some(KeyError("args"))
  {
  }

  /** Chunks without a finish file nothing. */
  lemma {:induction false} UnfinishedFilesNothing(a: Accumulator, chunks: seq<Chunk>)
    requires forall j :: 0 <= j < |chunks| ==> !Finishes(chunks[j])
    ensures Accumulate(a, chunks).used == a.used
    decreases |chunks|
  {
    if chunks != [] {
      UnfinishedFilesNothing(a, chunks[..|chunks| - 1]);
    }
  }

  /**
   * A record replaced by one for a differently named function before any finishing
   * chunk is lost: from then until the next finish nothing is filed, so the records
   * filed are those filed before, and the current record is the new function's.
   */
  lemma {:induction false} OverwriteLosesRecord(a: Accumulator, x: Chunk, rest: seq<Chunk>)
    requires a.failure.None? && a.current.Some?
    requires !Finishes(x) && x.toolCall.Some? && x.toolCall.value.name.Some?
    requires x.toolCall.value.name.value != a.current.value.name
    requires forall j :: 0 <= j < |rest| ==> !Finishes(rest[j])
    ensures Accumulate(a, [x] + rest).used == a.used
    ensures StepChunk(a, x).current.value.name == x.toolCall.value.name.value
  {
    assert forall j :: 0 <= j < |[x] + rest| ==> !Finishes(([x] + rest)[j]);
    UnfinishedFilesNothing(a, [x] + rest);
  }

  /** What one chunk adds to the log: its content as text, unless the loop has already failed. */
  function ChunkOps(x: Chunk): seq<ContainerOp> {
    if x.content.Some? then [Streamed(Text, Chars(x.content.value))] else []
  }

  lemma {:induction false} StepLog(a: Accumulator, x: Chunk)
    ensures StepChunk(a, x).log == if a.failure.Some? then a.log else a.log + ChunkOps(x)
  {
  }

  lemma {:induction false} ChunkOpsStreams(x: Chunk, c: Category)
    ensures Streams(ChunkOps(x), c) == if c == Text && x.content.Some? then [Chars(x.content.value)] else []
  {
    if x.content.Some? {
      StreamsSingle(Streamed(Text, Chars(x.content.value)), c);
    }
  }

  /** The loop streams the contents of the chunks it got through, in order. */
  lemma {:induction false} AccumulateStreams(a: Accumulator, chunks: seq<Chunk>, c: Category)
    requires a.failure.None? && Accumulate(a, chunks).failure.None?
    ensures Streams(Accumulate(a, chunks).log, c) == Streams(a.log, c) + (if c == Text then Contents(chunks) else [])
    decreases |chunks|
  {
    if chunks != [] {
      var n := |chunks| - 1;
      var x := chunks[n];
      var prior := Accumulate(a, chunks[..n]);
      assert prior.failure.None?;
      AccumulateStreams(a, chunks[..n], c);
      StepLog(prior, x);
      StreamsAppend(prior.log, ChunkOps(x), c);
      ChunkOpsStreams(x, c);
    }
  }

  /** The log only ever grows. */
  lemma {:induction false} AccumulateExtendsLog(a: Accumulator, chunks: seq<Chunk>)
    ensures |a.log| <= |Accumulate(a, chunks).log| && Accumulate(a, chunks).log[..|a.log|] == a.log
    decreases |chunks|
  {
    if chunks != [] {
      var n := |chunks| - 1;
      var prior := Accumulate(a, chunks[..n]);
      AccumulateExtendsLog(a, chunks[..n]);
      StepLog(prior, chunks[n]);
      assert Accumulate(a, chunks) == StepChunk(prior, chunks[n]);
      PrefixKept(prior.log, StepChunk(prior, chunks[n]).log, a.log);
    }
  }

  /** A sequence that extends one extending `p` still starts with `p`. */
  lemma {:induction false} PrefixKept<T>(s: seq<T>, t: seq<T>, p: seq<T>)
    requires |p| <= |s| && s[..|p|] == p
    requires |s| <= |t| && t[..|s|] == s
    ensures |p| <= |t| && t[..|p|] == p
  {
    assert t[..|p|] == t[..|s|][..|p|];
  }

  /* ---------------------------------------------------------------------------
   * Answering the filed calls
   * ------------------------------------------------------------------------- */

  /** The messages appended for the filed calls, and the error that stopped the loop. */
  datatype ToolReply = ToolReply(messages: seq<Message>, failure: Option<Error>)

  /**
   * For each filed name, in dictionary order: the assistant `tool_calls` message, then
   * the lookup of the first function with that name (`IndexError` when there is none,
   * after the `tool_calls` message), then the `tool` message with the handler's result.
   */
  function ToolMessages(functions: seq<CustomFunction>, used: Dict<ToolRecord>): ToolReply
    decreases |used|
  {
    if used == [] then ToolReply([], None)
    else
      var earlier := ToolMessages(functions, used[..|used| - 1]);
      var (name, r) := used[|used| - 1];
      if earlier.failure.Some? then earlier
      else
        var call := ToolCallRequest(r.id, r.name, r.args);
        match LookupFunction(Some(functions), name)
        case Err(e) => ToolReply(earlier.messages + [call], Some(e))
        case Ok(f) => ToolReply(earlier.messages + [call, ToolResult(r.id, f.handler(r.args))], None)
  }

  /** The `tool` message answering a filed record, with the first function of that name. */
  function Answer(functions: seq<CustomFunction>, name: string, r: ToolRecord): Message
    requires LookupFunction(Some(functions), name).Ok?
  {
    ToolResult(r.id, LookupFunction(Some(functions), name).value.handler(r.args))
  }

  /** The `j`-th filed call was answered: its `tool_calls` message, then the `tool` message. */
  predicate AnsweredAt(messages: seq<Message>, functions: seq<CustomFunction>, used: Dict<ToolRecord>, j: int) {
    && 0 <= j < |used| && 2 * j + 1 < |messages|
    && LookupFunction(Some(functions), used[j].0).Ok?
    && messages[2 * j] == ToolCallRequest(used[j].1.id, used[j].1.name, used[j].1.args)
    && messages[2 * j + 1] == Answer(functions, used[j].0, used[j].1)
  }

  /** The `k`-th filed call stopped the loop: its `tool_calls` message is the last one, and no function has its name. */
  predicate FailedAt(messages: seq<Message>, functions: seq<CustomFunction>, used: Dict<ToolRecord>, k: int) {
    && 0 <= k < |used| && |messages| == 2 * k + 1
    && messages[2 * k] == ToolCallRequest(used[k].1.id, used[k].1.name, used[k].1.args)
    && LookupFunction(Some(functions), used[k].0) == Err(IndexError)
  }

  /**
   * Every filed call gets its `tool_calls` message followed by the `tool` message with
   * the same id and the handler's result, in dictionary order; the first name no
   * function has stops the loop with `IndexError`, right after its `tool_calls`
   * message.
   */
  lemma {:induction false} ToolMessagesPaired(functions: seq<CustomFunction>, used: Dict<ToolRecord>)
    ensures var t := ToolMessages(functions, used);
      && (t.failure.None? ==> |t.messages| == 2 * |used|)
      && (t.failure.Some? ==> t.failure == Some(IndexError) && FailedAt(t.messages, functions, used, |t.messages| / 2))
      && (forall j :: 0 <= j < |t.messages| / 2 ==> AnsweredAt(t.messages, functions, used, j))
    decreases |used|
  {
    if used != [] {
      var n := |used| - 1;
      var prior := used[..n];
      ToolMessagesPaired(functions, prior);
      var t0 := ToolMessages(functions, prior);
      var t := ToolMessages(functions, used);
      if t0.failure.None? {
        AnsweredExtend(t0.messages, t.messages, functions, prior, used);
        ToolMessagesLast(functions, used);
      } else {
        assert t == t0;
        FailedExtend(t0.messages, functions, prior, used);
        AnsweredExtend(t0.messages, t.messages, functions, prior, used);
      }
    }
  }

  /** After a clean prefix, the last filed call is answered, or stops the loop with `IndexError`. */
  lemma {:induction false} ToolMessagesLast(functions: seq<CustomFunction>, used: Dict<ToolRecord>)
    requires used != []
    requires var t0 := ToolMessages(functions, used[..|used| - 1]);
      t0.failure.None? && |t0.messages| == 2 * (|used| - 1)
    ensures var t := ToolMessages(functions, used);
      var n := |used| - 1;
      && t.messages[..2 * n] == ToolMessages(functions, used[..n]).messages
      && (t.failure.None? ==> |t.messages| == 2 * n + 2 && AnsweredAt(t.messages, functions, used, n))
      && (t.failure.Some? ==> t.failure == Some(IndexError) && FailedAt(t.messages, functions, used, n))
  {
    var n := |used| - 1;
    var t0 := ToolMessages(functions, used[..n]);
    var (name, r) := used[n];
    var call := ToolCallRequest(r.id, r.name, r.args);
    var t := ToolMessages(functions, used);
    match LookupFunction(Some(functions), name)
    case Err(e) =>
      assert t.messages == t0.messages + [call];
      LookupFunctionFirst(functions, name);
    case Ok(f) =>
      assert t.messages == t0.messages + [call, ToolResult(r.id, f.handler(r.args))];
  }

  lemma {:induction false} AnsweredExtend(
    m0: seq<Message>, m: seq<Message>, functions: seq<CustomFunction>, prior: Dict<ToolRecord>, used: Dict<ToolRecord>)
    requires |prior| < |used| && prior == used[..|prior|]
    requires |m0| <= |m| && m0 == m[..|m0|]
    requires forall j :: 0 <= j < |m0| / 2 ==> AnsweredAt(m0, functions, prior, j)
    ensures forall j :: 0 <= j < |m0| / 2 ==> AnsweredAt(m, functions, used, j)
  {
    forall j | 0 <= j < |m0| / 2 ensures AnsweredAt(m, functions, used, j) {
      assert AnsweredAt(m0, functions, prior, j);
      assert used[j] == prior[j];
      assert m[2 * j] == m0[2 * j] && m[2 * j + 1] == m0[2 * j + 1];
    }
  }

  lemma {:induction false} FailedExtend(m0: seq<Message>, functions: seq<CustomFunction>, prior: Dict<ToolRecord>, used: Dict<ToolRecord>)
    requires |prior| < |used| && prior == used[..|prior|]
    requires FailedAt(m0, functions, prior, |m0| / 2)
    ensures FailedAt(m0, functions, used, |m0| / 2)
  {
    assert used[|m0| / 2] == prior[|m0| / 2];
  }

  lemma {:induction false} ToolMessagesStops(functions: seq<CustomFunction>, used: Dict<ToolRecord>, i: nat)
    requires i <= |used| && ToolMessages(functions, used[..i]).failure.Some?
    ensures ToolMessages(functions, used) == ToolMessages(functions, used[..i])
    decreases |used|
  {
    if i < |used| {
      var n := |used| - 1;
      assert used[..n][..i] == used[..i];
      ToolMessagesStops(functions, used[..n], i);
    } else {
      assert used[..i] == used;
    }
  }

  /* ---------------------------------------------------------------------------
   * One turn
   * ------------------------------------------------------------------------- */

  datatype CompletionState = CompletionState(
    messages: seq<Message>, containers: seq<Container>, requests: seq<CompletionRequest>)

  datatype CompletionTurn = CompletionTurn(state: CompletionState, outcome: Outcome)

  /**
   * `respond(prompt)`, given the chunks of the first reply and of the reply to the
   * tool results: `_respond1` when there are no functions, `_respond2` otherwise.
   */
  function Reply(
    s: CompletionState, functions: Option<seq<CustomFunction>>, tools: Option<seq<FunctionSpec>>,
    prompt: string, first: seq<Chunk>, second: seq<Chunk>): CompletionTurn
  {
    var sent := s.messages + [UserText(prompt)];
    var m1 := sent + [AssistantStream(first)];
    if functions.None? then
      CompletionTurn(CompletionState(m1, s.containers + [Container(Assistant, [], TextOps(first))],
                                     s.requests + [CompletionRequest(sent, None)]), Done)
    else
      var r1 := s.requests + [CompletionRequest(sent, tools)];
      var acc := Accumulate(Fresh(), first);
      var c1 := s.containers + [Container(Assistant, [], acc.log)];
      if acc.failure.Some? then CompletionTurn(CompletionState(m1, c1, r1), Raised(acc.failure.value))
      else if acc.used == [] then CompletionTurn(CompletionState(m1, c1, r1), Done)
      else
        var t := ToolMessages(functions.value, acc.used);
        var m2 := m1 + t.messages;
        if t.failure.Some? then CompletionTurn(CompletionState(m2, c1, r1), Raised(t.failure.value))
        else
          CompletionTurn(CompletionState(m2 + [AssistantStream(second)],
                                         s.containers + [Container(Assistant, [], acc.log + TextOps(second))],
                                         r1 + [CompletionRequest(m2, None)]), Done)
  }

  /**
   * A turn appends the user message and the first reply's stream object right after
   * it, opens exactly one assistant container after the existing ones, and sends the
   * old messages followed by the user message; `tools` go with that request exactly
   * when there are functions.
   */
  lemma {:induction false} ReplyOpensOneContainer(
    s: CompletionState, functions: Option<seq<CustomFunction>>, prompt: string, first: seq<Chunk>, second: seq<Chunk>)
    ensures var t := Reply(s, functions, ToolsFor(functions), prompt, first, second).state;
      && |t.messages| >= |s.messages| + 2
      && t.messages[..|s.messages| + 2] == s.messages + [UserText(prompt), AssistantStream(first)]
      && |t.containers| == |s.containers| + 1
      && t.containers[..|s.containers|] == s.containers
      && t.containers[|s.containers|].role == Assistant && t.containers[|s.containers|].blocks == []
      && |t.requests| > |s.requests| && t.requests[..|s.requests|] == s.requests
      && t.requests[|s.requests|].messages == s.messages + [UserText(prompt)]
      && (t.requests[|s.requests|].tools.Some? <==> functions.Some?)
  {
    var t := Reply(s, functions, ToolsFor(functions), prompt, first, second).state;
    assert s.messages + [UserText(prompt)] + [AssistantStream(first)] == s.messages + [UserText(prompt), AssistantStream(first)];
    assert t.messages[..|s.messages| + 2] == s.messages + [UserText(prompt), AssistantStream(first)];
    assert t.containers[..|s.containers|] == s.containers;
    assert t.requests[..|s.requests|] == s.requests;
  }

  /**
   * A second request is sent exactly when the first reply filed at least one call and
   * every filed call was answered; it goes without `tools`, so there is no third.
   */
  lemma {:induction false} ReplyResumes(
    s: CompletionState, functions: Option<seq<CustomFunction>>, prompt: string, first: seq<Chunk>, second: seq<Chunk>)
    ensures var t := Reply(s, functions, ToolsFor(functions), prompt, first, second);
      var acc := Accumulate(Fresh(), first);
      var resumed := functions.Some? && acc.failure.None? && acc.used != []
        && ToolMessages(functions.value, acc.used).failure.None?;
      && |t.state.requests| == |s.requests| + (if resumed then 2 else 1)
      && (resumed ==> t.state.requests[|s.requests| + 1].tools.None? && t.outcome.Done?)
      && (t.outcome.Raised? <==>
            (functions.Some? && (acc.failure.Some? || (acc.used != [] && ToolMessages(functions.value, acc.used).failure.Some?))))
  {
  }

  /**
   * What the turn streams into its container: without functions, the contents of the
   * reply; with functions and no error, the contents of the first reply and, when the
   * calls were answered, those of the second; never anything but text.
   */
  lemma {:induction false} ReplyStreams(
    s: CompletionState, functions: Option<seq<CustomFunction>>, prompt: string, first: seq<Chunk>, second: seq<Chunk>,
    c: Category)
    ensures var t := Reply(s, functions, ToolsFor(functions), prompt, first, second);
      var log := t.state.containers[|s.containers|].log;
      var acc := Accumulate(Fresh(), first);
      var resumed := functions.Some? && acc.failure.None? && acc.used != []
        && ToolMessages(functions.value, acc.used).failure.None?;
      && (c != Text ==> Streams(log, c) == [])
      && (t.outcome.Done? ==> Streams(log, Text) == Contents(first) + (if resumed then Contents(second) else []))
  {
    ReplyStreamsIn(s, functions, prompt, first, second, c);
    ReplyStreamsIn(s, functions, prompt, first, second, Text);
  }

  lemma {:induction false} ReplyStreamsIn(
    s: CompletionState, functions: Option<seq<CustomFunction>>, prompt: string, first: seq<Chunk>, second: seq<Chunk>,
    c: Category)
    ensures var t := Reply(s, functions, ToolsFor(functions), prompt, first, second);
      var log := t.state.containers[|s.containers|].log;
      var acc := Accumulate(Fresh(), first);
      var resumed := functions.Some? && acc.failure.None? && acc.used != []
        && ToolMessages(functions.value, acc.used).failure.None?;
      && (c != Text ==> Streams(log, c) == [])
      && (c == Text && t.outcome.Done? ==> Streams(log, c) == Contents(first) + (if resumed then Contents(second) else []))
  {
    var acc := Accumulate(Fresh(), first);
    TextOpsStreams(first, c);
    TextOpsStreams(second, c);
    if functions.Some? {
      if acc.failure.None? {
        AccumulateStreams(Fresh(), first, c);
        assert Streams([], c) == [];
        assert [] + Contents(first) == Contents(first) + [] == Contents(first);
        StreamsAppend(acc.log, TextOps(second), c);
      } else if c != Text {
        AccumulateLogIsText(Fresh(), first, c);
      }
    }
  }

  /** Whatever the loop reaches, it streams nothing but text. */
  lemma {:induction false} AccumulateLogIsText(a: Accumulator, chunks: seq<Chunk>, c: Category)
    requires c != Text && Streams(a.log, c) == []
    ensures Streams(Accumulate(a, chunks).log, c) == []
    decreases |chunks|
  {
    if chunks != [] {
      var n := |chunks| - 1;
      var x := chunks[n];
      var prior := Accumulate(a, chunks[..n]);
      AccumulateLogIsText(a, chunks[..n], c);
      StepLog(prior, x);
      if prior.failure.None? {
        StreamsAppend(prior.log, ChunkOps(x), c);
        ChunkOpsStreams(x, c);
      }
    }
  }

  /* ---------------------------------------------------------------------------
   * The driver
   * ------------------------------------------------------------------------- */

  /** The definitions of `__init__`, appended one at a time. */
  method BuildDefinitions(functions: seq<CustomFunction>) returns (tools: seq<FunctionSpec>)
    ensures tools == Definitions(functions)
  {
    tools := [];
    for i := 0 to |functions|
      invariant tools == Definitions(functions[..i])
    {
      assert functions[..i + 1][..i] == functions[..i];
      tools := tools + [functions[i].spec];
    }
    assert functions[..|functions|] == functions;
  }

  /** `__init__`'s loop over `message_files`: one file message each, in order. */
  method AnnounceFiles(paths: seq<string>, fileIds: nat -> string) returns (announced: seq<Message>)
    ensures announced == FileMessages(paths, fileIds)
  {
    announced := [];
    for i := 0 to |paths|
      invariant announced == FileMessages(paths[..i], fileIds)
    {
      assert paths[..i + 1][..i] == paths[..i];
      announced := announced + [FileMessage(paths[i], fileIds(i))];
    }
    assert paths[..|paths|] == paths;
  }

  class ChatCompletions {
    const instructions: string
    const functions: Option<seq<CustomFunction>>
    /** `self.tools`; `None` stands for the attribute never being set. */
    const tools: Option<seq<FunctionSpec>>

    var messages: seq<Message>
    var containers: seq<Container>
    var trackedFiles: seq<TrackedUpload>
    /** Positions in `trackedFiles` of the files `remove()` was called on, in call order. */
    var removeCalls: seq<nat>
    /** Every `chat.completions.create` call issued so far, in order. */
    var requests: seq<CompletionRequest>

    function State(): CompletionState
      reads this
    {
      CompletionState(messages, containers, requests)
    }

    /** `__init__`; `fileIds(j)` is the id the service assigns to the `j`-th upload, one upload per message file. */
    constructor(
      instructions: Option<string>, functions: Option<seq<CustomFunction>>, welcomeMessage: Option<string>,
      messageFiles: Option<seq<string>>, fileIds: nat -> string)
      ensures this.instructions == (if instructions.Some? then instructions.value else "")
      ensures this.functions == functions && tools == ToolsFor(functions)
      ensures messages == InitialMessages(this.instructions, welcomeMessage, messageFiles, fileIds)
      ensures containers ==
        (if welcomeMessage.Some? then [Container(Assistant, [Block(Text, Chars(welcomeMessage.value))], [])] else [])
      ensures trackedFiles == [] && removeCalls == [] && requests == []
    {
      var instr := if instructions.Some? then instructions.value else "";
      this.instructions := instr;
      this.functions := functions;
      if functions.Some? {
        var defs := BuildDefinitions(functions.value);
        tools := Some(defs);
      } else {
        tools := None;
      }
      var greeting: seq<Message> := [];
      var shown: seq<Container> := [];
      if welcomeMessage.Some? {
        greeting := [AssistantText(welcomeMessage.value)];
        shown := [Container(Assistant, [Block(Text, Chars(welcomeMessage.value))], [])];
      }
      var announced: seq<Message> := [];
      if messageFiles.Some? {
        announced := AnnounceFiles(messageFiles.value, fileIds);
      }
      messages := [DeveloperText(DeveloperMessage + instr)] + greeting + announced;
      containers := shown;
      trackedFiles := [];
      removeCalls := [];
      requests := [];
    }

    /** `self.last_container.update_and_stream("text", content)`; `prefix` names the containers before it. */
    method UpdateLastContainer(ghost prefix: seq<Container>, content: string)
      requires |containers| == |prefix| + 1 && containers[..|prefix|] == prefix
      modifies this`containers
      ensures var last := old(containers)[|prefix|];
        containers == prefix + [last.(log := last.log + [Streamed(Text, Chars(content))])]
    {
      var n := |containers| - 1;
      var last := containers[n];
      containers := containers[..n] + [last.(log := last.log + [Streamed(Text, Chars(content))])];
    }

    /** The loop that streams every chunk with content into the last container. */
    method StreamText(ghost prefix: seq<Container>, chunks: seq<Chunk>)
      requires |containers| == |prefix| + 1 && containers[..|prefix|] == prefix
      modifies this`containers
      ensures var last := old(containers)[|prefix|];
        containers == prefix + [last.(log := last.log + TextOps(chunks))]
    {
      ghost var last := containers[|prefix|];
      assert containers == prefix + [last];
      assert last.log + TextOps([]) == last.log;
      for i := 0 to |chunks|
        invariant containers == prefix + [last.(log := last.log + TextOps(chunks[..i]))]
      {
        assert chunks[..i + 1][..i] == chunks[..i];
        ghost var before := last.log + TextOps(chunks[..i]);
        if chunks[i].content.Some? {
          UpdateLastContainer(prefix, chunks[i].content.value);
          assert before + [Streamed(Text, Chars(chunks[i].content.value))] == last.log + TextOps(chunks[..i + 1]);
        } else {
          assert before == last.log + TextOps(chunks[..i + 1]);
        }
      }
      assert chunks[..|chunks|] == chunks;
    }

    /** `respond(prompt)`, given the chunks the two replies would stream. */
    method Respond(prompt: string, first: seq<Chunk>, second: seq<Chunk>) returns (outcome: Outcome)
      modifies this`messages, this`containers, this`requests
      ensures CompletionTurn(State(), outcome) == Reply(old(State()), functions, tools, prompt, first, second)
    {
      ghost var prefix := containers;
      messages := messages + [UserText(prompt)];
      containers := containers + [Empty(Assistant)];
      assert containers[..|prefix|] == prefix;
      assert forall log :: Empty(Assistant).(log := log) == Container(Assistant, [], log);
      if functions.None? {
        Respond1(prefix, first);
        outcome := Done;
        assert [] + TextOps(first) == TextOps(first);
      } else {
        outcome := Respond2(prefix, first, second);
      }
    }

    /** `_respond1` */
    method Respond1(ghost prefix: seq<Container>, chunks: seq<Chunk>)
      requires |containers| == |prefix| + 1 && containers[..|prefix|] == prefix
      modifies this`messages, this`containers, this`requests
      ensures var last := old(containers)[|prefix|];
        && containers == prefix + [last.(log := last.log + TextOps(chunks))]
        && messages == old(messages) + [AssistantStream(chunks)]
        && requests == old(requests) + [CompletionRequest(old(messages), None)]
    {
      requests := requests + [CompletionRequest(messages, None)];
      messages := messages + [AssistantStream(chunks)];
      StreamText(prefix, chunks);
    }

    /** `_respond2` */
    method Respond2(ghost prefix: seq<Container>, first: seq<Chunk>, second: seq<Chunk>) returns (outcome: Outcome)
      requires functions.Some? && |containers| == |prefix| + 1 && containers[..|prefix|] == prefix
      requires containers[|prefix|].log == []
      modifies this`messages, this`containers, this`requests
      ensures var acc := Accumulate(Fresh(), first);
        var last := old(containers)[|prefix|];
        var r1 := old(requests) + [CompletionRequest(old(messages), tools)];
        var m1 := old(messages) + [AssistantStream(first)];
        if acc.failure.Some? || acc.used == [] then
          && containers == prefix + [last.(log := acc.log)]
          && messages == m1 && requests == r1
          && outcome == (if acc.failure.Some? then Raised(acc.failure.value) else Done)
        else
          var t := ToolMessages(functions.value, acc.used);
          if t.failure.Some? then
            && containers == prefix + [last.(log := acc.log)]
            && messages == m1 + t.messages && requests == r1 && outcome == Raised(t.failure.value)
          else
            && containers == prefix + [last.(log := acc.log + TextOps(second))]
            && messages == m1 + t.messages + [AssistantStream(second)]
            && requests == r1 + [CompletionRequest(m1 + t.messages, None)]
            && outcome == Done
    {
      requests := requests + [CompletionRequest(messages, tools)];
      messages := messages + [AssistantStream(first)];
      var used, failure := Gather(prefix, first);
      if failure.Some? {
        return Raised(failure.value);
      }
      if used == [] {
        return Done;
      }
      failure := AnswerCalls(used);
      if failure.Some? {
        return Raised(failure.value);
      }
      requests := requests + [CompletionRequest(messages, None)];
      messages := messages + [AssistantStream(second)];
      StreamText(prefix, second);
      return Done;
    }

    /** The loop over the first reply's chunks with `current_tool` and `used_tools`. */
    method Gather(ghost prefix: seq<Container>, chunks: seq<Chunk>) returns (used: Dict<ToolRecord>, failure: Option<Error>)
      requires |containers| == |prefix| + 1 && containers[..|prefix|] == prefix
      modifies this`containers
      ensures var last := old(containers)[|prefix|];
        var acc := Accumulate(Fresh().(log := last.log), chunks);
        && containers == prefix + [last.(log := acc.log)]
        && used == acc.used && failure == acc.failure
    {
      ghost var last := containers[|prefix|];
      ghost var start := Fresh().(log := last.log);
      assert containers == prefix + [last];
      var current: Option<ToolRecord> := None;
      used := [];
      for i := 0 to |chunks|
        invariant var acc := Accumulate(start, chunks[..i]);
          && acc.failure.None?
          && containers == prefix + [last.(log := acc.log)]
          && current == acc.current && used == acc.used
      {
        assert chunks[..i + 1][..i] == chunks[..i];
        ghost var log := Accumulate(start, chunks[..i]).log;
        var x := chunks[i];
        if x.content.Some? {
          var n := |containers| - 1;
          var c := containers[n];
          containers := containers[..n] + [c.(log := c.log + [Streamed(Text, Chars(x.content.value))])];
        } else {
          assert log + [] == log;
        }
        if x.finishReason == Some("tool_calls") {
          if current.None? {
            AccumulateStops(start, chunks, i + 1);
            return used, Some(KeyError("name"));
          }
          used := Put(used, current.value.name, current.value);
          current := None;
        }
        if x.toolCall.Some? {
          var d := x.toolCall.value;
          if d.name.Some? {
            if current.None? || current.value.name != d.name.value {
              current := Some(ToolRecord(d.name.value, d.id, ""));
            }
          }
          if current.None? {
            AccumulateStops(start, chunks, i + 1);
            return used, Some(KeyError("args"));
          }
          current := Some(current.value.(args := current.value.args + d.arguments));
        }
      }
      assert chunks[..|chunks|] == chunks;
      failure := None;
    }

    /** The loop over `used_tools` that answers each filed call. */
    method AnswerCalls(used: Dict<ToolRecord>) returns (failure: Option<Error>)
      requires functions.Some?
      modifies this`messages
      ensures var t := ToolMessages(functions.value, used);
        messages == old(messages) + t.messages && failure == t.failure
    {
      var fs := functions.value;
      for i := 0 to |used|
        invariant ToolMessages(fs, used[..i]).failure.None?
        invariant messages == old(messages) + ToolMessages(fs, used[..i]).messages
      {
        assert used[..i + 1][..i] == used[..i];
        var (name, r) := used[i];
        messages := messages + [ToolCallRequest(r.id, r.name, r.args)];
        var found := LookupFunction(Some(fs), name);
        if found.Err? {
          ToolMessagesStops(fs, used, i + 1);
          return Some(found.error);
        }
        messages := messages + [ToolResult(r.id, found.value.handler(r.args))];
      }
      assert used[..|used|] == used;
      return None;
    }

    /**
     * `handle_files(uploaded_files)`: nothing for `None`; otherwise every upload whose
     * id is not tracked yet is tracked, then `remove()` is called on each tracked file
     * that is not removed and whose id the list no longer carries.
     */
    method HandleFiles(uploads: Option<seq<Upload>>)
      modifies this`trackedFiles, this`removeCalls
      ensures uploads.None? ==> trackedFiles == old(trackedFiles) && removeCalls == old(removeCalls)
      ensures uploads.Some? ==>
        && trackedFiles == old(trackedFiles) + Track(NewUploads(TrackedIds(old(trackedFiles)), uploads.value))
        && removeCalls == old(removeCalls) + Removals(trackedFiles, UploadIds(uploads.value))
    {
      if uploads.None? {
        return;
      }
      trackedFiles := TrackUploads(trackedFiles, uploads.value);
      var stale := StaleFiles(trackedFiles, uploads.value);
      removeCalls := removeCalls + stale;
    }
  }
}
