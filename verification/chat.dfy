/**
 * The Responses-API chat driver (streamlit_openai/chat.py): one turn of
 * conversation streamed in up to two passes, the function calls it runs between
 * them, the files it tracks, and the chat history it saves and reloads.
 *
 * The turn is specified by pure functions over a `ChatState`; the class `Chat`
 * below changes its fields step by step, as the source does, and each of its
 * methods is proved to land on the state those functions compute.
 */
module ResponsesChat {

  import opened Common
  import opened Strings
  import opened OrderedDicts
  import opened ResponsesTools
  import UploadTracking

  const DeveloperMessage: string :=
    "\n- Use GitHub-flavored Markdown in your response, including tables, images, URLs, code blocks, and lists."
    + "\n- Wrap all mathematical expressions and LaTeX terms in `$...$` for inline math and `$$...$$` for display math."
    + "\n- When a custom function is called with a file path as its input, you must use the local file path.\n"

  /** Suffixes copied into the code-interpreter container (".csv" is listed twice). */
  const CodeInterpreterExtensions: seq<string> := [
    ".c", ".cs", ".cpp", ".csv", ".doc", ".docx", ".html",
    ".java", ".json", ".md", ".pdf", ".php", ".pptx", ".py",
    ".rb", ".tex", ".txt", ".css", ".js", ".sh", ".ts", ".csv",
    ".jpeg", ".jpg", ".gif", ".pkl", ".png", ".tar", ".xlsx",
    ".xml", ".zip"]

  /** Suffixes also sent to the model as an image. */
  const VisionExtensions: seq<string> := [".png", ".jpeg", ".jpg", ".webp", ".gif"]

  /** Suffixes of annotated sandbox files that are fetched and shown inline. */
  const ImageSuffixes: seq<string> := [".png", ".jpg", ".jpeg"]

  /** One item of the pending `input` list. */
  datatype InputEntry =
    | Message(role: Role, content: string)                // {"role": role, "content": text}
    | InputText(text: string)                             // a user message with one input_text part
    | InputImage(fileId: string)                          // a user message with one input_image part
    | FunctionCallOutput(callId: string, output: string)  // {"type": "function_call_output", ...}

  datatype FunctionCall = FunctionCall(name: string, callId: string, arguments: string)

  datatype OutputItem = FunctionCallItem(call: FunctionCall) | OtherItem

  /** The streamed events the driver distinguishes; every other type is `OtherEvent`. */
  datatype Event =
    | Completed(responseId: string)                        // response.completed
    | TextDelta(delta: string)                             // response.output_text.delta
    | CodeDelta(delta: string)                             // response.code_interpreter_call_code.delta
    | OutputItemDone(item: OutputItem)                     // response.output_item.done
    | AnnotationAdded(fileId: string, filename: string)    // response.output_text.annotation.added
    | OtherEvent

  /** The arguments of one `responses.create` call (model, temperature and `stream` left out). */
  datatype Request = Request(
    input: seq<InputEntry>, instructions: string, tools: seq<Tool>, previousResponseId: Option<string>)

  /* ---------------------------------------------------------------------------
   * The two streaming passes
   * ------------------------------------------------------------------------- */

  /** What a pass has built so far: the new section's log, the response id, the calls. */
  datatype Pass = Pass(log: seq<ContainerOp>, previousResponseId: Option<string>, toolCalls: Dict<FunctionCall>)

  /**
   * An annotation naming a file the code interpreter wrote. When the file id occurs in
   * the filename the file is shown inline, provided it is a PNG or JPEG image (its bytes
   * are fetched with `retrieve`), and ignored otherwise; when it does not, the file id
   * is offered for download.
   */
  function AnnotationOps(fileId: string, filename: string, retrieve: string -> Bytes): seq<ContainerOp> {
    if Contains(filename, fileId) then
      if Suffix(filename) in ImageSuffixes then [Streamed(Image, Binary(retrieve(fileId)))] else []
    else [Streamed(Download, Chars(fileId))]
  }

  /** What one event of the first stream adds to the section's log. */
  function FirstOps(e: Event, retrieve: string -> Bytes): seq<ContainerOp> {
    match e
    case TextDelta(d) => [Streamed(Text, Chars(d)), LinksRewritten]
    case CodeDelta(d) => [Streamed(Code, Chars(d))]
    case AnnotationAdded(fileId, filename) => AnnotationOps(fileId, filename, retrieve)
    case _ => []
  }

  /** One event of the first stream. */
  function StepFirst(p: Pass, e: Event, retrieve: string -> Bytes): Pass {
    match e
    case Completed(id) => p.(previousResponseId := Some(id))
    case OutputItemDone(item) =>
      if item.FunctionCallItem? then p.(toolCalls := Put(p.toolCalls, item.call.name, item.call)) else p
    case _ => p.(log := p.log + FirstOps(e, retrieve))
  }

  function FirstPass(p: Pass, events: seq<Event>, retrieve: string -> Bytes): Pass
    decreases |events|
  {
    if events == [] then p
    else StepFirst(FirstPass(p, events[..|events| - 1], retrieve), events[|events| - 1], retrieve)
  }

  lemma {:induction false} FirstPassNext(p: Pass, events: seq<Event>, i: nat, retrieve: string -> Bytes)
    requires i < |events|
    ensures FirstPass(p, events[..i + 1], retrieve) == StepFirst(FirstPass(p, events[..i], retrieve), events[i], retrieve)
  {
    assert events[..i + 1][..i] == events[..i];
  }

  /** One event of the continuation stream: only completions and text deltas count. */
  function StepSecond(p: Pass, e: Event): Pass {
    match e
    case Completed(id) => p.(previousResponseId := Some(id))
    case TextDelta(d) => p.(log := p.log + [Streamed(Text, Chars(d))])
    case _ => p
  }

  function SecondPass(p: Pass, events: seq<Event>): Pass
    decreases |events|
  {
    if events == [] then p
    else StepSecond(SecondPass(p, events[..|events| - 1]), events[|events| - 1])
  }

  /* ---------------------------------------------------------------------------
   * Reference views of a stream, independent of how a pass is written
   * ------------------------------------------------------------------------- */

  /** The id of the last `response.completed` event, or `prior` when there is none. */
  function LastResponseId(events: seq<Event>, prior: Option<string>): Option<string>
    decreases |events|
  {
    if events == [] then prior
    else if events[|events| - 1].Completed? then Some(events[|events| - 1].responseId)
    else LastResponseId(events[..|events| - 1], prior)
  }

  /** The text deltas of a stream, in order. */
  function TextDeltas(events: seq<Event>): seq<Payload>
    decreases |events|
  {
    if events == [] then []
    else
      var e := events[|events| - 1];
      TextDeltas(events[..|events| - 1]) + (if e.TextDelta? then [Chars(e.delta)] else [])
  }

  /** The code deltas of a stream, in order. */
  function CodeDeltas(events: seq<Event>): seq<Payload>
    decreases |events|
  {
    if events == [] then []
    else
      var e := events[|events| - 1];
      CodeDeltas(events[..|events| - 1]) + (if e.CodeDelta? then [Chars(e.delta)] else [])
  }

  /** The ids of annotated files whose filename does not contain their id, in order. */
  function DownloadIds(events: seq<Event>): seq<Payload>
    decreases |events|
  {
    if events == [] then []
    else
      var e := events[|events| - 1];
      DownloadIds(events[..|events| - 1])
        + (if e.AnnotationAdded? && !Contains(e.filename, e.fileId) then [Chars(e.fileId)] else [])
  }

  /** The bytes of annotated PNG/JPEG files whose filename contains their id, in order. */
  function ImageBytes(events: seq<Event>, retrieve: string -> Bytes): seq<Payload>
    decreases |events|
  {
    if events == [] then []
    else
      var e := events[|events| - 1];
      ImageBytes(events[..|events| - 1], retrieve)
        + (if e.AnnotationAdded? && Contains(e.filename, e.fileId) && Suffix(e.filename) in ImageSuffixes
           then [Binary(retrieve(e.fileId))] else [])
  }

  /** Every text update in the log is immediately followed by the sandbox-link rewrite. */
  predicate RewriteFollowsText(log: seq<ContainerOp>) {
    forall i :: 0 <= i < |log| && log[i].Streamed? && log[i].category == Text ==>
      i + 1 < |log| && log[i + 1] == LinksRewritten
  }

  /** Without a `response.completed` event the response id stays the prior one. */
  lemma {:induction false} LastResponseIdWithoutCompletion(events: seq<Event>, prior: Option<string>)
    requires forall i :: 0 <= i < |events| ==> !events[i].Completed?
    ensures LastResponseId(events, prior) == prior
    decreases |events|
  {
    if events != [] {
      var n := |events| - 1;
      var front := events[..n];
      assert forall i :: 0 <= i < n ==> front[i] == events[i];
      LastResponseIdWithoutCompletion(front, prior);
    }
  }

  /** The response id is that of the last `response.completed` event. */
  lemma {:induction false} LastResponseIdIsLastCompletion(events: seq<Event>, prior: Option<string>, i: nat)
    requires i < |events| && events[i].Completed?
    requires forall j :: i < j < |events| ==> !events[j].Completed?
    ensures LastResponseId(events, prior) == Some(events[i].responseId)
    decreases |events|
  {
    var n := |events| - 1;
    if i < n {
      var front := events[..n];
      assert front[i] == events[i];
      assert forall j :: i < j < n ==> front[j] == events[j];
      LastResponseIdIsLastCompletion(front, prior, i);
    }
  }

  /** Everything the first pass appends to the section's log, event by event. */
  function FirstPassOps(events: seq<Event>, retrieve: string -> Bytes): seq<ContainerOp>
    decreases |events|
  {
    if events == [] then []
    else FirstPassOps(events[..|events| - 1], retrieve) + FirstOps(events[|events| - 1], retrieve)
  }

  /** The first pass only appends to the log, and sets the id of the last completion. */
  lemma {:induction false} FirstPassAppends(p: Pass, events: seq<Event>, retrieve: string -> Bytes)
    ensures FirstPass(p, events, retrieve).log == p.log + FirstPassOps(events, retrieve)
    ensures FirstPass(p, events, retrieve).previousResponseId == LastResponseId(events, p.previousResponseId)
    decreases |events|
  {
    if events != [] {
      var n := |events| - 1;
      var front := events[..n];
      var e := events[n];
      FirstPassAppends(p, front, retrieve);
      var q := FirstPass(p, front, retrieve);
      assert FirstPass(p, events, retrieve) == StepFirst(q, e, retrieve);
      assert FirstPassOps(events, retrieve) == FirstPassOps(front, retrieve) + FirstOps(e, retrieve);
      assert LastResponseId(events, p.previousResponseId) ==
        if e.Completed? then Some(e.responseId) else LastResponseId(front, p.previousResponseId);
      StepFirstAppends(q, e, retrieve);
    } else {
      assert p.log + [] == p.log;
    }
  }

  /** One event of the first stream appends its updates and records a completion's id. */
  lemma {:induction false} StepFirstAppends(q: Pass, e: Event, retrieve: string -> Bytes)
    ensures StepFirst(q, e, retrieve).log == q.log + FirstOps(e, retrieve)
    ensures StepFirst(q, e, retrieve).previousResponseId ==
      if e.Completed? then Some(e.responseId) else q.previousResponseId
  {
    if e.Completed? || e.OutputItemDone? {
      assert FirstOps(e, retrieve) == [];
      assert q.log + [] == q.log;
    }
  }

  /**
   * What the first pass streams into the new section: text updates are the text
   * deltas, code updates the code deltas, downloads and inline images follow the
   * annotation rule, each in stream order, and each text update is followed by the
   * link rewrite.
   */
  lemma {:induction false} FirstPassStreams(p: Pass, events: seq<Event>, retrieve: string -> Bytes)
    ensures var r := FirstPass(p, events, retrieve);
      && |p.log| <= |r.log| && r.log[..|p.log|] == p.log
      && Streams(r.log, Text) == Streams(p.log, Text) + TextDeltas(events)
      && Streams(r.log, Code) == Streams(p.log, Code) + CodeDeltas(events)
      && Streams(r.log, Download) == Streams(p.log, Download) + DownloadIds(events)
      && Streams(r.log, Image) == Streams(p.log, Image) + ImageBytes(events, retrieve)
      && (RewriteFollowsText(p.log) ==> RewriteFollowsText(r.log))
  {
    var ops := FirstPassOps(events, retrieve);
    FirstPassAppends(p, events, retrieve);
    StreamsAppend(p.log, ops, Text);
    StreamsAppend(p.log, ops, Code);
    StreamsAppend(p.log, ops, Download);
    StreamsAppend(p.log, ops, Image);
    FirstPassOpsStreams(events, retrieve);
    if RewriteFollowsText(p.log) {
      FirstPassOpsRewrite(p.log, events, retrieve);
    }
    assert (p.log + ops)[..|p.log|] == p.log;
  }

  lemma {:induction false} FirstPassOpsStreams(events: seq<Event>, retrieve: string -> Bytes)
    ensures Streams(FirstPassOps(events, retrieve), Text) == TextDeltas(events)
    ensures Streams(FirstPassOps(events, retrieve), Code) == CodeDeltas(events)
    ensures Streams(FirstPassOps(events, retrieve), Download) == DownloadIds(events)
    ensures Streams(FirstPassOps(events, retrieve), Image) == ImageBytes(events, retrieve)
    decreases |events|
  {
    if events != [] {
      var n := |events| - 1;
      var init := FirstPassOps(events[..n], retrieve);
      var ops := FirstOps(events[n], retrieve);
      FirstPassOpsStreams(events[..n], retrieve);
      FirstOpsStreams(events[n], retrieve);
      StreamsAppend(init, ops, Text);
      StreamsAppend(init, ops, Code);
      StreamsAppend(init, ops, Download);
      StreamsAppend(init, ops, Image);
    }
  }

  lemma {:induction false} FirstPassOpsRewrite(log: seq<ContainerOp>, events: seq<Event>, retrieve: string -> Bytes)
    requires RewriteFollowsText(log)
    ensures RewriteFollowsText(log + FirstPassOps(events, retrieve))
    decreases |events|
  {
    if events != [] {
      var n := |events| - 1;
      FirstPassOpsRewrite(log, events[..n], retrieve);
      RewriteFollowsAppend(log + FirstPassOps(events[..n], retrieve), events[n], retrieve);
      assert log + FirstPassOps(events, retrieve)
        == (log + FirstPassOps(events[..n], retrieve)) + FirstOps(events[n], retrieve);
    } else {
      assert log + [] == log;
    }
  }

  /** What one event adds, category by category. */
  lemma {:induction false} FirstOpsStreams(e: Event, retrieve: string -> Bytes)
    ensures Streams(FirstOps(e, retrieve), Text) == (if e.TextDelta? then [Chars(e.delta)] else [])
    ensures Streams(FirstOps(e, retrieve), Code) == (if e.CodeDelta? then [Chars(e.delta)] else [])
    ensures Streams(FirstOps(e, retrieve), Download) ==
      (if e.AnnotationAdded? && !Contains(e.filename, e.fileId) then [Chars(e.fileId)] else [])
    ensures Streams(FirstOps(e, retrieve), Image) ==
      (if e.AnnotationAdded? && Contains(e.filename, e.fileId) && Suffix(e.filename) in ImageSuffixes
       then [Binary(retrieve(e.fileId))] else [])
  {
    match e
    case TextDelta(d) =>
      var a, b := Streamed(Text, Chars(d)), LinksRewritten;
      assert FirstOps(e, retrieve) == [a] + [b];
      forall c: Category
        ensures Streams([a] + [b], c) == if c == Text then [Chars(d)] else []
      {
        StreamsAppend([a], [b], c);
        StreamsSingle(a, c);
        StreamsSingle(b, c);
      }
    case _ =>
  }

  lemma {:induction false} RewriteFollowsAppend(log: seq<ContainerOp>, e: Event, retrieve: string -> Bytes)
    requires RewriteFollowsText(log)
    ensures RewriteFollowsText(log + FirstOps(e, retrieve))
  {
    var r := log + FirstOps(e, retrieve);
    forall i | 0 <= i < |r| && r[i].Streamed? && r[i].category == Text
      ensures i + 1 < |r| && r[i + 1] == LinksRewritten
    {
      if i >= |log| {
        assert e.TextDelta? && i == |log|;
      }
    }
  }

  /** The text updates a continuation stream appends, one per text delta. */
  function TextUpdates(events: seq<Event>): seq<ContainerOp>
    decreases |events|
  {
    if events == [] then []
    else
      var e := events[|events| - 1];
      TextUpdates(events[..|events| - 1]) + (if e.TextDelta? then [Streamed(Text, Chars(e.delta))] else [])
  }

  /** The continuation stream appends its text updates and sets the response id, nothing else. */
  lemma {:induction false} SecondPassAppends(p: Pass, events: seq<Event>)
    ensures SecondPass(p, events) ==
      Pass(p.log + TextUpdates(events), LastResponseId(events, p.previousResponseId), p.toolCalls)
    decreases |events|
  {
    if events != [] {
      SecondPassAppends(p, events[..|events| - 1]);
    } else {
      assert p.log + [] == p.log;
    }
  }

  /** Only text updates, one per text delta and in order; in particular no link rewrite. */
  lemma {:induction false} TextUpdatesAreText(events: seq<Event>)
    ensures forall i :: 0 <= i < |TextUpdates(events)| ==>
      TextUpdates(events)[i].Streamed? && TextUpdates(events)[i].category == Text
    ensures Streams(TextUpdates(events), Text) == TextDeltas(events)
    ensures forall c: Category :: c != Text ==> Streams(TextUpdates(events), c) == []
    decreases |events|
  {
    if events != [] {
      var n := |events| - 1;
      var e := events[n];
      TextUpdatesAreText(events[..n]);
      var init := TextUpdates(events[..n]);
      if e.TextDelta? {
        var op := Streamed(Text, Chars(e.delta));
        forall c: Category ensures Streams(init + [op], c) == Streams(init, c) + Streams([op], c) {
          StreamsAppend(init, [op], c);
          StreamsSingle(op, c);
        }
      } else {
        assert TextUpdates(events) == init;
      }
    }
  }

  /**
   * The continuation stream only adds text updates, without the link rewrite, and
   * sets the response id; code deltas, annotations and function calls in it are
   * dropped, so the collected calls stay as they were.
   */
  lemma {:induction false} SecondPassOnlyText(p: Pass, events: seq<Event>)
    ensures var r := SecondPass(p, events);
      && r.toolCalls == p.toolCalls
      && r.previousResponseId == LastResponseId(events, p.previousResponseId)
      && |p.log| <= |r.log| && r.log[..|p.log|] == p.log
      && (forall i :: |p.log| <= i < |r.log| ==> r.log[i].Streamed? && r.log[i].category == Text)
      && Streams(r.log, Text) == Streams(p.log, Text) + TextDeltas(events)
  {
    SecondPassAppends(p, events);
    TextUpdatesAreText(events);
    var ups := TextUpdates(events);
    StreamsAppend(p.log, ups, Text);
    assert (p.log + ups)[..|p.log|] == p.log;
    assert forall i :: |p.log| <= i < |p.log + ups| ==> (p.log + ups)[i] == ups[i - |p.log|];
  }

  /* ---------------------------------------------------------------------------
   * Function calls
   * ------------------------------------------------------------------------- */

  /** `e` is a finished function-call item for the function called `name`. */
  predicate CallNamed(e: Event, name: string) {
    e.OutputItemDone? && e.item.FunctionCallItem? && e.item.call.name == name
  }

  /** The dictionary of calls a stream leaves behind, starting from `d`. */
  function CollectCalls(d: Dict<FunctionCall>, events: seq<Event>): Dict<FunctionCall>
    decreases |events|
  {
    if events == [] then d
    else
      var before := CollectCalls(d, events[..|events| - 1]);
      var e := events[|events| - 1];
      if e.OutputItemDone? && e.item.FunctionCallItem? then Put(before, e.item.call.name, e.item.call) else before
  }

  lemma {:induction false} FirstPassCollects(p: Pass, events: seq<Event>, retrieve: string -> Bytes)
    ensures FirstPass(p, events, retrieve).toolCalls == CollectCalls(p.toolCalls, events)
    decreases |events|
  {
    if events != [] {
      FirstPassCollects(p, events[..|events| - 1], retrieve);
    }
  }

  /** A name is recorded exactly when it was recorded before or is called; none twice. */
  /** Some event of the stream is a finished call of `name`. */
  predicate Called(events: seq<Event>, name: string) {
    exists i :: 0 <= i < |events| && CallNamed(events[i], name)
  }

  lemma {:induction false} CalledStep(events: seq<Event>, name: string)
    requires events != []
    ensures Called(events, name) <==> Called(events[..|events| - 1], name) || CallNamed(events[|events| - 1], name)
  {
    var n := |events| - 1;
    var front := events[..n];
    if Called(events, name) {
      var i :| 0 <= i < |events| && CallNamed(events[i], name);
      if i < n {
        assert front[i] == events[i];
      }
    }
    if Called(front, name) {
      var i :| 0 <= i < n && CallNamed(front[i], name);
      assert events[i] == front[i];
    }
  }

  lemma {:induction false} CollectCallsKeys(d: Dict<FunctionCall>, events: seq<Event>)
    ensures var calls := CollectCalls(d, events);
      && (forall name :: name in Keys(calls) <==> name in Keys(d) || Called(events, name))
      && (OrderedDicts.Distinct(Keys(d)) ==> OrderedDicts.Distinct(Keys(calls)))
    decreases |events|
  {
    if events != [] {
      var n := |events| - 1;
      CollectCallsKeys(d, events[..n]);
      CollectCallsKeysStep(d, events);
      forall name {
        CalledStep(events, name);
      }
    }
  }

  /** The last event adds its call's name, if any, and keeps the keys distinct. */
  lemma {:induction false} CollectCallsKeysStep(d: Dict<FunctionCall>, events: seq<Event>)
    requires events != []
    ensures var n := |events| - 1;
      var before := CollectCalls(d, events[..n]);
      var calls := CollectCalls(d, events);
      && (forall name :: name in Keys(calls) <==> name in Keys(before) || CallNamed(events[n], name))
      && (OrderedDicts.Distinct(Keys(before)) ==> OrderedDicts.Distinct(Keys(calls)))
  {
    var n := |events| - 1;
    var before := CollectCalls(d, events[..n]);
    var e := events[n];
    if e.OutputItemDone? && e.item.FunctionCallItem? {
      assert CollectCalls(d, events) == Put(before, e.item.call.name, e.item.call);
      if OrderedDicts.Distinct(Keys(before)) {
        OrderedDicts.PutKeepsDistinct(before, e.item.call.name, e.item.call);
      }
    } else {
      assert CollectCalls(d, events) == before;
    }
  }

  /** The record of a called name holds the last call of that name. */
  lemma {:induction false} CollectCallsLastWins(d: Dict<FunctionCall>, events: seq<Event>, name: string, i: nat)
    requires i < |events| && CallNamed(events[i], name)
    requires forall j :: i < j < |events| ==> !CallNamed(events[j], name)
    ensures Get(CollectCalls(d, events), name) == Some(events[i].item.call)
    decreases |events|
  {
    var n := |events| - 1;
    if i < n {
      var init := events[..n];
      assert init[i] == events[i];
      forall j | i < j < |init| ensures !CallNamed(init[j], name) {
        assert init[j] == events[j];
      }
      CollectCallsLastWins(d, init, name, i);
      assert !CallNamed(events[n], name);
      KeepsUncalled(d, events, name);
    } else {
      assert i == n;
      CollectCallsLast(d, events);
    }
  }

  /** The last event, when it is a call, decides its name's record. */
  lemma {:induction false} CollectCallsLast(d: Dict<FunctionCall>, events: seq<Event>)
    requires events != [] && events[|events| - 1].OutputItemDone? && events[|events| - 1].item.FunctionCallItem?
    ensures var call := events[|events| - 1].item.call; Get(CollectCalls(d, events), call.name) == Some(call)
  {
  }

  /** An event that is not a call of `name` leaves that name's record alone. */
  lemma {:induction false} KeepsUncalled(d: Dict<FunctionCall>, events: seq<Event>, name: string)
    requires events != [] && !CallNamed(events[|events| - 1], name)
    ensures Get(CollectCalls(d, events), name) == Get(CollectCalls(d, events[..|events| - 1]), name)
  {
  }

  /** A name never called keeps what it had. */
  lemma {:induction false} CollectCallsUncalled(d: Dict<FunctionCall>, events: seq<Event>, name: string)
    requires forall i :: 0 <= i < |events| ==> !CallNamed(events[i], name)
    ensures Get(CollectCalls(d, events), name) == Get(d, name)
    decreases |events|
  {
    if events != [] {
      var n := |events| - 1;
      var front := events[..n];
      assert forall i :: 0 <= i < n ==> front[i] == events[i];
      CollectCallsUncalled(d, front, name);
      KeepsUncalled(d, events, name);
    }
  }

  /** Outcome of running the collected calls: the outputs produced, and the error that stopped the run. */
  datatype ToolRun = ToolRun(outputs: seq<InputEntry>, failure: Option<Error>)

  /**
   * For each recorded name, in dictionary order, the first function with that name is
   * looked up and its handler run on the call's arguments; the first lookup that fails
   * stops the run with its error.
   */
  function CallTools(functions: Option<seq<CustomFunction>>, calls: Dict<FunctionCall>): ToolRun
    decreases |calls|
  {
    if calls == [] then ToolRun([], None)
    else
      var earlier := CallTools(functions, calls[..|calls| - 1]);
      var (name, call) := calls[|calls| - 1];
      if earlier.failure.Some? then earlier
      else match LookupFunction(functions, name)
        case Err(e) => ToolRun(earlier.outputs, Some(e))
        case Ok(f) => ToolRun(earlier.outputs + [FunctionCallOutput(call.callId, f.handler(call.arguments))], None)
  }

  /**
   * One `function_call_output` per recorded name, in dictionary order, carrying the
   * call's id and what the first function of that name returns; a run stops at the
   * first name no function has, with that lookup's error.
   */
  lemma {:induction false} CallToolsOutputs(functions: Option<seq<CustomFunction>>, calls: Dict<FunctionCall>)
    ensures var run := CallTools(functions, calls);
      && OutputsAnswer(functions, calls, run.outputs)
      && (run.failure.None? ==> |run.outputs| == |calls|)
      && (run.failure.Some? ==>
           |run.outputs| < |calls| && LookupFunction(functions, calls[|run.outputs|].0) == Err(run.failure.value))
    decreases |calls|
  {
    if calls != [] {
      var n := |calls| - 1;
      var earlier := CallTools(functions, calls[..n]);
      CallToolsOutputs(functions, calls[..n]);
      OutputsAnswerPrefix(functions, calls, earlier.outputs);
      if earlier.failure.None? && LookupFunction(functions, calls[n].0).Ok? {
        var f := LookupFunction(functions, calls[n].0).value;
        OutputsAnswerNext(functions, calls, earlier.outputs);
        assert CallTools(functions, calls).outputs
          == earlier.outputs + [FunctionCallOutput(calls[n].1.callId, f.handler(calls[n].1.arguments))];
      }
    }
  }

  /** `outputs` answers the first `|outputs|` calls, each with the first function of its name. */
  predicate OutputsAnswer(functions: Option<seq<CustomFunction>>, calls: Dict<FunctionCall>, outputs: seq<InputEntry>) {
    && |outputs| <= |calls|
    && forall j :: 0 <= j < |outputs| ==>
         && LookupFunction(functions, calls[j].0).Ok?
         && outputs[j] == FunctionCallOutput(
              calls[j].1.callId, LookupFunction(functions, calls[j].0).value.handler(calls[j].1.arguments))
  }

  /** Answers to a prefix of the calls are answers to all of them. */
  lemma {:induction false} OutputsAnswerPrefix(
    functions: Option<seq<CustomFunction>>, calls: Dict<FunctionCall>, outputs: seq<InputEntry>)
    requires calls != [] && OutputsAnswer(functions, calls[..|calls| - 1], outputs)
    ensures OutputsAnswer(functions, calls, outputs)
  {
    var n := |calls| - 1;
    forall j | 0 <= j < |outputs|
      ensures LookupFunction(functions, calls[j].0).Ok?
      ensures outputs[j] == FunctionCallOutput(
        calls[j].1.callId, LookupFunction(functions, calls[j].0).value.handler(calls[j].1.arguments))
    {
      assert calls[..n][j] == calls[j];
    }
  }

  /** Answering the next call keeps `OutputsAnswer`. */
  lemma {:induction false} OutputsAnswerNext(
    functions: Option<seq<CustomFunction>>, calls: Dict<FunctionCall>, outputs: seq<InputEntry>)
    requires OutputsAnswer(functions, calls, outputs) && |outputs| < |calls|
    requires LookupFunction(functions, calls[|outputs|].0).Ok?
    ensures var k := |outputs|;
      OutputsAnswer(functions, calls, outputs + [FunctionCallOutput(
        calls[k].1.callId, LookupFunction(functions, calls[k].0).value.handler(calls[k].1.arguments))])
  {
  }

  /** Once a lookup has failed, later calls change nothing. */
  lemma {:induction false} CallToolsStops(functions: Option<seq<CustomFunction>>, calls: Dict<FunctionCall>, i: nat)
    requires i <= |calls| && CallTools(functions, calls[..i]).failure.Some?
    ensures CallTools(functions, calls) == CallTools(functions, calls[..i])
    decreases |calls|
  {
    if i < |calls| {
      var n := |calls| - 1;
      assert calls[..n][..i] == calls[..i];
      CallToolsStops(functions, calls[..n], i);
      var earlier := CallTools(functions, calls[..n]);
      assert earlier.failure.Some?;
      assert CallTools(functions, calls) == earlier;
    } else {
      assert calls[..i] == calls;
    }
  }

  /* ---------------------------------------------------------------------------
   * One turn: `respond`
   * ------------------------------------------------------------------------- */

  /** The driver's fields that a turn reads or writes, and the requests it has issued. */
  datatype ChatState = ChatState(
    input: seq<InputEntry>, tools: seq<Tool>, sections: seq<Container>,
    previousResponseId: Option<string>, requests: seq<Request>)

  datatype Turn = Turn(state: ChatState, outcome: Outcome)

  /**
   * `respond(prompt)`: the prompt joins the pending input, which is sent and then
   * emptied; a new assistant section receives the first stream. When that stream
   * recorded function calls they are run, their outputs sent in a second request
   * (input emptied again) whose stream continues the same section. A failing lookup
   * ends the turn with its error after the outputs produced so far.
   */
  function RespondTurn(
    s: ChatState, instructions: string, functions: Option<seq<CustomFunction>>, prompt: string,
    first: seq<Event>, second: seq<Event>, retrieve: string -> Bytes): Turn
  {
    var request := Request(s.input + [Message(User, prompt)], instructions, s.tools, s.previousResponseId);
    var p1 := FirstPass(Pass([], s.previousResponseId, []), first, retrieve);
    if p1.toolCalls == [] then
      Turn(ChatState([], s.tools, s.sections + [Container(Assistant, [], p1.log)], p1.previousResponseId,
                     s.requests + [request]), Done)
    else
      var run := CallTools(functions, p1.toolCalls);
      if run.failure.Some? then
        Turn(ChatState(run.outputs, s.tools, s.sections + [Container(Assistant, [], p1.log)], p1.previousResponseId,
                       s.requests + [request]), Raised(run.failure.value))
      else
        var p2 := SecondPass(p1, second);
        Turn(ChatState([], s.tools, s.sections + [Container(Assistant, [], p2.log)], p2.previousResponseId,
                       s.requests + [request, Request(run.outputs, instructions, s.tools, p1.previousResponseId)]),
             Done)
  }

  /** Whether the turn issued the second request. */
  predicate Resumed(s: ChatState, t: Turn) {
    |t.state.requests| == |s.requests| + 2
  }

  /**
   * A turn opens exactly one new, empty assistant section and no other, leaves the
   * tools alone, and sends the old pending input followed by the prompt.
   */
  lemma {:induction false} RespondOpensOneSection(
    s: ChatState, instructions: string, functions: Option<seq<CustomFunction>>, prompt: string,
    first: seq<Event>, second: seq<Event>, retrieve: string -> Bytes)
    ensures var t := RespondTurn(s, instructions, functions, prompt, first, second, retrieve);
      && |t.state.sections| == |s.sections| + 1 && t.state.sections[..|s.sections|] == s.sections
      && t.state.sections[|s.sections|].role == Assistant && t.state.sections[|s.sections|].blocks == []
      && t.state.tools == s.tools
      && |s.requests| < |t.state.requests| <= |s.requests| + 2 && t.state.requests[..|s.requests|] == s.requests
      && t.state.requests[|s.requests|] ==
           Request(s.input + [Message(User, prompt)], instructions, s.tools, s.previousResponseId)
  {
    var t := RespondTurn(s, instructions, functions, prompt, first, second, retrieve);
    assert t.state.sections[..|s.sections|] == s.sections;
    assert t.state.requests[..|s.requests|] == s.requests;
  }

  /**
   * The second request is issued exactly when the first stream recorded a function
   * call and every recorded name found its function; it carries the outputs and the
   * response id of the first stream. A failed lookup ends the turn with that error,
   * leaving the outputs produced so far pending; otherwise the input ends empty.
   */
  lemma {:induction false} RespondRunsTools(
    s: ChatState, instructions: string, functions: Option<seq<CustomFunction>>, prompt: string,
    first: seq<Event>, second: seq<Event>, retrieve: string -> Bytes)
    ensures var t := RespondTurn(s, instructions, functions, prompt, first, second, retrieve);
      var calls := CollectCalls([], first);
      var run := CallTools(functions, calls);
      && (Resumed(s, t) <==> calls != [] && run.failure.None?)
      && (t.outcome.Raised? <==> calls != [] && run.failure.Some?)
      && (t.outcome.Done? ==> t.state.input == [])
      && (t.outcome.Raised? ==> t.outcome.error == run.failure.value && t.state.input == run.outputs)
      && (Resumed(s, t) ==>
            t.state.requests[|s.requests| + 1] ==
              Request(run.outputs, instructions, s.tools, LastResponseId(first, s.previousResponseId)))
  {
    var start := Pass([], s.previousResponseId, []);
    FirstPassAppends(start, first, retrieve);
    FirstPassCollects(start, first, retrieve);
  }

  /** The response id ends as that of the last completion of the streams read, if any. */
  lemma {:induction false} RespondResponseId(
    s: ChatState, instructions: string, functions: Option<seq<CustomFunction>>, prompt: string,
    first: seq<Event>, second: seq<Event>, retrieve: string -> Bytes)
    ensures var t := RespondTurn(s, instructions, functions, prompt, first, second, retrieve);
      t.state.previousResponseId ==
        if Resumed(s, t) then LastResponseId(second, LastResponseId(first, s.previousResponseId))
        else LastResponseId(first, s.previousResponseId)
  {
    var start := Pass([], s.previousResponseId, []);
    FirstPassAppends(start, first, retrieve);
    var p1 := FirstPass(start, first, retrieve);
    SecondPassAppends(p1, second);
  }

  /**
   * The new section receives the text deltas of the first stream and, when the turn
   * resumed, those of the second; code, downloads and images come from the first
   * stream only.
   */
  lemma {:induction false} RespondStreams(
    s: ChatState, instructions: string, functions: Option<seq<CustomFunction>>, prompt: string,
    first: seq<Event>, second: seq<Event>, retrieve: string -> Bytes)
    ensures var t := RespondTurn(s, instructions, functions, prompt, first, second, retrieve);
      && |t.state.sections| == |s.sections| + 1
      && var log := t.state.sections[|s.sections|].log;
      && Streams(log, Text) == TextDeltas(first) + (if Resumed(s, t) then TextDeltas(second) else [])
      && Streams(log, Code) == CodeDeltas(first)
      && Streams(log, Download) == DownloadIds(first)
      && Streams(log, Image) == ImageBytes(first, retrieve)
  {
    RespondLog(s, instructions, functions, prompt, first, second, retrieve);
    var t := RespondTurn(s, instructions, functions, prompt, first, second, retrieve);
    PassesStream(s.previousResponseId, first, second, retrieve, Resumed(s, t));
  }

  lemma {:induction false} PassesStream(id: Option<string>, first: seq<Event>, second: seq<Event>, retrieve: string -> Bytes, resumed: bool)
    ensures var p1 := FirstPass(Pass([], id, []), first, retrieve);
      var log := if resumed then SecondPass(p1, second).log else p1.log;
      && Streams(log, Text) == TextDeltas(first) + (if resumed then TextDeltas(second) else [])
      && Streams(log, Code) == CodeDeltas(first)
      && Streams(log, Download) == DownloadIds(first)
      && Streams(log, Image) == ImageBytes(first, retrieve)
  {
    var start := Pass([], id, []);
    var p1 := FirstPass(start, first, retrieve);
    FirstPassStreams(start, first, retrieve);
    assert Streams(p1.log, Text) == TextDeltas(first) by { assert [] + TextDeltas(first) == TextDeltas(first); }
    assert Streams(p1.log, Code) == CodeDeltas(first) by { assert [] + CodeDeltas(first) == CodeDeltas(first); }
    assert Streams(p1.log, Download) == DownloadIds(first) by { assert [] + DownloadIds(first) == DownloadIds(first); }
    assert Streams(p1.log, Image) == ImageBytes(first, retrieve) by {
      assert [] + ImageBytes(first, retrieve) == ImageBytes(first, retrieve);
    }
    if resumed {
      SecondPassAppends(p1, second);
      TextUpdatesAreText(second);
      var ups := TextUpdates(second);
      assert SecondPass(p1, second).log == p1.log + ups;
      StreamsAppend(p1.log, ups, Text);
      StreamsAppend(p1.log, ups, Code);
      StreamsAppend(p1.log, ups, Download);
      StreamsAppend(p1.log, ups, Image);
      assert Streams(ups, Code) == [] && Streams(ups, Download) == [] && Streams(ups, Image) == [];
      assert Streams(p1.log, Code) + [] == Streams(p1.log, Code);
      assert Streams(p1.log, Download) + [] == Streams(p1.log, Download);
      assert Streams(p1.log, Image) + [] == Streams(p1.log, Image);
    } else {
      assert TextDeltas(first) + [] == TextDeltas(first);
    }
  }

  /** The new section's log is that of the first pass, continued by the second when resumed. */
  lemma {:induction false} RespondLog(
    s: ChatState, instructions: string, functions: Option<seq<CustomFunction>>, prompt: string,
    first: seq<Event>, second: seq<Event>, retrieve: string -> Bytes)
    ensures var t := RespondTurn(s, instructions, functions, prompt, first, second, retrieve);
      var p1 := FirstPass(Pass([], s.previousResponseId, []), first, retrieve);
      && |t.state.sections| == |s.sections| + 1
      && t.state.sections[|s.sections|].log == if Resumed(s, t) then SecondPass(p1, second).log else p1.log
  {
  }

  /* ---------------------------------------------------------------------------
   * The tool list built at construction
   * ------------------------------------------------------------------------- */

  /** One `function` tool per custom function, in order. */
  function FunctionTools(functions: seq<CustomFunction>): seq<Tool> {
    seq(|functions|, j requires 0 <= j < |functions| => Function(functions[j].spec))
  }

  /**
   * The code interpreter (when a container was created for it), then the custom
   * functions in order, then a `file_search` tool over the given vector stores.
   */
  function InitialTools(
    containerId: Option<string>, functions: Option<seq<CustomFunction>>, vectorStoreIds: Option<seq<string>>): seq<Tool>
  {
    (if containerId.Some? then [CodeInterpreter(containerId.value)] else [])
    + (if functions.Some? then FunctionTools(functions.value) else [])
    + (if vectorStoreIds.Some? then [FileSearch(vectorStoreIds.value)] else [])
  }

  /**
   * The tool list puts the code interpreter first when there is one and the file
   * search last when there is one, with one tool per custom function in between, in
   * the order given; it holds at most one `file_search` tool.
   */
  lemma {:induction false} InitialToolsOrder(
    containerId: Option<string>, functions: Option<seq<CustomFunction>>, vectorStoreIds: Option<seq<string>>)
    ensures var r := InitialTools(containerId, functions, vectorStoreIds);
      var ci := if containerId.Some? then 1 else 0;
      var fs := if functions.Some? then |functions.value| else 0;
      && |r| == ci + fs + (if vectorStoreIds.Some? then 1 else 0)
      && (containerId.Some? ==> r[0] == CodeInterpreter(containerId.value))
      && (forall j :: 0 <= j < fs ==> r[ci + j] == Function(functions.value[j].spec))
      && (vectorStoreIds.Some? ==> r[|r| - 1] == FileSearch(vectorStoreIds.value))
      && (FirstFileSearch(r) >= 0 <==> vectorStoreIds.Some?)
      && FileSearchCount(r) <= 1
  {
    InitialToolsShape(containerId, functions, vectorStoreIds);
    if functions.Some? {
      InitialToolsFunctions(containerId, functions, vectorStoreIds);
    }
    InitialToolsOneSearch(containerId, functions, vectorStoreIds);
  }

  lemma {:induction false} InitialToolsShape(
    containerId: Option<string>, functions: Option<seq<CustomFunction>>, vectorStoreIds: Option<seq<string>>)
    ensures var r := InitialTools(containerId, functions, vectorStoreIds);
      var ci := if containerId.Some? then 1 else 0;
      var fs := if functions.Some? then |functions.value| else 0;
      && |r| == ci + fs + (if vectorStoreIds.Some? then 1 else 0)
      && (containerId.Some? ==> r[0] == CodeInterpreter(containerId.value))
      && (vectorStoreIds.Some? ==> r[|r| - 1] == FileSearch(vectorStoreIds.value))
  {
    var head := if containerId.Some? then [CodeInterpreter(containerId.value)] else [];
    var fnTools := if functions.Some? then FunctionTools(functions.value) else [];
    var tail := if vectorStoreIds.Some? then [FileSearch(vectorStoreIds.value)] else [];
    assert InitialTools(containerId, functions, vectorStoreIds) == head + fnTools + tail;
    ThreeParts(head, fnTools, tail);
  }

  lemma {:induction false} InitialToolsFunctions(
    containerId: Option<string>, functions: Option<seq<CustomFunction>>, vectorStoreIds: Option<seq<string>>)
    requires functions.Some?
    ensures var r := InitialTools(containerId, functions, vectorStoreIds);
      var ci := if containerId.Some? then 1 else 0;
      forall j :: 0 <= j < |functions.value| ==> r[ci + j] == Function(functions.value[j].spec)
  {
    var r := InitialTools(containerId, functions, vectorStoreIds);
    var ci := if containerId.Some? then 1 else 0;
    var fnTools := FunctionTools(functions.value);
    var tail := if vectorStoreIds.Some? then [FileSearch(vectorStoreIds.value)] else [];
    if containerId.Some? {
      FunctionsAt([CodeInterpreter(containerId.value)], fnTools, tail, functions.value);
    } else {
      FunctionsAt([], fnTools, tail, functions.value);
    }
  }

  /** The function tools sit after `head`, one per function and in order. */
  lemma {:induction false} FunctionsAt(head: seq<Tool>, fnTools: seq<Tool>, tail: seq<Tool>, fs: seq<CustomFunction>)
    requires fnTools == FunctionTools(fs)
    ensures forall j :: 0 <= j < |fs| ==> (head + fnTools + tail)[|head| + j] == Function(fs[j].spec)
  {
    forall j | 0 <= j < |fs| ensures (head + fnTools + tail)[|head| + j] == Function(fs[j].spec) {
      assert (head + fnTools + tail)[|head| + j] == fnTools[j];
    }
  }

  /** Where the items of three concatenated lists end up. */
  lemma {:induction false} ThreeParts(head: seq<Tool>, middle: seq<Tool>, tail: seq<Tool>)
    ensures var r := head + middle + tail;
      && |r| == |head| + |middle| + |tail|
      && (|head| > 0 ==> r[0] == head[0])
      && (|tail| > 0 ==> r[|r| - 1] == tail[|tail| - 1])
  {
  }

  lemma {:induction false} InitialToolsOneSearch(
    containerId: Option<string>, functions: Option<seq<CustomFunction>>, vectorStoreIds: Option<seq<string>>)
    ensures var r := InitialTools(containerId, functions, vectorStoreIds);
      && (FirstFileSearch(r) >= 0 <==> vectorStoreIds.Some?)
      && FileSearchCount(r) <= 1
  {
    var front := (if containerId.Some? then [CodeInterpreter(containerId.value)] else [])
      + (if functions.Some? then FunctionTools(functions.value) else []);
    FrontHasNoSearch(containerId, functions);
    if vectorStoreIds.Some? {
      assert InitialTools(containerId, functions, vectorStoreIds) == front + [FileSearch(vectorStoreIds.value)];
      SearchAppended(front, vectorStoreIds.value);
    } else {
      assert InitialTools(containerId, functions, vectorStoreIds) == front;
    }
  }

  /** Before the `file_search` tool there is none. */
  lemma {:induction false} FrontHasNoSearch(containerId: Option<string>, functions: Option<seq<CustomFunction>>)
    ensures var front := (if containerId.Some? then [CodeInterpreter(containerId.value)] else [])
      + (if functions.Some? then FunctionTools(functions.value) else []);
      && FirstFileSearch(front) < 0 && FileSearchCount(front) == 0
  {
    var head := if containerId.Some? then [CodeInterpreter(containerId.value)] else [];
    var fnTools := if functions.Some? then FunctionTools(functions.value) else [];
    var front := head + fnTools;
    forall j | 0 <= j < |front| ensures !front[j].FileSearch? {
      if j < |head| {
        assert front[j] == head[j];
      } else {
        assert front[j] == fnTools[j - |head|];
      }
    }
    NoFileSearchCount(front);
  }

  /** A `file_search` tool appended to a list without one is the first and only one. */
  lemma {:induction false} SearchAppended(front: seq<Tool>, ids: seq<string>)
    requires FirstFileSearch(front) < 0 && FileSearchCount(front) == 0
    ensures FirstFileSearch(front + [FileSearch(ids)]) == |front|
    ensures FileSearchCount(front + [FileSearch(ids)]) == 1
  {
    var r := front + [FileSearch(ids)];
    assert r[..|front|] == front;
  }

  /* ---------------------------------------------------------------------------
   * Tracked files
   * ------------------------------------------------------------------------- */

  /** What `TrackedFile` is given: a local path, an uploaded file, or anything else. */
  datatype FileSource = LocalPath(path: string) | Uploaded(upload: Upload) | Unsupported

  /**
   * The ids the remote service hands back while a file is tracked: the files created
   * for the code interpreter, for file search and for vision, and the vector store.
   */
  datatype RemoteIds = RemoteIds(codeInterpreterFile: string, searchFile: string, vectorStore: string, visionFile: string)

  /**
   * What tracking needs from outside the program: `Path(p).resolve()`, and the ids the
   * service hands to the `k`-th `TrackedFile` the chat creates, `remote(k)`; every
   * `TrackedFile` call creates files and a vector store of its own.
   */
  datatype Env = Env(resolve: string -> string, remote: nat -> RemoteIds)

  /** The `data` dictionary: its keys `code_interpreter`, `file_search` and `vision`. */
  datatype FileData = FileData(
    codeInterpreter: Option<string>, fileSearch: Option<(string, string)>, vision: Option<string>)

  datatype TrackedFile = TrackedFile(source: FileSource, filePath: string, data: FileData)

  /** `os.path.join(dir, name)`: an absolute `name` replaces the directory. */
  function JoinPath(dir: string, name: string): string {
    if StartsWith(name, "/") then name
    else if dir == [] || EndsWith(dir, "/") then dir + name
    else dir + "/" + name
  }

  /** Where the file lives: the resolved path, or the upload's name in the temporary directory. */
  function FilePath(source: FileSource, tempDir: string, resolve: string -> string): string
    requires !source.Unsupported?
  {
    if source.LocalPath? then resolve(source.path) else JoinPath(tempDir, source.upload.name)
  }

  function Announcement(path: string): string {
    "File locally available at: " + path
  }

  const UnsupportedSource: string :=
    "uploaded_file must be an instance of UploadedFile or a string representing the file path."

  /** What tracking one file leaves behind. */
  datatype Tracked = Tracked(input: seq<InputEntry>, tools: seq<Tool>, file: TrackedFile)

  /**
   * `TrackedFile(chat, source)`: anything but a path or an upload is refused; otherwise
   * the file is announced, then routed by its suffix to the code interpreter, to file
   * search (its vector store joins the `file_search` tool) and to vision (one image
   * entry follows the announcement).
   */
  function TrackFile(
    input: seq<InputEntry>, tools: seq<Tool>, source: FileSource, tempDir: string,
    resolve: string -> string, ids: RemoteIds): Result<Tracked>
  {
    if source.Unsupported? then Err(ValueError(UnsupportedSource))
    else
      var path := FilePath(source, tempDir, resolve);
      var suffix := Suffix(path);
      var data := FileData(
        if suffix in CodeInterpreterExtensions then Some(ids.codeInterpreterFile) else None,
        if suffix in FileSearchExtensions then Some((ids.searchFile, ids.vectorStore)) else None,
        if suffix in VisionExtensions then Some(ids.visionFile) else None);
      Ok(Tracked(
        input + [InputText(Announcement(path))] + (if suffix in VisionExtensions then [InputImage(ids.visionFile)] else []),
        if suffix in FileSearchExtensions then MergeFileSearch(tools, ids.vectorStore) else tools,
        TrackedFile(source, path, data)))
  }

  /** The pieces `TrackedFile.__init__` builds one by one make up the record `TrackFile` returns. */
  lemma {:induction false} TrackFileOk(
    input: seq<InputEntry>, tools: seq<Tool>, source: FileSource, tempDir: string,
    resolve: string -> string, ids: RemoteIds,
    path: string, toInterpreter: bool, toSearch: bool, toVision: bool,
    newInput: seq<InputEntry>, newTools: seq<Tool>, data: FileData)
    requires !source.Unsupported?
    requires path == if source.LocalPath? then resolve(source.path) else JoinPath(tempDir, source.upload.name)
    requires toInterpreter == (Suffix(path) in CodeInterpreterExtensions)
    requires toSearch == (Suffix(path) in FileSearchExtensions)
    requires toVision == (Suffix(path) in VisionExtensions)
    requires
      && newInput == input + [InputText(Announcement(path))] + (if toVision then [InputImage(ids.visionFile)] else [])
      && newTools == (if toSearch then MergeFileSearch(tools, ids.vectorStore) else tools)
      && data == FileData(
        if toInterpreter then Some(ids.codeInterpreterFile) else None,
        if toSearch then Some((ids.searchFile, ids.vectorStore)) else None,
        if toVision then Some(ids.visionFile) else None)
    ensures TrackFile(input, tools, source, tempDir, resolve, ids) == Ok(Tracked(newInput, newTools, TrackedFile(source, path, data)))
  {
  }

  /**
   * Tracking a file appends its announcement and, exactly when it was routed to
   * vision, the image entry holding the vision file id. It changes the tools only
   * when the file was routed to file search, in which case the file's vector store is
   * in the first `file_search` tool and no second such tool appears.
   */
  lemma {:induction false} TrackFileRoutes(
    input: seq<InputEntry>, tools: seq<Tool>, source: FileSource, tempDir: string,
    resolve: string -> string, ids: RemoteIds)
    ensures var r := TrackFile(input, tools, source, tempDir, resolve, ids);
      && (r.Err? <==> source.Unsupported?)
      && (r.Err? ==> r.error == ValueError(UnsupportedSource))
      && (r.Ok? ==>
        var t := r.value;
        var path := t.file.filePath;
        var added := t.input[|input|..];
        && |input| < |t.input| && t.input[..|input|] == input
        && added[0] == InputText(Announcement(path))
        && (t.file.data.vision.Some? <==> |added| == 2)
        && (t.file.data.vision.Some? ==> added[1] == InputImage(t.file.data.vision.value))
        && |added| <= 2
        && (t.file.data.fileSearch.None? ==> t.tools == tools)
        && (t.file.data.fileSearch.Some? ==>
              var k := FirstFileSearch(t.tools);
              k >= 0 && t.file.data.fileSearch.value.1 in t.tools[k].vectorStoreIds)
        && (FileSearchCount(tools) <= 1 ==> FileSearchCount(t.tools) <= 1))
    ensures var r := TrackFile(input, tools, source, tempDir, resolve, ids);
      r.Ok? ==> TracksAs(r.value.file, source, tempDir, resolve, ids)
  {
    TrackFileInput(input, tools, source, tempDir, resolve, ids);
    TrackFileTools(input, tools, source, tempDir, resolve, ids);
    TrackFileData(input, tools, source, tempDir, resolve, ids);
  }

  /**
   * `f` records `source` at its resolved path (an upload: its name in the temporary
   * directory), and each of the three `data` keys is set exactly when that path's
   * suffix is in the service's list, with the ids of this call.
   */
  predicate TracksAs(f: TrackedFile, source: FileSource, tempDir: string, resolve: string -> string, ids: RemoteIds) {
    var suffix := Suffix(f.filePath);
    && f.source == source
    && (source.LocalPath? ==> f.filePath == resolve(source.path))
    && (source.Uploaded? ==> f.filePath == JoinPath(tempDir, source.upload.name))
    && (f.data.codeInterpreter.Some? <==> suffix in CodeInterpreterExtensions)
    && (f.data.codeInterpreter.Some? ==> f.data.codeInterpreter.value == ids.codeInterpreterFile)
    && (f.data.fileSearch.Some? <==> suffix in FileSearchExtensions)
    && (f.data.fileSearch.Some? ==> f.data.fileSearch.value == (ids.searchFile, ids.vectorStore))
    && (f.data.vision.Some? <==> suffix in VisionExtensions)
    && (f.data.vision.Some? ==> f.data.vision.value == ids.visionFile)
  }

  /** The record tracking a file returns: its source, its path and its routing. */
  lemma {:induction false} TrackFileData(
    input: seq<InputEntry>, tools: seq<Tool>, source: FileSource, tempDir: string,
    resolve: string -> string, ids: RemoteIds)
    ensures var r := TrackFile(input, tools, source, tempDir, resolve, ids);
      r.Ok? ==> TracksAs(r.value.file, source, tempDir, resolve, ids)
  {
  }

  /** The entries tracking a file appends to the input. */
  lemma {:induction false} TrackFileInput(
    input: seq<InputEntry>, tools: seq<Tool>, source: FileSource, tempDir: string,
    resolve: string -> string, ids: RemoteIds)
    ensures var r := TrackFile(input, tools, source, tempDir, resolve, ids);
      && (r.Err? <==> source.Unsupported?)
      && (r.Err? ==> r.error == ValueError(UnsupportedSource))
      && (r.Ok? ==>
        var t := r.value;
        var added := t.input[|input|..];
        && |input| < |t.input| && t.input[..|input|] == input
        && added[0] == InputText(Announcement(t.file.filePath))
        && (t.file.data.vision.Some? <==> |added| == 2)
        && (t.file.data.vision.Some? ==> added[1] == InputImage(t.file.data.vision.value))
        && |added| <= 2)
  {
    var r := TrackFile(input, tools, source, tempDir, resolve, ids);
    if r.Ok? {
      assert r.value.input[..|input|] == input;
    }
  }

  /** The tools after tracking a file: merged into the first `file_search` tool, or unchanged. */
  lemma {:induction false} TrackFileTools(
    input: seq<InputEntry>, tools: seq<Tool>, source: FileSource, tempDir: string,
    resolve: string -> string, ids: RemoteIds)
    ensures var r := TrackFile(input, tools, source, tempDir, resolve, ids);
      r.Ok? ==>
        var t := r.value;
        && (t.file.data.fileSearch.None? ==> t.tools == tools)
        && (t.file.data.fileSearch.Some? ==>
              var k := FirstFileSearch(t.tools);
              k >= 0 && t.file.data.fileSearch.value.1 in t.tools[k].vectorStoreIds)
        && (FileSearchCount(tools) <= 1 ==> FileSearchCount(t.tools) <= 1)
  {
    var r := TrackFile(input, tools, source, tempDir, resolve, ids);
    if r.Ok? && r.value.file.data.fileSearch.Some? && FileSearchCount(tools) <= 1 {
      MergeKeepsOneFileSearch(tools, ids.vectorStore);
    }
  }

  /** The tracked files, the input and the tools as `handle_files` and `__init__` change them. */
  datatype Workspace = Workspace(input: seq<InputEntry>, tools: seq<Tool>, tracked: seq<TrackedFile>)

  /** A workspace and how the operation that produced it ended. */
  datatype Tracking = Tracking(ws: Workspace, outcome: Outcome)

  /** Tracks one file and appends it to the tracked files. */
  function TrackInto(t: Tracking, source: FileSource, tempDir: string, env: Env): Tracking {
    if t.outcome.Raised? then t
    else match TrackFile(t.ws.input, t.ws.tools, source, tempDir, env.resolve, env.remote(|t.ws.tracked|))
      case Err(e) => Tracking(t.ws, Raised(e))
      case Ok(r) => Tracking(Workspace(r.input, r.tools, t.ws.tracked + [r.file]), Done)
  }

  /** The files given at construction, tracked in order; the first refused one stops the loop. */
  function TrackAll(t: Tracking, sources: seq<FileSource>, tempDir: string, env: Env): Tracking
    decreases |sources|
  {
    if sources == [] then t
    else TrackInto(TrackAll(t, sources[..|sources| - 1], tempDir, env), sources[|sources| - 1], tempDir, env)
  }

  /**
   * `[x.uploaded_file.file_id for x in tracked]`: a file tracked from a local path has
   * no file id, so the comprehension raises `AttributeError`.
   */
  function TrackedIds(tracked: seq<TrackedFile>): Result<seq<string>>
    decreases |tracked|
  {
    if tracked == [] then Ok([])
    else
      var earlier := TrackedIds(tracked[..|tracked| - 1]);
      var last := tracked[|tracked| - 1];
      if earlier.Err? then earlier
      else if !last.source.Uploaded? then Err(AttributeError("file_id"))
      else Ok(earlier.value + [last.source.upload.fileId])
  }

  /** The ids are those of the uploads when every tracked file is one, and an error otherwise. */
  lemma {:induction false} TrackedIdsOk(tracked: seq<TrackedFile>)
    ensures TrackedIds(tracked).Ok? <==> forall k :: 0 <= k < |tracked| ==> tracked[k].source.Uploaded?
    ensures TrackedIds(tracked).Err? ==> TrackedIds(tracked).error == AttributeError("file_id")
    ensures TrackedIds(tracked).Ok? ==> (|TrackedIds(tracked).value| == |tracked|
      && forall k :: 0 <= k < |tracked| ==> TrackedIds(tracked).value[k] == tracked[k].source.upload.fileId)
    decreases |tracked|
  {
    if tracked != [] {
      var n := |tracked| - 1;
      TrackedIdsOk(tracked[..n]);
      assert forall k :: 0 <= k < n ==> tracked[..n][k] == tracked[k];
    }
  }

  /** One iteration of `handle_files`: skip an upload whose id is tracked, else track it. */
  function HandleUpload(t: Tracking, u: Upload, tempDir: string, env: Env): Tracking {
    if t.outcome.Raised? then t
    else match TrackedIds(t.ws.tracked)
      case Err(e) => Tracking(t.ws, Raised(e))
      case Ok(ids) => if u.fileId in ids then t else TrackInto(t, Uploaded(u), tempDir, env)
  }

  function HandleUploads(t: Tracking, uploads: seq<Upload>, tempDir: string, env: Env): Tracking
    decreases |uploads|
  {
    if uploads == [] then t
    else HandleUpload(HandleUploads(t, uploads[..|uploads| - 1], tempDir, env), uploads[|uploads| - 1], tempDir, env)
  }

  /** What `handle_files(uploaded_files)` leaves behind. */
  function FilesHandled(w: Workspace, uploads: Option<seq<Upload>>, tempDir: string, env: Env): Tracking {
    if uploads.None? then Tracking(w, Done) else HandleUploads(Tracking(w, Done), uploads.value, tempDir, env)
  }

  /**
   * When every tracked file came from an upload, `handle_files` tracks exactly the
   * uploads whose id is neither tracked already nor carried by an earlier upload of
   * the same list, in list order, and keeps the files tracked before.
   */
  lemma {:induction false} HandleUploadsTracksNew(w: Workspace, uploads: seq<Upload>, tempDir: string, env: Env)
    requires TrackedIds(w.tracked).Ok?
    ensures var t := HandleUploads(Tracking(w, Done), uploads, tempDir, env);
      var known := TrackedIds(w.tracked).value;
      && t.outcome == Done
      && TrackedIds(t.ws.tracked) == Ok(known + UploadIds(UploadTracking.NewUploads(known, uploads)))
      && |w.tracked| <= |t.ws.tracked| && t.ws.tracked[..|w.tracked|] == w.tracked
    decreases |uploads|
  {
    var known := TrackedIds(w.tracked).value;
    if uploads == [] {
      assert known + UploadIds([]) == known;
    } else {
      var n := |uploads| - 1;
      HandleUploadsTracksNew(w, uploads[..n], tempDir, env);
      HandleUploadStep(w, known, uploads, tempDir, env);
    }
  }

  lemma {:induction false} HandleUploadStep(w: Workspace, known: seq<string>, uploads: seq<Upload>, tempDir: string, env: Env)
    requires uploads != [] && TrackedIds(w.tracked) == Ok(known)
    requires var t0 := HandleUploads(Tracking(w, Done), uploads[..|uploads| - 1], tempDir, env);
      && t0.outcome == Done
      && TrackedIds(t0.ws.tracked) == Ok(known + UploadIds(UploadTracking.NewUploads(known, uploads[..|uploads| - 1])))
      && |w.tracked| <= |t0.ws.tracked| && t0.ws.tracked[..|w.tracked|] == w.tracked
    ensures var t := HandleUploads(Tracking(w, Done), uploads, tempDir, env);
      && t.outcome == Done
      && TrackedIds(t.ws.tracked) == Ok(known + UploadIds(UploadTracking.NewUploads(known, uploads)))
      && |w.tracked| <= |t.ws.tracked| && t.ws.tracked[..|w.tracked|] == w.tracked
  {
    var n := |uploads| - 1;
    var t0 := HandleUploads(Tracking(w, Done), uploads[..n], tempDir, env);
    assert HandleUploads(Tracking(w, Done), uploads, tempDir, env) == HandleUpload(t0, uploads[n], tempDir, env);
    HandleUploadFrom(w, known, UploadTracking.NewUploads(known, uploads[..n]), t0, uploads[n], tempDir, env);
  }

  /**
   * One upload handled after `earlier` were tracked: it is tracked iff its id is
   * neither known nor among theirs, and the files tracked before stay in place.
   */
  lemma {:induction false} HandleUploadFrom(
    w: Workspace, known: seq<string>, earlier: seq<Upload>, t0: Tracking, u: Upload,
    tempDir: string, env: Env)
    requires t0.outcome == Done && TrackedIds(t0.ws.tracked) == Ok(known + UploadIds(earlier))
    requires |w.tracked| <= |t0.ws.tracked| && t0.ws.tracked[..|w.tracked|] == w.tracked
    ensures var t := HandleUpload(t0, u, tempDir, env);
      var grown := if u.fileId in known + UploadIds(earlier) then earlier else earlier + [u];
      && t.outcome == Done
      && TrackedIds(t.ws.tracked) == Ok(known + UploadIds(grown))
      && |w.tracked| <= |t.ws.tracked| && t.ws.tracked[..|w.tracked|] == w.tracked
  {
    var ids0 := known + UploadIds(earlier);
    if u.fileId !in ids0 {
      HandleNewUpload(t0, ids0, u, tempDir, env);
      var t := HandleUpload(t0, u, tempDir, env);
      NewIdJoins(w.tracked, known, earlier, u, t0.ws.tracked, t.ws.tracked);
    } else {
      HandleKnownUpload(t0, ids0, u, tempDir, env);
    }
  }

  /** The bookkeeping of `HandleUploadFrom` for a new upload, apart from the workspace. */
  lemma {:induction false} NewIdJoins(
    before: seq<TrackedFile>, known: seq<string>, earlier: seq<Upload>, u: Upload,
    middle: seq<TrackedFile>, after: seq<TrackedFile>)
    requires TrackedIds(after) == Ok(known + UploadIds(earlier) + [u.fileId])
    requires |before| <= |middle| && middle[..|before|] == before
    requires |middle| < |after| && after[..|middle|] == middle
    ensures TrackedIds(after) == Ok(known + UploadIds(earlier + [u]))
    ensures |before| <= |after| && after[..|before|] == before
  {
    assert UploadIds(earlier + [u]) == UploadIds(earlier) + [u.fileId];
    assert known + UploadIds(earlier) + [u.fileId] == known + (UploadIds(earlier) + [u.fileId]);
    assert after[..|before|] == after[..|middle|][..|before|];
  }

  /** An upload whose id is tracked already changes nothing. */
  lemma {:induction false} HandleKnownUpload(t0: Tracking, ids0: seq<string>, u: Upload, tempDir: string, env: Env)
    requires t0.outcome == Done && TrackedIds(t0.ws.tracked) == Ok(ids0) && u.fileId in ids0
    ensures HandleUpload(t0, u, tempDir, env) == t0
  {
  }

  /** An upload whose id is not tracked yet is tracked, and its id joins the tracked ids. */
  lemma {:induction false} HandleNewUpload(t0: Tracking, ids0: seq<string>, u: Upload, tempDir: string, env: Env)
    requires t0.outcome == Done && TrackedIds(t0.ws.tracked) == Ok(ids0) && u.fileId !in ids0
    ensures var t := HandleUpload(t0, u, tempDir, env);
      && t.outcome == Done
      && TrackedIds(t.ws.tracked) == Ok(ids0 + [u.fileId])
      && |t0.ws.tracked| < |t.ws.tracked| && t.ws.tracked[..|t0.ws.tracked|] == t0.ws.tracked
  {
    var r := TrackFile(t0.ws.input, t0.ws.tools, Uploaded(u), tempDir, env.resolve, env.remote(|t0.ws.tracked|)).value;
    var tracked := t0.ws.tracked + [r.file];
    assert tracked[..|tracked| - 1] == t0.ws.tracked;
  }

  /**
   * Once a file tracked from a local path is among the tracked files, any non-empty
   * upload list makes `handle_files` raise `AttributeError` before tracking anything.
   */
  lemma {:induction false} HandleUploadsRefusesPathFiles(w: Workspace, uploads: seq<Upload>, tempDir: string, env: Env)
    requires uploads != []
    requires exists k :: 0 <= k < |w.tracked| && !w.tracked[k].source.Uploaded?
    ensures HandleUploads(Tracking(w, Done), uploads, tempDir, env) == Tracking(w, Raised(AttributeError("file_id")))
    decreases |uploads|
  {
    TrackedIdsOk(w.tracked);
    var n := |uploads| - 1;
    if n > 0 {
      HandleUploadsRefusesPathFiles(w, uploads[..n], tempDir, env);
    }
  }

  /** Tracking files never creates a second `file_search` tool. */
  lemma {:induction false} TrackIntoKeepsOneFileSearch(t: Tracking, source: FileSource, tempDir: string, env: Env)
    requires FileSearchCount(t.ws.tools) <= 1
    ensures FileSearchCount(TrackInto(t, source, tempDir, env).ws.tools) <= 1
  {
    TrackFileRoutes(t.ws.input, t.ws.tools, source, tempDir, env.resolve, env.remote(|t.ws.tracked|));
  }

  lemma {:induction false} TrackAllKeepsOneFileSearch(t: Tracking, sources: seq<FileSource>, tempDir: string, env: Env)
    requires FileSearchCount(t.ws.tools) <= 1
    ensures FileSearchCount(TrackAll(t, sources, tempDir, env).ws.tools) <= 1
    decreases |sources|
  {
    if sources != [] {
      var n := |sources| - 1;
      TrackAllKeepsOneFileSearch(t, sources[..n], tempDir, env);
      TrackIntoKeepsOneFileSearch(TrackAll(t, sources[..n], tempDir, env), sources[n], tempDir, env);
    }
  }

  lemma {:induction false} HandleUploadsKeepsOneFileSearch(t: Tracking, uploads: seq<Upload>, tempDir: string, env: Env)
    requires FileSearchCount(t.ws.tools) <= 1
    ensures FileSearchCount(HandleUploads(t, uploads, tempDir, env).ws.tools) <= 1
    decreases |uploads|
  {
    if uploads != [] {
      var n := |uploads| - 1;
      HandleUploadsKeepsOneFileSearch(t, uploads[..n], tempDir, env);
      TrackIntoKeepsOneFileSearch(HandleUploads(t, uploads[..n], tempDir, env), Uploaded(uploads[n]), tempDir, env);
    }
  }

  /* ---------------------------------------------------------------------------
   * The file-search merge as written
   * ------------------------------------------------------------------------- */

  /**
   * The merge at streamlit_openai/chat.py:351-360 as written: an empty tool list or one
   * without a `file_search` tool gets a new one, but reaching an existing `file_search`
   * tool evaluates `self.vector_store.id`, and `TrackedFile` has no `vector_store`.
   */
  function MergeFileSearchAsWritten(tools: seq<Tool>, id: string): Result<seq<Tool>> {
    if tools == [] then Ok([FileSearch([id])])
    else if FirstFileSearch(tools) >= 0 then Err(AttributeError("vector_store"))
    else Ok(tools + [FileSearch([id])])
  }

  /**
   * As written, the merge agrees with `MergeFileSearch` exactly while there is no
   * `file_search` tool, and raises as soon as there is one.
   */
  lemma {:induction false} MergeAsWrittenFailsOnceSearching(tools: seq<Tool>, id: string)
    ensures FirstFileSearch(tools) < 0 ==> MergeFileSearchAsWritten(tools, id) == Ok(MergeFileSearch(tools, id))
    ensures FirstFileSearch(tools) >= 0 ==> MergeFileSearchAsWritten(tools, id) == Err(AttributeError("vector_store"))
  {
  }

  /**
   * With the default code interpreter, the second searchable file fails as written,
   * where the intended merge puts both vector stores into one `file_search` tool.
   */
  lemma {:induction false} SecondSearchableFileFails(container: string, first: string, second: string)
    requires first != second
    ensures var once := MergeFileSearchAsWritten([CodeInterpreter(container)], first);
      && once == Ok([CodeInterpreter(container), FileSearch([first])])
      && MergeFileSearchAsWritten(once.value, second) == Err(AttributeError("vector_store"))
    ensures MergeFileSearch(MergeFileSearch([CodeInterpreter(container)], first), second)
      == [CodeInterpreter(container), FileSearch([first, second])]
  {
    var tools := [CodeInterpreter(container)];
    assert FirstFileSearch(tools) < 0;
    assert tools + [FileSearch([first])] == [CodeInterpreter(container), FileSearch([first])];
    assert FirstFileSearch(tools + [FileSearch([first])]) == 1;
    TwoFilesShareOneTool(tools, first, second);
  }

  /* ---------------------------------------------------------------------------
   * Saved chats
   * ------------------------------------------------------------------------- */

  const HistoryNotZip: string := "History file must end with .zip"
  const SavePathNotZip: string := "File path must end with .zip"

  /** The `.zip` test that `save` and history loading make before any file I/O. */
  function CheckZip(path: string, message: string): (r: Outcome)
    ensures r.Done? <==> EndsWith(path, ".zip")
    ensures r.Raised? ==> r.error == ValueError(message)
  {
    if EndsWith(path, ".zip") then Done else Raised(ValueError(message))
  }

  /** A block and a section of the parsed `data.json`, with the keys loading reads. */
  datatype SavedBlock = SavedBlock(category: Category, content: string)
  datatype SavedSection = SavedSection(role: Role, blocks: seq<SavedBlock>)

  function RestoredBlocks(blocks: seq<SavedBlock>): (r: seq<Block>)
    ensures |r| == |blocks|
    decreases |blocks|
  {
    if blocks == [] then []
    else RestoredBlocks(blocks[..|blocks| - 1]) + [Block(blocks[|blocks| - 1].category, Chars(blocks[|blocks| - 1].content))]
  }

  /** One section per saved section, with its role and blocks, and nothing streamed yet. */
  function RestoredSections(saved: seq<SavedSection>): (r: seq<Container>)
    ensures |r| == |saved|
    decreases |saved|
  {
    if saved == [] then []
    else RestoredSections(saved[..|saved| - 1]) + [Container(saved[|saved| - 1].role, RestoredBlocks(saved[|saved| - 1].blocks), [])]
  }

  /** Block `j` of the restored blocks is saved block `j`: same category, same content. */
  lemma {:induction false} RestoredBlocksAt(blocks: seq<SavedBlock>, j: nat)
    requires j < |blocks|
    ensures RestoredBlocks(blocks)[j] == Block(blocks[j].category, Chars(blocks[j].content))
    decreases |blocks|
  {
    var n := |blocks| - 1;
    if j < n {
      RestoredBlocksAt(blocks[..n], j);
    }
  }

  /** Section `j` of the restored sections has saved section `j`'s role and blocks, and no files. */
  lemma {:induction false} RestoredSectionsAt(saved: seq<SavedSection>, j: nat)
    requires j < |saved|
    ensures RestoredSections(saved)[j] == Container(saved[j].role, RestoredBlocks(saved[j].blocks), [])
    decreases |saved|
  {
    var n := |saved| - 1;
    if j < n {
      RestoredSectionsAt(saved[..n], j);
    }
  }

  /** One input message per saved block, with its section's role. */
  function SectionInput(role: Role, blocks: seq<SavedBlock>): seq<InputEntry>
    decreases |blocks|
  {
    if blocks == [] then []
    else SectionInput(role, blocks[..|blocks| - 1]) + [Message(role, blocks[|blocks| - 1].content)]
  }

  function RestoredInput(saved: seq<SavedSection>): seq<InputEntry>
    decreases |saved|
  {
    if saved == [] then []
    else RestoredInput(saved[..|saved| - 1]) + SectionInput(saved[|saved| - 1].role, saved[|saved| - 1].blocks)
  }

  /** The input a list of sections stands for: one message per text block, with the section's role. */
  function InputOf(sections: seq<Container>): seq<InputEntry>
    decreases |sections|
  {
    if sections == [] then []
    else InputOf(sections[..|sections| - 1]) + BlocksInput(sections[|sections| - 1].role, sections[|sections| - 1].blocks)
  }

  function BlocksInput(role: Role, blocks: seq<Block>): seq<InputEntry>
    decreases |blocks|
  {
    if blocks == [] then []
    else
      var b := blocks[|blocks| - 1];
      BlocksInput(role, blocks[..|blocks| - 1]) + (if b.content.Chars? then [Message(role, b.content.text)] else [])
  }

  /**
   * The restored input is the input the restored sections stand for: loading history
   * rebuilds the pending input and the sections consistently.
   */
  lemma {:induction false} RestoredInputMatchesSections(saved: seq<SavedSection>)
    ensures InputOf(RestoredSections(saved)) == RestoredInput(saved)
    decreases |saved|
  {
    if saved != [] {
      var n := |saved| - 1;
      RestoredInputMatchesSections(saved[..n]);
      var rs := RestoredSections(saved);
      assert rs[..n] == RestoredSections(saved[..n]);
      RestoredBlocksInput(saved[n].role, saved[n].blocks);
    }
  }

  lemma {:induction false} RestoredBlocksInput(role: Role, blocks: seq<SavedBlock>)
    ensures BlocksInput(role, RestoredBlocks(blocks)) == SectionInput(role, blocks)
    decreases |blocks|
  {
    if blocks != [] {
      var n := |blocks| - 1;
      RestoredBlocksInput(role, blocks[..n]);
      assert RestoredBlocks(blocks)[..n] == RestoredBlocks(blocks[..n]);
    }
  }

  /** One more saved section adds its restored section and its input messages. */
  lemma {:induction false} RestoreNext(saved: seq<SavedSection>, i: nat)
    requires i < |saved|
    ensures RestoredSections(saved[..i + 1]) ==
      RestoredSections(saved[..i]) + [Container(saved[i].role, RestoredBlocks(saved[i].blocks), [])]
    ensures RestoredInput(saved[..i + 1]) == RestoredInput(saved[..i]) + SectionInput(saved[i].role, saved[i].blocks)
  {
    assert saved[..i + 1][..i] == saved[..i];
  }

  /** One more saved block adds its input message. */
  lemma {:induction false} SectionInputNext(role: Role, blocks: seq<SavedBlock>, j: nat)
    requires j < |blocks|
    ensures SectionInput(role, blocks[..j + 1]) == SectionInput(role, blocks[..j]) + [Message(role, blocks[j].content)]
  {
    assert blocks[..j + 1][..j] == blocks[..j];
  }

  /** Once a file is refused, tracking the rest of the list changes nothing. */
  lemma {:induction false} TrackAllStopped(
    t: Tracking, sources: seq<FileSource>, i: nat, tempDir: string, env: Env)
    requires 0 < i <= |sources|
    requires TrackAll(t, sources[..i], tempDir, env).outcome.Raised?
    ensures TrackAll(t, sources, tempDir, env) == TrackAll(t, sources[..i], tempDir, env)
    decreases |sources|
  {
    if i < |sources| {
      var n := |sources| - 1;
      assert sources[..n][..i] == sources[..i];
      TrackAllStopped(t, sources[..n], i, tempDir, env);
    } else {
      assert sources[..i] == sources;
    }
  }

  lemma {:induction false} HandleUploadsStopped(
    t: Tracking, uploads: seq<Upload>, i: nat, tempDir: string, env: Env)
    requires 0 < i <= |uploads|
    requires HandleUploads(t, uploads[..i], tempDir, env).outcome.Raised?
    ensures HandleUploads(t, uploads, tempDir, env) == HandleUploads(t, uploads[..i], tempDir, env)
    decreases |uploads|
  {
    if i < |uploads| {
      var n := |uploads| - 1;
      assert uploads[..n][..i] == uploads[..i];
      HandleUploadsStopped(t, uploads[..n], i, tempDir, env);
    } else {
      assert uploads[..i] == uploads;
    }
  }

  lemma {:induction false} TrackAllNext(t: Tracking, sources: seq<FileSource>, i: nat, tempDir: string, env: Env)
    requires i < |sources|
    ensures TrackAll(t, sources[..i + 1], tempDir, env) == TrackInto(TrackAll(t, sources[..i], tempDir, env), sources[i], tempDir, env)
  {
    assert sources[..i + 1][..i] == sources[..i];
  }

  lemma {:induction false} HandleUploadsNext(t: Tracking, uploads: seq<Upload>, i: nat, tempDir: string, env: Env)
    requires i < |uploads|
    ensures HandleUploads(t, uploads[..i + 1], tempDir, env) == HandleUpload(HandleUploads(t, uploads[..i], tempDir, env), uploads[i], tempDir, env)
  {
    assert uploads[..i + 1][..i] == uploads[..i];
  }

  lemma {:induction false} TrackedIdsStopped(tracked: seq<TrackedFile>, i: nat)
    requires 0 < i <= |tracked|
    requires TrackedIds(tracked[..i]).Err?
    ensures TrackedIds(tracked) == TrackedIds(tracked[..i])
    decreases |tracked|
  {
    if i < |tracked| {
      var n := |tracked| - 1;
      assert tracked[..n][..i] == tracked[..i];
      TrackedIdsStopped(tracked[..n], i);
    } else {
      assert tracked[..i] == tracked;
    }
  }

  /** The blocks of one saved section, rebuilt in order. */
  method RestoreBlocks(saved: seq<SavedBlock>) returns (blocks: seq<Block>)
    ensures blocks == RestoredBlocks(saved)
  {
    blocks := [];
    for j := 0 to |saved|
      invariant blocks == RestoredBlocks(saved[..j])
    {
      assert saved[..j + 1][..j] == saved[..j];
      blocks := blocks + [Block(saved[j].category, Chars(saved[j].content))];
    }
    assert saved[..|saved|] == saved;
  }

  /** The tool list of `__init__`, appended to one tool at a time. */
  method BuildTools(
    containerId: Option<string>, functions: Option<seq<CustomFunction>>, vectorStoreIds: Option<seq<string>>)
    returns (tools: seq<Tool>)
    ensures tools == InitialTools(containerId, functions, vectorStoreIds)
  {
    tools := [];
    if containerId.Some? {
      tools := tools + [CodeInterpreter(containerId.value)];
    }
    ghost var front := tools;
    if functions.Some? {
      var fs := functions.value;
      for i := 0 to |fs|
        invariant tools == front + FunctionTools(fs[..i])
      {
        assert FunctionTools(fs[..i + 1]) == FunctionTools(fs[..i]) + [Function(fs[i].spec)];
        tools := tools + [Function(fs[i].spec)];
      }
      assert fs[..|fs|] == fs;
    }
    ghost var middle := tools;
    assert middle == front + (if functions.Some? then FunctionTools(functions.value) else []);
    if vectorStoreIds.Some? {
      tools := tools + [FileSearch(vectorStoreIds.value)];
    }
    assert tools == middle + (if vectorStoreIds.Some? then [FileSearch(vectorStoreIds.value)] else []);
  }

  lemma {:induction false} OneSearchBuilt(
    tools: seq<Tool>, containerId: Option<string>, functions: Option<seq<CustomFunction>>, vectorStoreIds: Option<seq<string>>)
    requires tools == InitialTools(containerId, functions, vectorStoreIds)
    ensures FileSearchCount(tools) <= 1
  {
    InitialToolsOneSearch(containerId, functions, vectorStoreIds);
  }

  /* ---------------------------------------------------------------------------
   * The driver
   * ------------------------------------------------------------------------- */

  class Chat {
    const instructions: string
    const functions: Option<seq<CustomFunction>>
    /** The code-interpreter container, when one was created at construction. */
    const containerId: Option<string>
    /** The temporary directory uploads are written to. */
    const tempDir: string

    var input: seq<InputEntry>
    var tools: seq<Tool>
    var sections: seq<Container>
    var previousResponseId: Option<string>
    var trackedFiles: seq<TrackedFile>
    /** Every `responses.create` call issued so far, in order. */
    var requests: seq<Request>

    function State(): ChatState
      reads this
    {
      ChatState(input, tools, sections, previousResponseId, requests)
    }

    function Files(): Workspace
      reads this
    {
      Workspace(input, tools, trackedFiles)
    }

    /** The tool list never holds more than one `file_search` tool. */
    predicate Valid()
      reads this
    {
      FileSearchCount(tools) <= 1
    }

    /**
     * The first part of `__init__`: the tool list, then the welcome message as the
     * first input entry and the first section. `containerId` is the id of the container
     * the service creates when the code interpreter is allowed.
     */
    constructor(
      instructions: Option<string>, allowCodeInterpreter: bool, containerId: string,
      functions: Option<seq<CustomFunction>>, vectorStoreIds: Option<seq<string>>,
      welcomeMessage: Option<string>, tempDir: string)
      ensures Valid()
      ensures this.instructions == (if instructions.Some? then instructions.value else "")
      ensures this.functions == functions && this.tempDir == tempDir
      ensures this.containerId == (if allowCodeInterpreter then Some(containerId) else None)
      ensures tools == InitialTools(this.containerId, functions, vectorStoreIds)
      ensures input == (if welcomeMessage.Some? then [Message(Assistant, welcomeMessage.value)] else [])
      ensures sections ==
        (if welcomeMessage.Some? then [Container(Assistant, [Block(Text, Chars(welcomeMessage.value))], [])] else [])
      ensures previousResponseId == None && trackedFiles == [] && requests == []
    {
      this.instructions := if instructions.Some? then instructions.value else "";
      this.functions := functions;
      var container := if allowCodeInterpreter then Some(containerId) else None;
      this.containerId := container;
      this.tempDir := tempDir;
      input := [];
      sections := [];
      previousResponseId := None;
      trackedFiles := [];
      requests := [];
      var built := BuildTools(container, functions, vectorStoreIds);
      OneSearchBuilt(built, container, functions, vectorStoreIds);
      tools := built;
      if welcomeMessage.Some? {
        input := input + [Message(Assistant, welcomeMessage.value)];
        sections := sections + [Container(Assistant, [Block(Text, Chars(welcomeMessage.value))], [])];
      }
    }

    /**
     * `self._sections[-1].update_and_stream(...)`, or the link rewrite of its last
     * block: record `op` on the last section. `prefix` names the sections before it.
     */
    method UpdateLastSection(ghost prefix: seq<Container>, op: ContainerOp)
      requires |sections| == |prefix| + 1 && sections[..|prefix|] == prefix
      modifies this`sections
      ensures var last := old(sections)[|prefix|];
        sections == prefix + [last.(log := last.log + [op])]
    {
      var n := |sections| - 1;
      var last := sections[n];
      sections := sections[..n] + [last.(log := last.log + [op])];
    }

    /** `respond(prompt)`, given the two streams the service would send. */
    method Respond(prompt: string, first: seq<Event>, second: seq<Event>, retrieve: string -> Bytes)
      returns (outcome: Outcome)
      requires Valid()
      modifies this
      ensures Valid() && tools == old(tools)
      ensures Turn(State(), outcome) ==
        RespondTurn(old(State()), DeveloperMessage + instructions, functions, prompt, first, second, retrieve)
      ensures trackedFiles == old(trackedFiles)
    {
      var sent := DeveloperMessage + instructions;
      ghost var s0 := State();
      ghost var p1 := FirstPass(Pass([], s0.previousResponseId, []), first, retrieve);
      ghost var request := Request(s0.input + [Message(User, prompt)], sent, s0.tools, s0.previousResponseId);
      input := input + [Message(User, prompt)];
      sections := sections + [Empty(Assistant)];
      requests := requests + [Request(input, sent, tools, previousResponseId)];
      assert requests == s0.requests + [request];
      input := [];
      var toolCalls := StreamFirst(s0.sections, first, retrieve);
      assert sections == s0.sections + [Container(Assistant, [], p1.log)];
      assert previousResponseId == p1.previousResponseId && toolCalls == p1.toolCalls;
      outcome := Done;
      if toolCalls != [] {
        outcome := RunTools(toolCalls);
        ghost var run := CallTools(functions, p1.toolCalls);
        assert input == run.outputs;
        if outcome.Done? {
          requests := requests + [Request(input, sent, tools, previousResponseId)];
          input := [];
          StreamSecond(s0.sections, p1, second);
        }
      }
    }

    /** The loop over the first stream. */
    method StreamFirst(ghost prefix: seq<Container>, events: seq<Event>, retrieve: string -> Bytes)
      returns (toolCalls: Dict<FunctionCall>)
      requires |sections| == |prefix| + 1 && sections[..|prefix|] == prefix
      modifies this`sections, this`previousResponseId
      ensures var head := old(sections)[|prefix|];
        var p := FirstPass(Pass(head.log, old(previousResponseId), []), events, retrieve);
        && sections == prefix + [head.(log := p.log)]
        && previousResponseId == p.previousResponseId
        && toolCalls == p.toolCalls
    {
      ghost var head := sections[|prefix|];
      assert sections == prefix + [head];
      ghost var start := Pass(head.log, previousResponseId, []);
      ghost var cur := start;
      toolCalls := [];
      for i := 0 to |events|
        invariant cur == FirstPass(start, events[..i], retrieve)
        invariant sections == prefix + [head.(log := cur.log)]
        invariant previousResponseId == cur.previousResponseId
        invariant toolCalls == cur.toolCalls
      {
        FirstPassNext(start, events, i, retrieve);
        toolCalls := FirstEvent(prefix, head, cur, events[i], retrieve, toolCalls);
        cur := StepFirst(cur, events[i], retrieve);
      }
      assert events[..|events|] == events;
    }

    /** One event of the first stream, applied to the section being streamed. */
    method FirstEvent(
      ghost prefix: seq<Container>, ghost head: Container, ghost cur: Pass, e: Event, retrieve: string -> Bytes,
      toolCalls: Dict<FunctionCall>)
      returns (calls: Dict<FunctionCall>)
      requires sections == prefix + [head.(log := cur.log)]
      requires previousResponseId == cur.previousResponseId && toolCalls == cur.toolCalls
      modifies this`sections, this`previousResponseId
      ensures var next := StepFirst(cur, e, retrieve);
        && sections == prefix + [head.(log := next.log)]
        && previousResponseId == next.previousResponseId
        && calls == next.toolCalls
    {
      assert sections[..|prefix|] == prefix;
      ghost var log := cur.log;
      calls := toolCalls;
      match e {
        case Completed(id) =>
          previousResponseId := Some(id);
        case TextDelta(d) =>
          UpdateLastSection(prefix, Streamed(Text, Chars(d)));
          UpdateLastSection(prefix, LinksRewritten);
          assert log + [Streamed(Text, Chars(d))] + [LinksRewritten] == log + [Streamed(Text, Chars(d)), LinksRewritten];
        case CodeDelta(d) =>
          UpdateLastSection(prefix, Streamed(Code, Chars(d)));
        case OutputItemDone(item) =>
          if item.FunctionCallItem? {
            calls := Put(toolCalls, item.call.name, item.call);
          }
        case AnnotationAdded(fileId, filename) =>
          if Contains(filename, fileId) {
            if Suffix(filename) in ImageSuffixes {
              var content := retrieve(fileId);
              UpdateLastSection(prefix, Streamed(Image, Binary(content)));
            } else {
              assert log + [] == log;
            }
          } else {
            UpdateLastSection(prefix, Streamed(Download, Chars(fileId)));
          }
        case OtherEvent =>
          assert log + [] == log;
      }
    }

    /** The loop over the continuation stream. */
    method StreamSecond(ghost prefix: seq<Container>, ghost start: Pass, events: seq<Event>)
      requires |sections| == |prefix| + 1 && sections[..|prefix|] == prefix
      requires sections[|prefix|].log == start.log && previousResponseId == start.previousResponseId
      modifies this`sections, this`previousResponseId
      ensures var head := old(sections)[|prefix|];
        var p := SecondPass(start, events);
        && sections == prefix + [head.(log := p.log)]
        && previousResponseId == p.previousResponseId
    {
      ghost var head := sections[|prefix|];
      assert sections == prefix + [head];
      assert head == head.(log := start.log);
      for i := 0 to |events|
        invariant var p := SecondPass(start, events[..i]);
          && sections == prefix + [head.(log := p.log)]
          && previousResponseId == p.previousResponseId
      {
        assert events[..i + 1][..i] == events[..i];
        match events[i] {
          case Completed(id) =>
            previousResponseId := Some(id);
          case TextDelta(d) =>
            UpdateLastSection(prefix, Streamed(Text, Chars(d)));
          case _ =>
        }
      }
      assert events[..|events|] == events;
    }

    /** The loop that runs the collected calls and queues their outputs. */
    method RunTools(calls: Dict<FunctionCall>) returns (outcome: Outcome)
      modifies this`input
      ensures var run := CallTools(functions, calls);
        && input == old(input) + run.outputs
        && outcome == if run.failure.None? then Done else Raised(run.failure.value)
    {
      var i := 0;
      while i < |calls|
        invariant 0 <= i <= |calls|
        invariant CallTools(functions, calls[..i]).failure.None?
        invariant input == old(input) + CallTools(functions, calls[..i]).outputs
      {
        var (name, call) := calls[i];
        var found := LookupFunction(functions, name);
        assert calls[..i + 1][..i] == calls[..i];
        if found.Err? {
          CallToolsStops(functions, calls, i + 1);
          return Raised(found.error);
        }
        input := input + [FunctionCallOutput(call.callId, found.value.handler(call.arguments))];
        i := i + 1;
      }
      assert calls[..i] == calls;
      return Done;
    }

    /**
     * `TrackedFile(self, source)`: announces the file, hands it to the code
     * interpreter, file search and vision by suffix, and returns the record; a source
     * that is neither a path nor an upload raises before anything changes.
     */
    method NewTrackedFile(source: FileSource, resolve: string -> string, ids: RemoteIds) returns (r: Result<TrackedFile>)
      requires Valid()
      modifies this`input, this`tools
      ensures Valid()
      ensures var t := TrackFile(old(input), old(tools), source, tempDir, resolve, ids);
        && (t.Err? ==> r == Err(t.error) && input == old(input) && tools == old(tools))
        && (t.Ok? ==> r == Ok(t.value.file) && input == t.value.input && tools == t.value.tools)
    {
      if source.Unsupported? {
        return Err(ValueError(UnsupportedSource));
      }
      var path := if source.LocalPath? then resolve(source.path) else JoinPath(tempDir, source.upload.name);
      var suffix := Suffix(path);
      var toInterpreter := suffix in CodeInterpreterExtensions;
      var toSearch := suffix in FileSearchExtensions;
      var toVision := suffix in VisionExtensions;
      var data := FileData(None, None, None);
      var newTools := tools;
      if toInterpreter {
        data := data.(codeInterpreter := Some(ids.codeInterpreterFile));
      }
      if toSearch {
        newTools := JoinFileSearch(tools, ids.vectorStore);
        data := data.(fileSearch := Some((ids.searchFile, ids.vectorStore)));
      }
      var newInput := input + [InputText(Announcement(path))];
      if toVision {
        newInput := newInput + [InputImage(ids.visionFile)];
        data := data.(vision := Some(ids.visionFile));
      }
      TrackFileOk(input, tools, source, tempDir, resolve, ids, path, toInterpreter, toSearch, toVision, newInput, newTools, data);
      TrackFileRoutes(input, tools, source, tempDir, resolve, ids);
      input, tools := newInput, newTools;
      r := Ok(TrackedFile(source, path, data));
    }

    /** `__init__`'s loop over `uploaded_files`: each file is tracked in turn. */
    method TrackInitialFiles(sources: seq<FileSource>, env: Env) returns (outcome: Outcome)
      requires Valid()
      modifies this`input, this`tools, this`trackedFiles
      ensures Valid()
      ensures Tracking(Files(), outcome) == TrackAll(Tracking(old(Files()), Done), sources, tempDir, env)
    {
      ghost var start := Tracking(Files(), Done);
      for i := 0 to |sources|
        invariant Valid()
        invariant Tracking(Files(), Done) == TrackAll(start, sources[..i], tempDir, env)
      {
        TrackAllNext(start, sources, i, tempDir, env);
        var tracked := NewTrackedFile(sources[i], env.resolve, env.remote(|trackedFiles|));
        if tracked.Err? {
          TrackAllStopped(start, sources, i + 1, tempDir, env);
          return Raised(tracked.error);
        }
        trackedFiles := trackedFiles + [tracked.value];
      }
      assert sources[..|sources|] == sources;
      return Done;
    }

    /** `[x.uploaded_file.file_id for x in self._tracked_files]` */
    method TrackedFileIds() returns (r: Result<seq<string>>)
      ensures r == TrackedIds(trackedFiles)
    {
      var ids := [];
      for i := 0 to |trackedFiles|
        invariant TrackedIds(trackedFiles[..i]) == Ok(ids)
      {
        assert trackedFiles[..i + 1][..i] == trackedFiles[..i];
        if !trackedFiles[i].source.Uploaded? {
          TrackedIdsStopped(trackedFiles, i + 1);
          return Err(AttributeError("file_id"));
        }
        ids := ids + [trackedFiles[i].source.upload.fileId];
      }
      assert trackedFiles[..|trackedFiles|] == trackedFiles;
      return Ok(ids);
    }

    /** `handle_files(uploaded_files)`: track every upload whose file id is not tracked yet. */
    method HandleFiles(uploads: Option<seq<Upload>>, env: Env) returns (outcome: Outcome)
      requires Valid()
      modifies this`input, this`tools, this`trackedFiles
      ensures Valid()
      ensures Tracking(Files(), outcome) == FilesHandled(old(Files()), uploads, tempDir, env)
    {
      if uploads.None? {
        return Done;
      }
      var us := uploads.value;
      ghost var start := Tracking(Files(), Done);
      for i := 0 to |us|
        invariant Valid()
        invariant Tracking(Files(), Done) == HandleUploads(start, us[..i], tempDir, env)
      {
        HandleUploadsNext(start, us, i, tempDir, env);
        var known := TrackedFileIds();
        if known.Err? {
          HandleUploadsStopped(start, us, i + 1, tempDir, env);
          return Raised(known.error);
        }
        if us[i].fileId !in known.value {
          var tracked := NewTrackedFile(Uploaded(us[i]), env.resolve, env.remote(|trackedFiles|));
          trackedFiles := trackedFiles + [tracked.value];
        }
      }
      assert us[..|us|] == us;
      return Done;
    }

    /** The input messages of one saved section, appended block by block. */
    method AppendSectionInput(role: Role, blocks: seq<SavedBlock>)
      modifies this`input
      ensures input == old(input) + SectionInput(role, blocks)
    {
      for j := 0 to |blocks|
        invariant input == old(input) + SectionInput(role, blocks[..j])
      {
        SectionInputNext(role, blocks, j);
        input := input + [Message(role, blocks[j].content)];
      }
      assert blocks[..|blocks|] == blocks;
    }

    /**
     * The history half of `__init__`: the `.zip` test, then one section per saved
     * section and one input message per saved block. `saved` is the parsed archive.
     */
    method LoadHistory(history: string, saved: seq<SavedSection>) returns (outcome: Outcome)
      modifies this`sections, this`input
      ensures outcome == CheckZip(history, HistoryNotZip)
      ensures outcome.Done? ==>
        sections == old(sections) + RestoredSections(saved) && input == old(input) + RestoredInput(saved)
      ensures outcome.Raised? ==> sections == old(sections) && input == old(input)
    {
      if !EndsWith(history, ".zip") {
        return Raised(ValueError(HistoryNotZip));
      }
      ghost var sections0, input0 := sections, input;
      for i := 0 to |saved|
        invariant sections == sections0 + RestoredSections(saved[..i])
        invariant input == input0 + RestoredInput(saved[..i])
      {
        RestoreNext(saved, i);
        var section := saved[i];
        var blocks := RestoreBlocks(section.blocks);
        sections := sections + [Container(section.role, blocks, [])];
        AppendSectionInput(section.role, section.blocks);
      }
      assert saved[..|saved|] == saved;
      return Done;
    }
  }
}
