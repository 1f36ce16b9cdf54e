/**
 * The Assistants-API driver of streamlit_openai/assistants.py: the tool list built by
 * `Assistants.__init__`, the container bookkeeping of `respond`, the reconciliation in
 * `handle_files`, and the `EventHandler` callbacks that turn a run's event stream into
 * container updates and tool-output submissions.
 *
 * The handler reaches the chat through `st.session_state.chat`; here it holds the chat
 * explicitly. `submit_tool_outputs` opens a follow-up stream with a fresh handler whose
 * container is the same `chat.current_container`, so the follow-up stream's events are
 * modelled as the continuation of the one event sequence given to `respond`.
 */
module AssistantsChat {

  import opened Common
  import opened Strings
  import opened UploadTracking

  /** One entry of the assistant's tool list. */
  datatype AssistantTool =
    | SearchFiles                        // {"type": "file_search"}
    | InterpretCode                      // {"type": "code_interpreter"}
    | CallFunction(spec: FunctionSpec)   // {"type": "function", "function": definition}

  /** One function entry per custom function, in order. */
  function FunctionEntries(fs: seq<CustomFunction>): (ts: seq<AssistantTool>)
    ensures |ts| == |fs|
    ensures forall j :: 0 <= j < |fs| ==> ts[j] == CallFunction(fs[j].spec)
    decreases |fs|
  {
    if fs == [] then [] else FunctionEntries(fs[..|fs| - 1]) + [CallFunction(fs[|fs| - 1].spec)]
  }

  /** `self.tools` as `__init__` leaves it. */
  function ToolList(fileSearch: bool, codeInterpreter: bool, functions: Option<seq<CustomFunction>>)
    : Option<seq<AssistantTool>>
  {
    if !fileSearch && !codeInterpreter && functions.None? then None
    else Some((if fileSearch then [SearchFiles] else [])
      + (if codeInterpreter then [InterpretCode] else [])
      + (if functions.Some? then FunctionEntries(functions.value) else []))
  }

  /**
   * The tool list exists iff some tool is enabled; it then holds the `file_search`
   * entry first (iff enabled), the `code_interpreter` entry next (iff enabled), and one
   * function entry per function after them, in order.
   */
  lemma {:induction false} ToolListShape(fileSearch: bool, codeInterpreter: bool, functions: Option<seq<CustomFunction>>)
    ensures var r := ToolList(fileSearch, codeInterpreter, functions);
      && (r.None? <==> !fileSearch && !codeInterpreter && functions.None?)
      && (r.Some? ==>
        var fs := if functions.Some? then functions.value else [];
        var k := (if fileSearch then 1 else 0) + (if codeInterpreter then 1 else 0);
        && |r.value| == k + |fs|
        && (SearchFiles in r.value <==> fileSearch)
        && (fileSearch ==> r.value[0] == SearchFiles)
        && (InterpretCode in r.value <==> codeInterpreter)
        && (codeInterpreter ==> r.value[k - 1] == InterpretCode)
        && forall j :: 0 <= j < |fs| ==> r.value[k + j] == CallFunction(fs[j].spec))
  {
    var r := ToolList(fileSearch, codeInterpreter, functions);
    if r.Some? {
      var fs := if functions.Some? then functions.value else [];
      var a: seq<AssistantTool> := if fileSearch then [SearchFiles] else [];
      var b: seq<AssistantTool> := if codeInterpreter then [InterpretCode] else [];
      var c := FunctionEntries(fs);
      assert r.value == a + b + c;
      assert SearchFiles !in c && InterpretCode !in c by {
        forall j | 0 <= j < |c| ensures c[j].CallFunction? {}
      }
      assert SearchFiles !in b && InterpretCode !in a;
    }
  }

  /** Lines 56-64: the list is opened when needed and grown by appends. */
  method BuildToolList(fileSearch: bool, codeInterpreter: bool, functions: Option<seq<CustomFunction>>)
    returns (tools: Option<seq<AssistantTool>>)
    ensures tools == ToolList(fileSearch, codeInterpreter, functions)
  {
    var list: seq<AssistantTool> := [];
    if fileSearch {
      list := list + [SearchFiles];
    }
    if codeInterpreter {
      list := list + [InterpretCode];
    }
    ghost var front := list;
    assert front == (if fileSearch then [SearchFiles] else []) + (if codeInterpreter then [InterpretCode] else []);
    if functions.Some? {
      var fs := functions.value;
      assert front + FunctionEntries(fs[..0]) == front;
      for i := 0 to |fs|
        invariant list == front + FunctionEntries(fs[..i])
      {
        assert fs[..i + 1][..i] == fs[..i];
        list := list + [CallFunction(fs[i].spec)];
      }
      assert fs[..|fs|] == fs;
    } else {
      assert list == list + [];
    }
    assert list == front + (if functions.Some? then FunctionEntries(functions.value) else []);
    tools := if fileSearch || codeInterpreter || functions.Some? then Some(list) else None;
  }

  /** Which assistants-API call `__init__` issued. */
  datatype Setup =
    | Created(name: Option<string>, model: Option<string>, tools: Option<seq<AssistantTool>>)
    | Retrieved(assistantId: string)

  // ---------------------------------------------------------------------------
  // The run's event stream

  /** The part of a tool-call delta the handler looks at. */
  datatype ToolDelta =
    | FunctionDelta                        // delta.type == "function"
    | CodeDelta(input: Option<string>)     // delta.type == "code_interpreter"
    | OtherToolDelta                       // any other type, e.g. "file_search"

  datatype RequiredCall = RequiredCall(id: string, name: string, arguments: string)

  datatype ToolOutput = ToolOutput(toolCallId: string, output: string)

  /** One `submit_tool_outputs` call: the run it continues and the outputs it carries. */
  datatype Submission = Submission(runId: string, outputs: seq<ToolOutput>)

  /** The events a run stream delivers to the handler; annotations are given by their text. */
  datatype RunEvent =
    | TextDelta(value: Option<string>, annotations: Option<seq<string>>)
    | ToolCallDelta(delta: ToolDelta)
    | ImageFileDone(fileId: string)
    | RequiresAction(runId: string, calls: seq<RequiredCall>)
    | OtherEvent

  /** `delta.value.replace(annotation.text, "")` for each annotation, in order. */
  function Strip(value: string, annotations: seq<string>): string
    decreases |annotations|
  {
    if annotations == [] then value else Strip(Replace(value, annotations[0], ""), annotations[1..])
  }

  /** Stripping never lengthens the text. */
  lemma {:induction false} StripShortens(value: string, annotations: seq<string>)
    ensures |Strip(value, annotations)| <= |value|
    decreases |annotations|
  {
    if annotations != [] {
      RemoveShortens(value, annotations[0]);
      StripShortens(Replace(value, annotations[0], ""), annotations[1..]);
    }
  }

  /** A text in which no annotation's (non-empty) text occurs comes back unchanged. */
  lemma {:induction false} StripAbsent(value: string, annotations: seq<string>)
    requires forall j :: 0 <= j < |annotations| ==> annotations[j] != [] && !Contains(value, annotations[j])
    ensures Strip(value, annotations) == value
    decreases |annotations|
  {
    if annotations != [] {
      ReplaceAbsent(value, annotations[0], "");
      StripAbsent(value, annotations[1..]);
    }
  }

  /**
   * The annotations are processed in order, and the order matters: removing "b"
   * first lets "ac" be found, removing "ac" first does not.
   */
  lemma {:induction false} StripOrderMatters()
    ensures Strip("abc", ["b", "ac"]) == ""
    ensures Strip("abc", ["ac", "b"]) == "ac"
  {
    assert Replace("", "b", "") == "";
    assert Replace("c", "b", "") == "c";
    assert "bc"[1..] == "c";
    assert Replace("bc", "b", "") == "c";
    assert Replace("abc", "b", "") == "ac";
    assert Replace("", "ac", "") == "";
    assert "ac"[2..] == "";
    assert Replace("ac", "ac", "") == "";
    assert ["b", "ac"][1..] == ["ac"];
    assert ["ac"][1..] == [];
    assert Replace("c", "ac", "") == "c";
    assert "bc"[..2] == "bc";
    assert Replace("bc", "ac", "") == "bc";
    assert "abc"[..2] == "ab";
    assert Replace("abc", "ac", "") == "abc";
    assert ["ac", "b"][1..] == ["b"];
    assert ["b"][1..] == [];
  }

  function AnnotationTexts(annotations: Option<seq<string>>): seq<string> {
    if annotations.Some? then annotations.value else []
  }

  /** The container updates of `on_text_delta`. */
  function TextUpdate(value: Option<string>, annotations: Option<seq<string>>): seq<ContainerOp> {
    if value.None? || value.value == [] then []
    else [Streamed(Text, Chars(Strip(value.value, AnnotationTexts(annotations))))]
  }

  /**
   * An empty or missing value changes nothing; otherwise there is exactly one text
   * update, never longer than the delta, and equal to it when no annotation occurs.
   */
  lemma {:induction false} TextUpdateOnce(value: Option<string>, annotations: Option<seq<string>>)
    ensures var ops := TextUpdate(value, annotations);
      && (ops == [] <==> value.None? || value.value == [])
      && (ops != [] ==>
        && |ops| == 1 && ops[0].Streamed? && ops[0].category == Text && ops[0].content.Chars?
        && |ops[0].content.text| <= |value.value|
        && ((forall a :: a in AnnotationTexts(annotations) ==> a != [] && !Contains(value.value, a)) ==>
              ops[0].content.text == value.value))
  {
    if value.Some? && value.value != [] {
      var anns := AnnotationTexts(annotations);
      StripShortens(value.value, anns);
      if forall a :: a in anns ==> a != [] && !Contains(value.value, a) {
        assert forall j :: 0 <= j < |anns| ==> anns[j] in anns;
        StripAbsent(value.value, anns);
      }
    }
  }

  /** The container updates of `on_tool_call_delta`. */
  function ToolDeltaUpdate(d: ToolDelta): seq<ContainerOp> {
    match d
    case FunctionDelta => [Redrawn]
    case CodeDelta(input) => if input.Some? && input.value != [] then [Streamed(Code, Chars(input.value))] else []
    case OtherToolDelta => []
  }

  /** Only a code-interpreter delta with non-empty input streams code; a function delta only redraws. */
  lemma {:induction false} ToolDeltaUpdateCases(d: ToolDelta)
    ensures Streams(ToolDeltaUpdate(d), Code) != [] <==> d.CodeDelta? && d.input.Some? && d.input.value != []
    ensures Streams(ToolDeltaUpdate(d), Text) == [] && Streams(ToolDeltaUpdate(d), Image) == []
    ensures Redrawn in ToolDeltaUpdate(d) <==> d.FunctionDelta?
  {
    match d
    case FunctionDelta => StreamsSingle(Redrawn, Code); StreamsSingle(Redrawn, Text); StreamsSingle(Redrawn, Image);
    case CodeDelta(input) =>
      if input.Some? && input.value != [] {
        var op := Streamed(Code, Chars(input.value));
        StreamsSingle(op, Code); StreamsSingle(op, Text); StreamsSingle(op, Image);
      }
    case OtherToolDelta =>
  }

  /**
   * `handle_requires_action`: one output per required call, in order, from the first
   * function with the call's name; the first call whose lookup fails raises.
   */
  function ToolOutputs(functions: Option<seq<CustomFunction>>, calls: seq<RequiredCall>): Result<seq<ToolOutput>>
    decreases |calls|
  {
    if calls == [] then Ok([])
    else
      var n := |calls| - 1;
      var front := ToolOutputs(functions, calls[..n]);
      if front.Err? then front
      else
        var found := LookupFunction(functions, calls[n].name);
        if found.Err? then Err(found.error)
        else Ok(front.value + [ToolOutput(calls[n].id, found.value.handler(calls[n].arguments))])
  }

  /**
   * The outputs exist iff every call names a known function; they then pair up with
   * the calls one to one, each carrying its call's id and its handler's result. A
   * failure is the lookup error of the first call whose name is unknown.
   */
  lemma {:induction false} ToolOutputsPaired(functions: Option<seq<CustomFunction>>, calls: seq<RequiredCall>)
    ensures var r := ToolOutputs(functions, calls);
      && (r.Ok? <==> forall j :: 0 <= j < |calls| ==> LookupFunction(functions, calls[j].name).Ok?)
      && (r.Ok? ==> |r.value| == |calls| && forall j :: 0 <= j < |calls| ==>
            r.value[j] == ToolOutput(calls[j].id, LookupFunction(functions, calls[j].name).value.handler(calls[j].arguments)))
      && (r.Err? ==> exists k :: (0 <= k < |calls| && LookupFunction(functions, calls[k].name) == Err(r.error)
            && forall j :: 0 <= j < k ==> LookupFunction(functions, calls[j].name).Ok?))
  {
    ToolOutputsOkIff(functions, calls);
    if ToolOutputs(functions, calls).Ok? {
      ToolOutputsPairs(functions, calls);
    } else {
      ToolOutputsFirstError(functions, calls);
    }
  }

  /** The outputs exist exactly when every call names a known function. */
  lemma {:induction false} ToolOutputsOkIff(functions: Option<seq<CustomFunction>>, calls: seq<RequiredCall>)
    ensures ToolOutputs(functions, calls).Ok? <==>
      forall j :: 0 <= j < |calls| ==> LookupFunction(functions, calls[j].name).Ok?
    decreases |calls|
  {
    if calls != [] {
      var n := |calls| - 1;
      var init := calls[..n];
      ToolOutputsOkIff(functions, init);
      assert forall j :: 0 <= j < n ==> init[j] == calls[j];
    }
  }

  /** Successful outputs pair up with the calls one to one, in order. */
  lemma {:induction false} ToolOutputsPairs(functions: Option<seq<CustomFunction>>, calls: seq<RequiredCall>)
    requires ToolOutputs(functions, calls).Ok?
    ensures var outputs := ToolOutputs(functions, calls).value;
      && |outputs| == |calls|
      && forall j :: 0 <= j < |calls| ==>
        LookupFunction(functions, calls[j].name).Ok? &&
        outputs[j] == ToolOutput(calls[j].id, LookupFunction(functions, calls[j].name).value.handler(calls[j].arguments))
    decreases |calls|
  {
    if calls != [] {
      var n := |calls| - 1;
      var init := calls[..n];
      ToolOutputsPairs(functions, init);
      assert forall j :: 0 <= j < n ==> init[j] == calls[j];
    }
  }

  /** A failure is the lookup error of the first call whose name is unknown. */
  lemma {:induction false} ToolOutputsFirstError(functions: Option<seq<CustomFunction>>, calls: seq<RequiredCall>)
    requires ToolOutputs(functions, calls).Err?
    ensures exists k :: (0 <= k < |calls| && LookupFunction(functions, calls[k].name) == Err(ToolOutputs(functions, calls).error)
      && forall j :: 0 <= j < k ==> LookupFunction(functions, calls[j].name).Ok?)
    decreases |calls|
  {
    var n := |calls| - 1;
    var init := calls[..n];
    var front := ToolOutputs(functions, init);
    if front.Err? {
      ToolOutputsFirstError(functions, init);
      var k :| 0 <= k < n && LookupFunction(functions, init[k].name) == Err(front.error)
        && forall j :: 0 <= j < k ==> LookupFunction(functions, init[j].name).Ok?;
      assert init[k] == calls[k];
      forall j | 0 <= j < k
        ensures LookupFunction(functions, calls[j].name).Ok?
      {
        assert init[j] == calls[j];
      }
    } else {
      ToolOutputsOkIff(functions, init);
      assert LookupFunction(functions, calls[n].name) == Err(ToolOutputs(functions, calls).error);
      forall j | 0 <= j < n
        ensures LookupFunction(functions, calls[j].name).Ok?
      {
        assert init[j] == calls[j];
      }
    }
  }

  /** Once a call fails, the later calls are never looked at. */
  lemma {:induction false} ToolOutputsStops(functions: Option<seq<CustomFunction>>, calls: seq<RequiredCall>, i: nat)
    requires 0 < i <= |calls| && ToolOutputs(functions, calls[..i]).Err?
    ensures ToolOutputs(functions, calls) == ToolOutputs(functions, calls[..i])
    decreases |calls|
  {
    if i < |calls| {
      var n := |calls| - 1;
      assert calls[..n][..i] == calls[..i];
      ToolOutputsStops(functions, calls[..n], i);
    } else {
      assert calls[..i] == calls;
    }
  }

  /** What the handler has done so far: the container's updates, the submissions, and a raised error. */
  datatype Handling = Handling(log: seq<ContainerOp>, submitted: seq<Submission>, failure: Option<Error>)

  /** The container updates one event causes (a `requires_action` event causes none). */
  function EventOps(e: RunEvent, retrieve: string -> Bytes): seq<ContainerOp> {
    match e
    case TextDelta(value, annotations) => TextUpdate(value, annotations)
    case ToolCallDelta(d) => ToolDeltaUpdate(d)
    case ImageFileDone(fileId) => [Streamed(Image, Binary(retrieve(fileId)))]
    case RequiresAction(_, _) => []
    case OtherEvent => []
  }

  /** One event handled; after an error nothing more happens. */
  function Step(functions: Option<seq<CustomFunction>>, retrieve: string -> Bytes, h: Handling, e: RunEvent): Handling {
    if h.failure.Some? then h
    else if e.RequiresAction? then
      match ToolOutputs(functions, e.calls)
      case Ok(outputs) => h.(submitted := h.submitted + [Submission(e.runId, outputs)])
      case Err(error) => h.(failure := Some(error))
    else h.(log := h.log + EventOps(e, retrieve))
  }

  function Handle(functions: Option<seq<CustomFunction>>, retrieve: string -> Bytes, start: Handling, events: seq<RunEvent>)
    : Handling
    decreases |events|
  {
    if events == [] then start
    else Step(functions, retrieve, Handle(functions, retrieve, start, events[..|events| - 1]), events[|events| - 1])
  }

  lemma {:induction false} HandleStops(
    functions: Option<seq<CustomFunction>>, retrieve: string -> Bytes, start: Handling, events: seq<RunEvent>, i: nat)
    requires 0 < i <= |events| && Handle(functions, retrieve, start, events[..i]).failure.Some?
    ensures Handle(functions, retrieve, start, events) == Handle(functions, retrieve, start, events[..i])
    decreases |events|
  {
    if i < |events| {
      var n := |events| - 1;
      assert events[..n][..i] == events[..i];
      HandleStops(functions, retrieve, start, events[..n], i);
    } else {
      assert events[..i] == events;
    }
  }

  /**
   * The handler raises iff some `requires_action` event names an unknown function
   * (or arrives while `functions` is `None` and lists a call).
   */
  lemma {:induction false} HandleFails(
    functions: Option<seq<CustomFunction>>, retrieve: string -> Bytes, start: Handling, events: seq<RunEvent>)
    requires start.failure.None?
    ensures Handle(functions, retrieve, start, events).failure.None? <==>
      forall j :: 0 <= j < |events| && events[j].RequiresAction? ==> ToolOutputs(functions, events[j].calls).Ok?
    decreases |events|
  {
    if events != [] {
      var n := |events| - 1;
      HandleFails(functions, retrieve, start, events[..n]);
      assert forall j :: 0 <= j < n ==> events[..n][j] == events[j];
    }
  }

  /** What an event delivers under a category: an independent reading of the callbacks. */
  function Payloads(e: RunEvent, c: Category, retrieve: string -> Bytes): seq<Payload> {
    match e
    case TextDelta(value, annotations) =>
      if c == Text && value.Some? && value.value != [] then [Chars(Strip(value.value, AnnotationTexts(annotations)))] else []
    case ToolCallDelta(d) =>
      if c == Code && d.CodeDelta? && d.input.Some? && d.input.value != [] then [Chars(d.input.value)] else []
    case ImageFileDone(fileId) => if c == Image then [Binary(retrieve(fileId))] else []
    case RequiresAction(_, _) => []
    case OtherEvent => []
  }

  /** The payloads of a whole event sequence under a category, in order. */
  function AllPayloads(events: seq<RunEvent>, c: Category, retrieve: string -> Bytes): seq<Payload>
    decreases |events|
  {
    if events == [] then []
    else AllPayloads(events[..|events| - 1], c, retrieve) + Payloads(events[|events| - 1], c, retrieve)
  }

  lemma {:induction false} EventOpsStreams(e: RunEvent, c: Category, retrieve: string -> Bytes)
    ensures Streams(EventOps(e, retrieve), c) == Payloads(e, c, retrieve)
  {
    match e
    case TextDelta(value, annotations) =>
      if value.Some? && value.value != [] {
        StreamsSingle(TextUpdate(value, annotations)[0], c);
      }
    case ToolCallDelta(d) =>
      if d.FunctionDelta? {
        StreamsSingle(Redrawn, c);
      } else if d.CodeDelta? && d.input.Some? && d.input.value != [] {
        StreamsSingle(Streamed(Code, Chars(d.input.value)), c);
      }
    case ImageFileDone(fileId) => StreamsSingle(Streamed(Image, Binary(retrieve(fileId))), c);
    case RequiresAction(_, _) =>
    case OtherEvent =>
  }

  /**
   * A stream handled without error sends to the container, under each category,
   * exactly the payloads its events deliver, in event order: one stripped text per
   * non-empty text delta, one code text per non-empty code input, one image per
   * finished image file.
   */
  lemma {:induction false} HandleStreams(
    functions: Option<seq<CustomFunction>>, retrieve: string -> Bytes, start: Handling, events: seq<RunEvent>, c: Category)
    requires Handle(functions, retrieve, start, events).failure.None?
    ensures Streams(Handle(functions, retrieve, start, events).log, c) == Streams(start.log, c) + AllPayloads(events, c, retrieve)
    decreases |events|
  {
    if events != [] {
      var n := |events| - 1;
      var e := events[n];
      var h := Handle(functions, retrieve, start, events[..n]);
      HandleStreams(functions, retrieve, start, events[..n], c);
      if !e.RequiresAction? {
        StreamsAppend(h.log, EventOps(e, retrieve), c);
        EventOpsStreams(e, c, retrieve);
      }
    }
  }

  /** The submissions of a stream's `requires_action` events, in order, when all succeed. */
  function Submitted(functions: Option<seq<CustomFunction>>, events: seq<RunEvent>): seq<Submission>
    decreases |events|
  {
    if events == [] then []
    else
      var e := events[|events| - 1];
      Submitted(functions, events[..|events| - 1]) +
        (if e.RequiresAction? && ToolOutputs(functions, e.calls).Ok?
         then [Submission(e.runId, ToolOutputs(functions, e.calls).value)] else [])
  }

  /** A stream handled without error submits once per `requires_action` event, in order. */
  lemma {:induction false} HandleSubmits(
    functions: Option<seq<CustomFunction>>, retrieve: string -> Bytes, start: Handling, events: seq<RunEvent>)
    requires Handle(functions, retrieve, start, events).failure.None?
    ensures Handle(functions, retrieve, start, events).submitted == start.submitted + Submitted(functions, events)
    decreases |events|
  {
    if events != [] {
      var n := |events| - 1;
      HandleSubmits(functions, retrieve, start, events[..n]);
    } else {
      assert start.submitted + [] == start.submitted;
    }
  }

  // ---------------------------------------------------------------------------
  // One turn of `respond`

  datatype AssistantsState = AssistantsState(
    containers: seq<Container>, current: Option<Container>, posted: seq<string>, submissions: seq<Submission>)

  /**
   * `respond(prompt)`: the prompt is posted to the thread, a fresh assistant container
   * becomes current and receives the stream's updates, and it is appended to
   * `containers` only once the stream is done; an error escapes before that.
   */
  function Reply(
    s: AssistantsState, functions: Option<seq<CustomFunction>>, retrieve: string -> Bytes,
    prompt: string, events: seq<RunEvent>): (AssistantsState, Outcome)
  {
    var h := Handle(functions, retrieve, Handling([], s.submissions, None), events);
    var c := Container(Assistant, [], h.log);
    var t := s.(current := Some(c), posted := s.posted + [prompt], submissions := h.submitted);
    if h.failure.Some? then (t, Raised(h.failure.value)) else (t.(containers := s.containers + [c]), Done)
  }

  /**
   * `containers` grows by exactly one new assistant container iff the turn completes,
   * and the turn completes iff every required tool call names a known function; the
   * prompt is posted once either way.
   */
  lemma {:induction false} ReplyBookkeeping(
    s: AssistantsState, functions: Option<seq<CustomFunction>>, retrieve: string -> Bytes,
    prompt: string, events: seq<RunEvent>)
    ensures var (t, outcome) := Reply(s, functions, retrieve, prompt, events);
      && t.posted == s.posted + [prompt]
      && t.current.Some? && t.current.value.role == Assistant && t.current.value.blocks == []
      && (outcome.Done? ==> t.containers == s.containers + [t.current.value])
      && (outcome.Raised? ==> t.containers == s.containers)
      && (outcome.Done? <==>
        forall j :: 0 <= j < |events| && events[j].RequiresAction? ==> ToolOutputs(functions, events[j].calls).Ok?)
  {
    HandleFails(functions, retrieve, Handling([], s.submissions, None), events);
  }

  /**
   * After a completed turn, the appended container holds exactly the stream's payloads
   * under every category, and the submissions grew by one per `requires_action` event.
   */
  lemma {:induction false} ReplyStreams(
    s: AssistantsState, functions: Option<seq<CustomFunction>>, retrieve: string -> Bytes,
    prompt: string, events: seq<RunEvent>, c: Category)
    requires Reply(s, functions, retrieve, prompt, events).1.Done?
    ensures var t := Reply(s, functions, retrieve, prompt, events).0;
      && Streams(t.containers[|t.containers| - 1].log, c) == AllPayloads(events, c, retrieve)
      && t.submissions == s.submissions + Submitted(functions, events)
  {
    var start := Handling([], s.submissions, None);
    HandleStreams(functions, retrieve, start, events, c);
    HandleSubmits(functions, retrieve, start, events);
    assert Streams([], c) == [];
  }

  // ---------------------------------------------------------------------------
  // The driver

  class Assistants {
    const model: Option<string>
    const functions: Option<seq<CustomFunction>>
    const fileSearch: bool
    const codeInterpreter: bool
    const tools: Option<seq<AssistantTool>>
    const setup: Setup

    var containers: seq<Container>
    /** `current_container`: `None` until the first `respond`. */
    var currentContainer: Option<Container>
    var trackedFiles: seq<TrackedUpload>
    /** Positions in `trackedFiles` of the files `remove()` was called on, in call order. */
    var removeCalls: seq<nat>
    /** The prompts posted to the thread, in order. */
    var posted: seq<string>
    /** Every `submit_tool_outputs` call, in order. */
    var submissions: seq<Submission>

    function State(): AssistantsState
      reads this
    {
      AssistantsState(containers, currentContainer, posted, submissions)
    }

    /** `__init__`: the tool list, then creation of a new assistant or retrieval of a given one. */
    constructor(
      model: Option<string>, name: Option<string>, assistantId: Option<string>,
      functions: Option<seq<CustomFunction>>, fileSearch: bool, codeInterpreter: bool)
      ensures this.model == model && this.functions == functions
      ensures this.fileSearch == fileSearch && this.codeInterpreter == codeInterpreter
      ensures tools == ToolList(fileSearch, codeInterpreter, functions)
      ensures setup == if assistantId.None? then Created(name, model, tools) else Retrieved(assistantId.value)
      ensures containers == [] && currentContainer.None? && trackedFiles == [] && removeCalls == []
      ensures posted == [] && submissions == []
    {
      this.model := model;
      this.functions := functions;
      this.fileSearch := fileSearch;
      this.codeInterpreter := codeInterpreter;
      var built := BuildToolList(fileSearch, codeInterpreter, functions);
      tools := built;
      setup := if assistantId.None? then Created(name, model, built) else Retrieved(assistantId.value);
      containers := [];
      currentContainer := None;
      trackedFiles := [];
      removeCalls := [];
      posted := [];
      submissions := [];
    }

    /** `respond(prompt)`, with the run's events (and the follow-up streams' events) given in order. */
    method Respond(prompt: string, events: seq<RunEvent>, retrieve: string -> Bytes) returns (outcome: Outcome)
      modifies this`currentContainer, this`containers, this`posted, this`submissions
      ensures (State(), outcome) == Reply(old(State()), functions, retrieve, prompt, events)
    {
      currentContainer := Some(Empty(Assistant));
      posted := posted + [prompt];
      ghost var start := Handling([], submissions, None);
      var handler := new EventHandler(this);
      for i := 0 to |events|
        invariant var h := Handle(functions, retrieve, start, events[..i]);
          && h.failure.None?
          && currentContainer == Some(Container(Assistant, [], h.log))
          && submissions == h.submitted
        invariant containers == old(containers) && posted == old(posted) + [prompt]
      {
        assert events[..i + 1][..i] == events[..i];
        var failure := handler.OnEvent(events[i], retrieve);
        if failure.Some? {
          HandleStops(functions, retrieve, start, events, i + 1);
          return Raised(failure.value);
        }
      }
      assert events[..|events|] == events;
      containers := containers + [currentContainer.value];
      return Done;
    }

    /**
     * `handle_files(uploaded_files)`: nothing for `None`; otherwise every upload whose
     * id is not tracked yet is tracked, then `remove()` is called on each tracked file
     * that is not removed and whose id the list no longer carries.
     */
    method HandleFiles(uploads: Option<seq<Upload>>)
      modifies this`trackedFiles, this`removeCalls
      ensures uploads.None? ==> trackedFiles == old(trackedFiles) && removeCalls == old(removeCalls)
      ensures uploads.Some? ==>
        && trackedFiles == old(trackedFiles) + Track(NewUploads(TrackedIds(old(trackedFiles)), uploads.value))
        && removeCalls == old(removeCalls) + Removals(trackedFiles, UploadIds(uploads.value))
    {
      if uploads.None? {
        return;
      }
      trackedFiles := TrackUploads(trackedFiles, uploads.value);
      var stale := StaleFiles(trackedFiles, uploads.value);
      removeCalls := removeCalls + stale;
    }
  }

  /** `EventHandler`, holding the chat whose current container it updates. */
  class EventHandler {
    const chat: Assistants

    constructor(chat: Assistants)
      ensures this.chat == chat
    {
      this.chat := chat;
    }

    /** `current_container.update_and_stream(category, content)` */
    method UpdateAndStream(category: Category, content: Payload)
      requires chat.currentContainer.Some?
      modifies chat`currentContainer
      ensures chat.currentContainer ==
        Some(old(chat.currentContainer.value).(log := old(chat.currentContainer.value.log) + [Streamed(category, content)]))
    {
      var c := chat.currentContainer.value;
      chat.currentContainer := Some(c.(log := c.log + [Streamed(category, content)]));
    }

    method OnTextDelta(value: Option<string>, annotations: Option<seq<string>>)
      requires chat.currentContainer.Some?
      modifies chat`currentContainer
      ensures chat.currentContainer ==
        Some(old(chat.currentContainer.value).(log := old(chat.currentContainer.value.log) + TextUpdate(value, annotations)))
    {
      if value.Some? && value.value != [] {
        var v := value.value;
        if annotations.Some? {
          var anns := annotations.value;
          for i := 0 to |anns|
            invariant Strip(v, anns[i..]) == Strip(value.value, anns)
          {
            assert anns[i..][1..] == anns[i + 1..];
            v := Replace(v, anns[i], "");
          }
        }
        UpdateAndStream(Text, Chars(v));
      } else {
        assert chat.currentContainer.value.log + [] == chat.currentContainer.value.log;
      }
    }

    method OnToolCallDelta(d: ToolDelta)
      requires chat.currentContainer.Some?
      modifies chat`currentContainer
      ensures chat.currentContainer ==
        Some(old(chat.currentContainer.value).(log := old(chat.currentContainer.value.log) + ToolDeltaUpdate(d)))
    {
      var c := chat.currentContainer.value;
      if d.FunctionDelta? {
        chat.currentContainer := Some(c.(log := c.log + [Redrawn]));
      } else if d.CodeDelta? && d.input.Some? && d.input.value != [] {
        UpdateAndStream(Code, Chars(d.input.value));
      } else {
        assert c.log + [] == c.log;
      }
    }

    /** `handle_requires_action`, with its `submit_tool_outputs` call logged. */
    method HandleRequiresAction(runId: string, calls: seq<RequiredCall>) returns (failure: Option<Error>)
      modifies chat`submissions
      ensures var r := ToolOutputs(chat.functions, calls);
        && failure == (if r.Err? then Some(r.error) else None)
        && chat.submissions == old(chat.submissions) + (if r.Ok? then [Submission(runId, r.value)] else [])
    {
      var outputs: seq<ToolOutput> := [];
      for i := 0 to |calls|
        invariant ToolOutputs(chat.functions, calls[..i]) == Ok(outputs)
      {
        assert calls[..i + 1][..i] == calls[..i];
        var found := LookupFunction(chat.functions, calls[i].name);
        if found.Err? {
          ToolOutputsStops(chat.functions, calls, i + 1);
          assert chat.submissions + [] == chat.submissions;
          return Some(found.error);
        }
        outputs := outputs + [ToolOutput(calls[i].id, found.value.handler(calls[i].arguments))];
      }
      assert calls[..|calls|] == calls;
      chat.submissions := chat.submissions + [Submission(runId, outputs)];
      failure := None;
    }

    /** Dispatch of one event to the callback that handles it. */
    method OnEvent(e: RunEvent, retrieve: string -> Bytes) returns (failure: Option<Error>)
      requires chat.currentContainer.Some?
      modifies chat`currentContainer, chat`submissions
      ensures var h := Step(chat.functions, retrieve,
          Handling(old(chat.currentContainer.value.log), old(chat.submissions), None), e);
        && chat.currentContainer == Some(old(chat.currentContainer.value).(log := h.log))
        && chat.submissions == h.submitted && failure == h.failure
    {
      failure := None;
      match e
      case TextDelta(value, annotations) => OnTextDelta(value, annotations);
      case ToolCallDelta(d) => OnToolCallDelta(d);
      case ImageFileDone(fileId) => UpdateAndStream(Image, Binary(retrieve(fileId)));
      case RequiresAction(runId, calls) =>
        failure := HandleRequiresAction(runId, calls);
        assert chat.currentContainer.value.log + [] == chat.currentContainer.value.log;
      case OtherEvent =>
        assert chat.currentContainer.value.log + [] == chat.currentContainer.value.log;
    }
  }
}
