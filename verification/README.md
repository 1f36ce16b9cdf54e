# streamlit-openai chat drivers, modelled in Dafny

streamlit-openai puts a chat UI in front of OpenAI's APIs. Each of its driver classes keeps three kinds of state:

- the messages or input entries it will send;
- the list of tools it advertises;
- the list of UI sections ("containers") it renders.

Each driver feeds the user's prompt to the remote API. It consumes the stream of events that comes back, turning it into appends to those lists, updates of small dictionaries and string concatenations. This project models that bookkeeping for five pieces of code:

- **`Chat`**, the Responses-API driver in `streamlit_openai/chat.py` (module `ResponsesChat`). It covers:
  - the tool list and welcome message built at construction;
  - the two-pass `respond` state machine (text, code, image and download routing, the sandbox-link rewrite, function calls collected by name, `function_call_output` entries, at most one follow-up request);
  - `handle_files`;
  - `TrackedFile`'s suffix-based routing;
  - the `.zip` checks;
  - rebuilding sections and input from parsed history data.
- **`ChatCompletions`** in `streamlit_openai/chat_completions.py` (module `CompletionsChat`):
  - the initial message list;
  - `respond`, `_respond1` and `_respond2`, including the tool-call fragment accumulator and the tool-message pairs;
  - `handle_files`.
- **`Assistants`** and its `EventHandler` in `streamlit_openai/assistants.py` (module `AssistantsChat`):
  - the tool list, and creating or retrieving the assistant;
  - `respond`;
  - annotation stripping, tool-call deltas and image files;
  - tool outputs for `requires_action`;
  - `handle_files`.
- **`Responses`** and its `TrackedFile` in `streamlit_openai/responses.py` (module `ResponsesPrototype`):
  - construction;
  - `respond`, which accumulates the deltas into the reply;
  - the exactly-one-source check;
  - the `file_search` merge.
- **The draft `EventHandler.on_text_delta`** in the root `utils.py` (module `DraftHandler`): block coalescing, citation links and saved files.

Several modules are shared between drivers:

- `Strings`: Python's `str.replace`, `endswith`, `in`, `os.path.basename` and `Path.suffix`.
- `Common`: exceptions, roles, containers and custom functions.
- `OrderedDicts`: insertion-ordered `dict` semantics.
- `SandboxLinks`: the line-177 regular expression, as a scanner.
- `UploadTracking`: the upload and removal reconciliation in `handle_files`.
- `ResponsesTools`: Responses-API tools and the `file_search` merge.

How the model is built:

- **Stateful objects are classes.** Each driver class's fields are `seq` fields that its methods reassign. Every method is proved against a pure function of the old state (`Respond` against `RespondTurn`, `Reply`, …). The properties the source promises are lemmas about those functions.
- **Remote calls are inputs.** The event or chunk sequences of each request, returned ids and downloaded bytes are parameters. So are `json.loads` followed by the handler, seen as a function from the argument string to the result string. Each request a driver issues is logged in a `requests`/`posted`/`submissions` field, so its arguments can be stated.
- **The `.utils` display classes.** `Section`, `Container` and `Block` from the package's `utils` module are not part of this model, so their block coalescing is not invented. Each container records, in order:
  - every `update_and_stream(category, content)` as `Streamed`;
  - the line-177 reassignment as `LinksRewritten`;
  - a bare `stream()` as `Redrawn`.
- **Escaping exceptions** are an `Outcome`/`Result`. A method that raises stops where the source stops.

`TrackedFile` in chat.py checks code-interpreter, then file-search, then vision suffixes, in that order.

## Model

| member | source | states |
|---|---|---|
| ResponsesChat.FunctionTools | streamlit_openai/chat.py:107-114 | one `function` tool per custom function, in the functions' order, carrying its definition |
| ResponsesChat.InitialToolsOrder | streamlit_openai/chat.py:102-117 | the tools are the code-interpreter tool (only when a container was created), then one function tool per function in order, then the `file_search` tool with the given ids; a `file_search` tool exists iff ids were given, and there is at most one |
| ResponsesChat.BuildTools | streamlit_openai/chat.py:102-117 | the appends in `__init__` produce exactly that tool list |
| ResponsesChat.Chat.constructor | streamlit_openai/chat.py:75-124 | instructions default to "", a container id exists only when the code interpreter is allowed, the tools are as above, a welcome message adds one assistant input entry and one assistant section holding one text block, and nothing else is pending |
| ResponsesChat.Chat.TrackInitialFiles | streamlit_openai/chat.py:127-130 | the initial files are tracked one by one, in order, the `k`-th file tracked by the chat receiving the `k`-th set of service ids, and the first one refused stops the loop with its error; the tools keep at most one `file_search` tool |
| ResponsesChat.CheckZip | streamlit_openai/chat.py:134-135 | the check passes iff the path ends with `.zip`; otherwise it raises `ValueError` with the given message (the same check guards `save` at lines 274-275) |
| ResponsesChat.RestoredBlocksAt | streamlit_openai/chat.py:145 | restored block j is saved block j: same category and same content (the function keeps the count) |
| ResponsesChat.RestoreBlocks | streamlit_openai/chat.py:145 | the comprehension builds exactly those blocks |
| ResponsesChat.RestoredSectionsAt | streamlit_openai/chat.py:141-146 | restored section j has saved section j's role and its restored blocks, and no attached files |
| ResponsesChat.RestoredInputMatchesSections | streamlit_openai/chat.py:141-151 | the rebuilt input holds exactly one entry per block of the rebuilt sections, in order, with that section's role and that block's content |
| ResponsesChat.Chat.AppendSectionInput | streamlit_openai/chat.py:147-151 | the inner loop appends one input entry per saved block of the section and changes nothing else |
| ResponsesChat.Chat.LoadHistory | streamlit_openai/chat.py:133-151 | a history path not ending in `.zip` raises and changes nothing; otherwise the parsed sections and their input entries are appended after the existing ones |
| ResponsesChat.Chat.Respond | streamlit_openai/chat.py:157-215 | one call performs exactly the turn `RespondTurn` describes, on the whole state, and leaves the tracked files and the tools alone |
| ResponsesChat.RespondOpensOneSection | streamlit_openai/chat.py:159-170 | a turn opens exactly one new, empty assistant section, keeps the earlier ones and the tools, and sends the old pending input followed by the user prompt as its first request |
| ResponsesChat.RespondRunsTools | streamlit_openai/chat.py:192-210 | a second request is sent iff some function call was collected and every handler was found; it carries the call outputs and the latest response id; a missing handler raises its error with the outputs made so far pending; a turn that ends normally leaves no pending input |
| ResponsesChat.RespondResponseId | streamlit_openai/chat.py:173-213 | the stored response id is the last completion's id over the passes actually consumed |
| ResponsesChat.LastResponseIdIsLastCompletion | streamlit_openai/chat.py:172-174 | the id after a stream is that of its last `response.completed` event |
| ResponsesChat.LastResponseIdWithoutCompletion | streamlit_openai/chat.py:172-174 | a stream without a `response.completed` event keeps the previous id |
| ResponsesChat.RespondStreams | streamlit_openai/chat.py:172-215 | the new section receives every text delta of the first stream and, when a second request was made, of the second; code deltas, downloads and images come from the first stream only |
| ResponsesChat.RespondLog | streamlit_openai/chat.py:172-215 | the new section's updates are those of the first pass, then those of the second pass when it ran |
| ResponsesChat.FirstPassAppends | streamlit_openai/chat.py:172-191 | the first pass only appends to the section's updates, and leaves the id of its last completion |
| ResponsesChat.FirstPassStreams | streamlit_openai/chat.py:175-191 | text, code, download and image updates are exactly the stream's text deltas, code deltas, non-file downloads and retrieved images, in order, and every text update is still followed by a link rewrite |
| ResponsesChat.FirstPassOpsStreams | streamlit_openai/chat.py:175-191 | the same four routings, stated for the updates of a whole stream |
| ResponsesChat.FirstOpsStreams | streamlit_openai/chat.py:175-191 | per event: a text delta streams text, a code delta streams code, and an annotation streams an image iff its file id is in the filename and the suffix is `.png`, `.jpg` or `.jpeg`, or a download iff the file id is not in the filename |
| ResponsesChat.FirstPassOpsRewrite | streamlit_openai/chat.py:176-177 | every text update of the first pass is immediately followed by the sandbox-link rewrite of the block |
| ResponsesChat.RewriteFollowsAppend | streamlit_openai/chat.py:176-177 | one event keeps the property that the link rewrite immediately follows each text update |
| ResponsesChat.FirstPassCollects | streamlit_openai/chat.py:180-181 | the calls the first pass leaves are those collected from its `function_call` items |
| ResponsesChat.CollectCallsKeys | streamlit_openai/chat.py:180-181 | a name is a key of the collected calls iff some `function_call` item carries it, and keys stay distinct |
| ResponsesChat.CollectCallsLastWins | streamlit_openai/chat.py:180-181 | the call stored under a name is the last item with that name |
| ResponsesChat.CollectCallsUncalled | streamlit_openai/chat.py:180-181 | a name no item carries keeps its earlier entry |
| ResponsesChat.CallToolsOutputs | streamlit_openai/chat.py:192-200 | one `function_call_output` per collected call, in dictionary order, with the call id and the result of the first function of that name; the first name without a function stops the loop with its error |
| ResponsesChat.CallToolsStops | streamlit_openai/chat.py:193-195 | once a lookup has failed, later calls produce nothing |
| ResponsesChat.SecondPassAppends | streamlit_openai/chat.py:211-215 | the second pass appends only text updates, records the last completion id, and keeps the collected calls |
| ResponsesChat.TextUpdatesAreText | streamlit_openai/chat.py:214-215 | every update of the second pass is a text update, and they are exactly its text deltas |
| ResponsesChat.SecondPassOnlyText | streamlit_openai/chat.py:211-215 | code deltas, annotations and function calls in the second stream are ignored: the earlier updates are kept and only text is added |
| ResponsesChat.Chat.UpdateLastSection | streamlit_openai/chat.py:176 | one update goes to the last section and the earlier sections are unchanged |
| ResponsesChat.Chat.StreamFirst | streamlit_openai/chat.py:172-191 | the first event loop performs exactly the first pass on the last section, the response id and the call dictionary |
| ResponsesChat.Chat.StreamSecond | streamlit_openai/chat.py:211-215 | the second event loop performs exactly the second pass |
| ResponsesChat.Chat.RunTools | streamlit_openai/chat.py:193-200 | the tool loop appends exactly the call outputs to the pending input and raises the first lookup error |
| ResponsesChat.TrackFileRoutes | streamlit_openai/chat.py:311-369 | anything but a path or an upload raises `ValueError`; otherwise the record keeps its source and lives at the resolved path (a local path) or in the temporary directory under the upload's name; it gets code-interpreter, file-search and vision data exactly when the suffix is in the matching extension list, each carrying the ids created for this call; there is one "File locally available at" entry first, then one `input_image` entry exactly when the vision data is set; the tools change only for a searchable file, whose new vector store then sits in the first `file_search` tool, and at most one `file_search` tool remains |
| ResponsesChat.Chat.NewTrackedFile | streamlit_openai/chat.py:301-369 | constructing a `TrackedFile` applies exactly that routing to the chat's input and tools, with the resolved path and the ids of this call, or raises and changes nothing; the tools keep at most one `file_search` tool |
| ResponsesChat.TrackedIdsOk | streamlit_openai/chat.py:267 | the list of tracked file ids exists iff every tracked file came from an upload; a path-sourced file makes it raise `AttributeError` |
| ResponsesChat.Chat.TrackedFileIds | streamlit_openai/chat.py:267 | the comprehension yields exactly that list or error |
| ResponsesChat.Chat.HandleFiles | streamlit_openai/chat.py:260-270 | `handle_files` performs exactly `FilesHandled` on input, tools and tracked files, and the tools keep at most one `file_search` tool |
| ResponsesChat.HandleUploadsTracksNew | streamlit_openai/chat.py:263-270 | when every tracked file came from an upload, exactly the uploads whose id is neither tracked nor carried by an earlier upload of the list are tracked, in list order, after the files tracked before |
| ResponsesChat.HandleUploadsRefusesPathFiles | streamlit_openai/chat.py:266-267 | with any path-sourced tracked file, a non-empty upload list raises `AttributeError` and changes nothing |
| ResponsesChat.TrackIntoKeepsOneFileSearch | streamlit_openai/chat.py:351-360 | tracking one file never creates a second `file_search` tool |
| ResponsesChat.TrackAllKeepsOneFileSearch | streamlit_openai/chat.py:127-130 | tracking the initial files never creates a second `file_search` tool |
| ResponsesChat.HandleUploadsKeepsOneFileSearch | streamlit_openai/chat.py:266-270 | handling uploads never creates a second `file_search` tool |
| ResponsesChat.MergeAsWrittenFailsOnceSearching | streamlit_openai/chat.py:351-360 | as written, the merge agrees with the intended merge while there is no `file_search` tool, and raises `AttributeError` as soon as there is one |
| ResponsesChat.SecondSearchableFileFails | streamlit_openai/chat.py:354-357 | a second searchable file raises as written, where the intended merge puts both vector stores in one tool |
| SandboxLinks.MatchAtSound | streamlit_openai/chat.py:177 | a match found at the start of a string is a well-formed `[label](sandbox:/mnt/data/path)` link, with an optional leading `!`, followed by the rest |
| SandboxLinks.MatchLink | streamlit_openai/chat.py:177 | every well-formed link (label without `]`, path without `)`) is recognised, with its label, path and rest |
| SandboxLinks.RewriteLink | streamlit_openai/chat.py:177 | a link is replaced by ``label (`path`)``, and the scan continues after it |
| SandboxLinks.RewriteWithoutLinks | streamlit_openai/chat.py:177 | content without the sandbox marker is unchanged |
| Common.LookupFunction | streamlit_openai/chat.py:194 | a handler found carries the name asked for; iterating no functions raises `TypeError`, and no other error than `TypeError` or `IndexError` is raised |
| Common.LookupFunctionFirst | streamlit_openai/chat.py:194 | with functions given, the lookup succeeds exactly when one of them has the name and returns the first such function; otherwise it raises `IndexError` |
| OrderedDicts.Put | streamlit_openai/chat.py:181 | assigning a key keeps insertion order: a new key goes last, an existing key keeps its place and takes the new value, and other keys are unchanged |
| ResponsesTools.FirstFileSearch | streamlit_openai/responses.py:146-150 | the position of the first `file_search` tool, or -1 when there is none |
| ResponsesTools.MergeFileSearch | streamlit_openai/responses.py:143-152 | with no `file_search` tool, a new one holding the id is appended at the end; otherwise the id is added to the first one only if absent and no other tool changes; either way the id ends up in the first `file_search` tool |
| ResponsesTools.JoinFileSearch | streamlit_openai/responses.py:143-152 | the `for … else` loop computes exactly that merge |
| ResponsesTools.MergeKeepsOneFileSearch | streamlit_openai/responses.py:143-152 | merging into a list with at most one `file_search` tool leaves exactly one, and keeps its ids distinct |
| ResponsesTools.TwoFilesShareOneTool | streamlit_openai/responses.py:143-152 | two searchable files tracked in turn share one `file_search` tool holding both ids, in order |
| ResponsesPrototype.InitialTools | streamlit_openai/responses.py:50-51 | the tools hold a single `file_search` tool with the given ids iff ids were given |
| ResponsesPrototype.Responses.constructor | streamlit_openai/responses.py:34-64 | a welcome message adds one assistant input entry and one assistant section; then the message files are tracked in order onto that input and those tools |
| ResponsesPrototype.Responses.TrackMessageFilesIn | streamlit_openai/responses.py:61-64 | the loop tracks each message file in order |
| ResponsesPrototype.TrackMessageFilesGrows | streamlit_openai/responses.py:61-64 | each message file adds, in order, one tracked file for that message file, living at its resolved path, whose vector store (if any) is the one created for that call, and one announcement of that resolved path; earlier entries are kept; at most one `file_search` tool remains, and one already in front keeps its place and its earlier ids as a prefix |
| ResponsesPrototype.Responses.Respond | streamlit_openai/responses.py:70-86 | one call performs exactly `RespondTurn` on the input, the sections and the request log |
| ResponsesPrototype.RespondTurnKeepsHistory | streamlit_openai/responses.py:71-86 | the input grows by the user prompt and one assistant entry, and is never cleared; one empty assistant section is added; the reply is exactly the text streamed into that section; the request carries the input up to the prompt |
| ResponsesPrototype.TextOpsShowReply | streamlit_openai/responses.py:81-86 | the section receives every text delta, in order, and their concatenation is the assistant reply |
| ResponsesPrototype.TextOpsOnlyText | streamlit_openai/responses.py:82-84 | events other than text deltas stream nothing |
| ResponsesPrototype.TrackFileChecks | streamlit_openai/responses.py:107-152 | exactly-one-of the two sources or `ValueError`; an upload raises; a message file gives a record of that file at its resolved path, with a vector store exactly when the suffix is searchable, and that store is the one created for this call; it adds one "File locally available at" entry; a non-searchable suffix leaves the tools unchanged; a searchable one puts its vector store in the first `file_search` tool, keeping at most one such tool |
| ResponsesPrototype.MergeKeepsFirstIds | streamlit_openai/responses.py:146-150 | merging into an existing `file_search` tool keeps its position and its earlier ids as a prefix |
| ResponsesPrototype.Responses.NewTrackedFile | streamlit_openai/responses.py:101-152 | constructing a `TrackedFile` applies exactly `TrackFile` to the chat's input and tools, or raises and changes nothing |
| CompletionsChat.Definitions | streamlit_openai/chat_completions.py:69-71 | one function tool per custom function, in order |
| CompletionsChat.BuildDefinitions | streamlit_openai/chat_completions.py:69-71 | the loop builds exactly those tools |
| CompletionsChat.InitialMessagesShape | streamlit_openai/chat_completions.py:63-90 | the messages start with exactly one developer message holding the developer text plus the instructions; a welcome message adds one assistant message; then one file message per message file, in order |
| CompletionsChat.FileMessagesAt | streamlit_openai/chat_completions.py:81-90 | one message per message file, in order, the `j`-th carrying the id of the `j`-th upload and "File uploaded: " with its basename |
| CompletionsChat.ChatCompletions.constructor | streamlit_openai/chat_completions.py:52-90 | the tools exist only when functions are given; the messages are the initial ones above; a welcome message adds one assistant container; nothing is tracked yet |
| CompletionsChat.AnnounceFiles | streamlit_openai/chat_completions.py:81-90 | the loop yields exactly one file message per path, in order, each with the id the service gave that file |
| CompletionsChat.ChatCompletions.Respond | streamlit_openai/chat_completions.py:171-178 | one call performs exactly the turn `Reply` describes |
| CompletionsChat.ReplyOpensOneContainer | streamlit_openai/chat_completions.py:171-178 | a turn appends the user message and the assistant stream message, opens exactly one empty assistant container, and sends the messages up to the prompt, with tools iff functions exist |
| CompletionsChat.ReplyResumes | streamlit_openai/chat_completions.py:110-169 | a second request, without tools, is made iff functions exist, the accumulator finished without error, some call was filed and every handler was found; the turn raises iff the accumulator or a lookup failed |
| CompletionsChat.ReplyStreams | streamlit_openai/chat_completions.py:106-169 | the container receives only text: on success, the first stream's contents and then, if it resumed, the second stream's |
| CompletionsChat.TextOpsStreams | streamlit_openai/chat_completions.py:106-108 | exactly the content deltas that are not `None` are streamed as text, in order, and nothing else |
| CompletionsChat.ChatCompletions.Respond1 | streamlit_openai/chat_completions.py:97-108 | `_respond1` logs one request without tools, appends the assistant stream message and streams the text into the last container |
| CompletionsChat.ChatCompletions.StreamText | streamlit_openai/chat_completions.py:106-108 | the loop streams exactly those text updates into the last container |
| CompletionsChat.ChatCompletions.UpdateLastContainer | streamlit_openai/chat_completions.py:108 | one text update goes to the last container and earlier containers are unchanged |
| CompletionsChat.ChatCompletions.Respond2 | streamlit_openai/chat_completions.py:110-169 | `_respond2`: container, messages, requests and outcome in each of its three cases (accumulator error or no calls, a missing handler, resumed) |
| CompletionsChat.ChatCompletions.Gather | streamlit_openai/chat_completions.py:120-136 | the chunk loop computes exactly the accumulator's log, filed calls and error |
| CompletionsChat.AccumulateStops | streamlit_openai/chat_completions.py:122-136 | after a `KeyError`, later chunks change nothing |
| CompletionsChat.SameNameMerges | streamlit_openai/chat_completions.py:128-136 | consecutive fragments of the same function merge into one record whose arguments grow by each fragment in turn, and nothing is filed |
| CompletionsChat.ArgumentsSinceStart | streamlit_openai/chat_completions.py:128-136 | a record started by a named fragment has that name and id, and its arguments are the concatenation of the fragments since it started |
| CompletionsChat.FinishFilesRecord | streamlit_openai/chat_completions.py:125-127 | a `tool_calls` finish files the current record under its name and resets it |
| CompletionsChat.FinishWithoutRecordFails | streamlit_openai/chat_completions.py:125-126 | a finish with no current record raises `KeyError` |
| CompletionsChat.FragmentWithoutRecordFails | streamlit_openai/chat_completions.py:128-136 | an unnamed fragment with no current record raises `KeyError` |
| CompletionsChat.UnfinishedFilesNothing | streamlit_openai/chat_completions.py:125-127 | chunks without a finish file nothing |
| CompletionsChat.OverwriteLosesRecord | streamlit_openai/chat_completions.py:129-135 | a differently named fragment replaces an unfinished record, which is never filed |
| CompletionsChat.AccumulateStreams | streamlit_openai/chat_completions.py:123-124 | without error, the container receives exactly the chunks' contents as text |
| CompletionsChat.ToolMessagesPaired | streamlit_openai/chat_completions.py:137-157 | each filed call gets its `tool_calls` message followed by the `tool` message with the same id and the handler's result, in dictionary order; the first name without a function raises `IndexError` right after its `tool_calls` message |
| CompletionsChat.ChatCompletions.AnswerCalls | streamlit_openai/chat_completions.py:138-157 | the loop appends exactly those messages and reports that error |
| CompletionsChat.ChatCompletions.HandleFiles | streamlit_openai/chat_completions.py:193-216 | `None` changes nothing; otherwise the new uploads are tracked and `remove()` is called on exactly the stale files |
| UploadTracking.TrackUploads | streamlit_openai/chat_completions.py:199-204 | the loop tracks exactly the new uploads after the tracked files |
| UploadTracking.NewUploadsTrackOnce | streamlit_openai/chat_completions.py:199-204 | the new uploads come from the list, carry distinct ids that were not tracked, and afterwards every listed id is tracked |
| UploadTracking.NewUploadsIdempotent | streamlit_openai/chat_completions.py:199-204 | a list whose ids are all tracked adds nothing |
| UploadTracking.TrackedIdsOf | streamlit_openai/chat_completions.py:200 | the comprehension yields the tracked files' ids in order |
| UploadTracking.StaleFiles | streamlit_openai/chat_completions.py:207-216 | the removal loop selects exactly the stale positions |
| UploadTracking.RemovalsExact | streamlit_openai/chat_completions.py:207-216 | `remove()` is called on exactly the tracked files that are not yet removed and whose id is absent from the list, each once, in order |
| AssistantsChat.FunctionEntries | streamlit_openai/assistants.py:62-64 | one function entry per custom function, in order |
| AssistantsChat.ToolListShape | streamlit_openai/assistants.py:56-64 | no tool list iff nothing is enabled; otherwise `file_search` first if enabled, `code_interpreter` next if enabled, then one function entry per function, in order |
| AssistantsChat.BuildToolList | streamlit_openai/assistants.py:56-64 | the appends build exactly that list |
| AssistantsChat.Assistants.constructor | streamlit_openai/assistants.py:42-74 | the tool list as above; the assistant is created with name, model and tools when no id is given, and retrieved by id otherwise; nothing is pending |
| AssistantsChat.Assistants.Respond | streamlit_openai/assistants.py:89-103 | one call performs exactly the turn `Reply` describes |
| AssistantsChat.ReplyBookkeeping | streamlit_openai/assistants.py:89-103 | the prompt is posted and a fresh assistant container becomes current; it is appended to the containers only when the stream completes, which happens iff every required action finds its handlers |
| AssistantsChat.ReplyStreams | streamlit_openai/assistants.py:97-103 | on success, the appended container received every event's updates, and one tool-output submission was made per required action |
| AssistantsChat.Assistants.HandleFiles | streamlit_openai/assistants.py:105-128 | `None` returns before the removal loop; otherwise the new uploads are tracked and `remove()` is called on exactly the stale files |
| AssistantsChat.EventHandler.constructor | streamlit_openai/assistants.py:140-142 | the handler holds the chat it writes to |
| AssistantsChat.EventHandler.UpdateAndStream | streamlit_openai/assistants.py:161 | one update goes to the chat's current container |
| AssistantsChat.EventHandler.OnTextDelta | streamlit_openai/assistants.py:144-149 | the annotation loop applies exactly `TextUpdate` to the current container |
| AssistantsChat.TextUpdateOnce | streamlit_openai/assistants.py:144-149 | an empty or missing value changes nothing; otherwise exactly one text update, no longer than the delta, and equal to it when no annotation text occurs in it |
| AssistantsChat.StripShortens | streamlit_openai/assistants.py:147-148 | removing the annotations' texts never lengthens the delta |
| AssistantsChat.StripAbsent | streamlit_openai/assistants.py:147-148 | annotations whose text does not occur leave the delta unchanged |
| AssistantsChat.StripOrderMatters | streamlit_openai/assistants.py:147-148 | annotations are removed in order, and the order changes the result |
| AssistantsChat.EventHandler.OnToolCallDelta | streamlit_openai/assistants.py:151-156 | the current container receives exactly `ToolDeltaUpdate` |
| AssistantsChat.ToolDeltaUpdateCases | streamlit_openai/assistants.py:151-156 | code is streamed iff the delta is a code-interpreter delta with non-empty input; a function delta only redraws |
| AssistantsChat.ToolOutputsPaired | streamlit_openai/assistants.py:172-177 | outputs exist iff every call's function is found, and then there is exactly one per call, in order, with its id and handler result; otherwise the error is the first failing lookup's |
| AssistantsChat.EventHandler.HandleRequiresAction | streamlit_openai/assistants.py:172-178 | the loop submits exactly those outputs for the run, or raises the lookup error and submits nothing |
| AssistantsChat.EventHandler.OnEvent | streamlit_openai/assistants.py:180-183 | one event performs exactly one step of `Handle` on the current container and the submissions |
| AssistantsChat.EventOpsStreams | streamlit_openai/assistants.py:144-161 | per event, the payloads each category receives |
| AssistantsChat.HandleStreams | streamlit_openai/assistants.py:144-161 | when handling succeeds, each category receives the payloads of all events, in order |
| AssistantsChat.HandleSubmits | streamlit_openai/assistants.py:163-178 | when handling succeeds, one submission is made per required action, in order |
| AssistantsChat.HandleFails | streamlit_openai/assistants.py:172-183 | handling fails iff some required action names a function that is not found |
| DraftHandler.EventHandler.constructor | utils.py:6-7 | the handler starts with the given container and quotation-mark setting |
| DraftHandler.EventHandler.OnTextDelta | utils.py:9-25 | the method performs exactly the delta as written, including its failure on a lazily created container |
| DraftHandler.DeltaShape | utils.py:12-25 | a new empty text block is opened iff the blocks are empty or the last one is not text; afterwards the last block is text and earlier blocks are unchanged; with quotation marks shown, the last block grows by the rewritten delta and the files by the saved ones, and otherwise nothing grows |
| DraftHandler.RewriteWithoutCitations | utils.py:16-19 | without file citations the delta is unchanged |
| DraftHandler.RewriteAbsent | utils.py:16-19 | citations whose text does not occur leave the delta unchanged |
| DraftHandler.SavedKeys | utils.py:20-24 | a name is saved iff it was saved before or is the basename of some `file_path` annotation's file |
| DraftHandler.SavedUntouched | utils.py:20-24 | a saved file no annotation names keeps its bytes |
| DraftHandler.SavedLastWins | utils.py:20-24 | a name holds the content of the last `file_path` annotation with that basename |
| DraftHandler.FirstDeltaRaisesAsWritten | utils.py:10-13 | as written, the first delta creates an assistant container whose block list is `None`, and the append then raises |
| DraftHandler.FirstDeltaIntended | utils.py:10-13 | with an empty block list, the first delta yields one assistant container holding one text block with the rewritten delta (or empty text when quotation marks are off) |
| Strings.BasenameIsLastComponent | streamlit_openai/chat_completions.py:88 | `Basename`, modelling `os.path.basename`, is a tail of the path containing no `/`, preceded by a `/` whenever it is not the whole path, and the path itself when it has none |
| Strings.SuffixIsLastExtension | streamlit_openai/responses.py:126 | `Suffix`, modelling `Path.suffix`, is non-empty exactly when the last dot of the final component is neither its first nor its last character, and then the text from that dot, a tail of the component and of the path with no other dot |
| Strings.ReplaceAbsent | streamlit_openai/assistants.py:148 | `str.replace` leaves a string without the pattern unchanged |
| Strings.ReplaceLength | streamlit_openai/assistants.py:148 | `str.replace` changes the length by the pattern's occurrences times the length difference |
| Strings.RemovalCanLeaveOccurrence | streamlit_openai/assistants.py:148 | removing a pattern once can leave a new occurrence of it |

## Left out

- UI rendering: `run`, `write`, `st.chat_input`, `st.pills`, `st.rerun`, `st.markdown`, `st.info`, avatars and placeholders. So are the user section that `run` appends before `respond` (chat.py:236-239, chat_completions.py:188-190, assistants.py:84-86, responses.py:95-97) and the example-message pills.
- OpenAI client calls are inputs. These include response and completion streams, thread and run streams, assistant create and retrieve, file, container and vector-store creation, and content retrieval. Each is an event sequence, an id function or a byte function. The API key, the client and the thread are not modelled.
- The vector-store polling loops (chat.py:346-350, responses.py:138-142) have no termination argument. They are taken as an external wait, and the vector store id is an input.
- `json.loads` followed by the handler call is one opaque function from the argument string to the result. `str(result)` is not modelled separately.
- Temperature is a float that is only passed through, so it is left out of the logged requests. The model name is left out of the logged requests too.
- Zip, JSON and tempfile I/O in `save` and in history loading are left out. Only the `.zip` checks and the rebuild from already-parsed sections are modelled. `save` writes the key `"Sections"` (chat.py:277) while loading reads `"sections"` (chat.py:141). The archive directory also differs (basename at chat.py:287, full path at chat.py:139). So no save/load round trip is claimed.
- `TrackedFile.to_openai()` and `remove()` in chat_completions.py and assistants.py belong to a `TrackedFile` class from the `streamlit_openai/utils` module, which is not part of this model. A `remove()` call is recorded as the tracked file's position in `removeCalls`, and `to_openai()` is not modelled.
- `Section`, `Container` and `Block` from the same module are not part of this model. Their coalescing of updates into blocks is not modelled; updates are recorded in a log.
- chat_completions.py and assistants.py read `function.definition` and call `function.function`. The `CustomFunction` shown in streamlit_openai/utils.py has neither. Both drivers are modelled with that record's `spec` (name, description, parameters) and `handler`.
- The follow-up stream that `submit_tool_outputs` opens (assistants.py:163-170) uses a fresh `EventHandler`, which writes to the same current container. Its events are modelled as part of the one event sequence of the run, so nested runs are flattened.
- `self.vector_store_ids` is put into the tool itself (responses.py:51, chat.py:117), so a later merge appends to the caller's list as well. The model copies the list, and this aliasing is not captured.
- `Path(...).resolve()` is an uninterpreted function `resolve` from path to path (`Env.resolve` in chat.py, a parameter in responses.py), and the temporary directory is a plain string.
- Ids the service hands out are numbered by call. In chat.py the `k`-th `TrackedFile` the chat creates receives `Env.remote(k)`: its own code-interpreter, file-search and vision file ids and its own vector store. In responses.py the `k`-th tracked message file receives vector store `vectorStores(k)`, and in chat_completions.py the `k`-th message file upload receives `fileIds(k)`. Uploading the same path twice therefore yields distinct ids, as the service would; the ids themselves are not modelled further.
- In the draft handler (utils.py), `self.container`, `show_quotation_marks` and `code_interpreter_files` are never initialised; they are constructor arguments. The remote file lookups are a parameter `Remote`. The draft's `Chat` class (utils.py:27-44) only creates a client, a thread and a stream, and is left out.
- `__repr__` methods, the `last_section`/`last_container` properties as separate members, `streamlit_openai/__main__.py` (remote clean-up commands) and `streamlit_openai/functions.py` (an image-generation wrapper) are not part of this model.
- The Chat constructor is split into the constructor and `TrackInitialFiles` and `LoadHistory`, which callers run in that order.

## Findings

| source | as written | input that shows it | evidently intended | confidence | as-written member | corrected member |
|---|---|---|---|---|---|---|
| streamlit_openai/chat.py:356 | `TrackedFile` reads `self.vector_store.id`, an attribute it never sets, whenever a `file_search` tool already exists | a chat with the code interpreter enabled that tracks two searchable files, `a.txt` then `b.txt`: the first appends a new `file_search` tool, the second raises `AttributeError` | use the local `vector_store`, adding its id to the first `file_search` tool if absent, as responses.py:148-149 does | high, not executed | ResponsesChat.MergeFileSearchAsWritten, ResponsesChat.SecondSearchableFileFails | ResponsesTools.MergeFileSearch, ResponsesTools.TwoFilesShareOneTool |
| utils.py:10-13 | the lazily created `Container("assistant")` keeps its `blocks=None` default, so `self.container.blocks.append(...)` raises | the first text delta when `self.container` is `None` | create the container with an empty block list, so the first delta opens a text block | high, not executed | DraftHandler.DeltaAsWritten, DraftHandler.FirstDeltaRaisesAsWritten | DraftHandler.DeltaIntended, DraftHandler.FirstDeltaIntended |
