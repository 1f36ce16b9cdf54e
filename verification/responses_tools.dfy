/**
 * The tool list sent with every Responses-API request, shared by the driver in
 * streamlit_openai/chat.py and the earlier prototype in streamlit_openai/responses.py,
 * and the rule by which a newly indexed file joins the `file_search` tool
 * (streamlit_openai/responses.py:143-152).
 */
module ResponsesTools {

  import opened Common

  /** Suffixes indexed into a vector store for `file_search` (the same list in both drivers). */
  const FileSearchExtensions: seq<string> := [
    ".c", ".cpp", ".cs", ".css", ".doc", ".docx", ".go",
    ".html", ".java", ".js", ".json", ".md", ".pdf", ".php",
    ".pptx", ".py", ".rb", ".sh", ".tex", ".ts", ".txt"]

  datatype Tool =
    | CodeInterpreter(container: string)           // {"type": "code_interpreter", "container": id}
    | Function(spec: FunctionSpec)                 // {"type": "function", "name", "description", "parameters"}
    | FileSearch(vectorStoreIds: seq<string>)      // {"type": "file_search", "vector_store_ids": [...]}

  /** Index of the first `file_search` tool, or -1. */
  function FirstFileSearch(tools: seq<Tool>): (k: int)
    ensures -1 <= k < |tools|
    ensures k >= 0 ==> tools[k].FileSearch?
    ensures forall j :: 0 <= j < |tools| && (k < 0 || j < k) ==> !tools[j].FileSearch?
    decreases |tools|
  {
    if tools == [] then -1
    else
      var k := FirstFileSearch(tools[..|tools| - 1]);
      if k >= 0 then k else if tools[|tools| - 1].FileSearch? then |tools| - 1 else -1
  }

  /**
   * A vector store joins the file search: when no `file_search` tool exists (the list
   * may be empty) a new one holding only `id` is appended; otherwise `id` is appended
   * to the first such tool unless it is already there. No other tool changes.
   */
  function MergeFileSearch(tools: seq<Tool>, id: string): (r: seq<Tool>)
    ensures FirstFileSearch(tools) < 0 ==> r == tools + [FileSearch([id])]
    ensures FirstFileSearch(tools) >= 0 ==>
      var k := FirstFileSearch(tools);
      var ids := tools[k].vectorStoreIds;
      && |r| == |tools|
      && r[k] == FileSearch(if id in ids then ids else ids + [id])
      && forall j :: 0 <= j < |tools| && j != k ==> r[j] == tools[j]
    ensures FirstFileSearch(r) >= 0 && id in r[FirstFileSearch(r)].vectorStoreIds
  {
    var k := FirstFileSearch(tools);
    if k < 0 then
      assert FirstFileSearch(tools + [FileSearch([id])]) == |tools| by {
        assert (tools + [FileSearch([id])])[..|tools|] == tools;
      }
      tools + [FileSearch([id])]
    else
      var ids := tools[k].vectorStoreIds;
      var r := tools[k := FileSearch(if id in ids then ids else ids + [id])];
      FirstFileSearchIs(r, k);
      r
  }

  /**
   * The merge as both drivers' `for`/`else` loops perform it: scan for the first
   * `file_search` tool, extend it, and append a new tool when the scan finds none.
   */
  method JoinFileSearch(tools: seq<Tool>, id: string) returns (r: seq<Tool>)
    ensures r == MergeFileSearch(tools, id)
  {
    r := tools;
    if r == [] {
      r := r + [FileSearch([id])];
      return;
    }
    var k := 0;
    while k < |r|
      invariant 0 <= k <= |r| && r == tools
      invariant forall j :: 0 <= j < k ==> !r[j].FileSearch?
    {
      if r[k].FileSearch? {
        FirstFileSearchIs(r, k);
        var ids := r[k].vectorStoreIds;
        if id !in ids {
          r := r[k := FileSearch(ids + [id])];
        }
        return;
      }
      k := k + 1;
    }
    r := r + [FileSearch([id])];
  }

  /** The first `file_search` tool is the one with no `file_search` tool before it. */
  lemma {:induction false} FirstFileSearchIs(tools: seq<Tool>, k: nat)
    requires k < |tools| && tools[k].FileSearch?
    requires forall j :: 0 <= j < k ==> !tools[j].FileSearch?
    ensures FirstFileSearch(tools) == k
    decreases |tools|
  {
    if k < |tools| - 1 {
      FirstFileSearchIs(tools[..|tools| - 1], k);
    }
  }

  predicate Distinct(ids: seq<string>) {
    forall i, j :: 0 <= i < j < |ids| ==> ids[i] != ids[j]
  }

  /** How many `file_search` tools a list holds. */
  function FileSearchCount(tools: seq<Tool>): nat
    decreases |tools|
  {
    if tools == [] then 0
    else FileSearchCount(tools[..|tools| - 1]) + (if tools[|tools| - 1].FileSearch? then 1 else 0)
  }

  lemma {:induction false} FileSearchCountUpdate(tools: seq<Tool>, k: nat, t: Tool)
    requires k < |tools| && tools[k].FileSearch? && t.FileSearch?
    ensures FileSearchCount(tools[k := t]) == FileSearchCount(tools)
    decreases |tools|
  {
    var n := |tools| - 1;
    if k < n {
      FileSearchCountUpdate(tools[..n], k, t);
      assert tools[k := t][..n] == tools[..n][k := t];
    } else {
      assert tools[k := t][..n] == tools[..n];
    }
  }

  /**
   * Merging never creates a second `file_search` tool, and it keeps the vector-store
   * ids of the tool it extends free of duplicates.
   */
  lemma {:induction false} MergeKeepsOneFileSearch(tools: seq<Tool>, id: string)
    requires FileSearchCount(tools) <= 1
    ensures FileSearchCount(MergeFileSearch(tools, id)) == 1
    ensures FirstFileSearch(tools) >= 0 && Distinct(tools[FirstFileSearch(tools)].vectorStoreIds) ==>
      Distinct(MergeFileSearch(tools, id)[FirstFileSearch(tools)].vectorStoreIds)
  {
    var k := FirstFileSearch(tools);
    var r := MergeFileSearch(tools, id);
    if k < 0 {
      assert r[..|tools|] == tools;
      assert FileSearchCount(tools) == 0 by { NoFileSearchCount(tools); }
    } else {
      FileSearchCountUpdate(tools, k, r[k]);
      assert r == tools[k := r[k]];
      assert FileSearchCount(tools) >= 1 by { SomeFileSearchCount(tools, k); }
    }
  }

  lemma {:induction false} NoFileSearchCount(tools: seq<Tool>)
    requires forall j :: 0 <= j < |tools| ==> !tools[j].FileSearch?
    ensures FileSearchCount(tools) == 0
    decreases |tools|
  {
    if tools != [] {
      NoFileSearchCount(tools[..|tools| - 1]);
    }
  }

  lemma {:induction false} SomeFileSearchCount(tools: seq<Tool>, k: nat)
    requires k < |tools| && tools[k].FileSearch?
    ensures FileSearchCount(tools) >= 1
    decreases |tools|
  {
    if k < |tools| - 1 {
      SomeFileSearchCount(tools[..|tools| - 1], k);
    }
  }

  /**
   * Two files indexed one after the other, into a tool list that has no file search
   * yet, end up in a single `file_search` tool holding both vector stores in order.
   */
  lemma {:induction false} TwoFilesShareOneTool(tools: seq<Tool>, first: string, second: string)
    requires FirstFileSearch(tools) < 0 && first != second
    ensures MergeFileSearch(MergeFileSearch(tools, first), second) == tools + [FileSearch([first, second])]
  {
    var once := tools + [FileSearch([first])];
    MergeAppends(tools, first);
    MergeExtends(once, second, |tools|);
    assert [first] + [second] == [first, second];
    var twice := once[|tools| := FileSearch([first, second])];
    assert |twice| == |tools| + 1;
    forall j | 0 <= j < |twice|
      ensures twice[j] == (tools + [FileSearch([first, second])])[j]
    {
    }
  }

  /** With no `file_search` tool, the merge appends one, and it becomes the first. */
  lemma {:induction false} MergeAppends(tools: seq<Tool>, id: string)
    requires FirstFileSearch(tools) < 0
    ensures MergeFileSearch(tools, id) == tools + [FileSearch([id])]
    ensures FirstFileSearch(tools + [FileSearch([id])]) == |tools|
  {
    var r := tools + [FileSearch([id])];
    forall j | 0 <= j < |tools|
      ensures !r[j].FileSearch?
    {
      assert r[j] == tools[j];
    }
    FirstFileSearchIs(r, |tools|);
  }

  /** A new id joins the first `file_search` tool at its end, and nothing else changes. */
  lemma {:induction false} MergeExtends(tools: seq<Tool>, id: string, k: nat)
    requires FirstFileSearch(tools) == k && id !in tools[k].vectorStoreIds
    ensures MergeFileSearch(tools, id) == tools[k := FileSearch(tools[k].vectorStoreIds + [id])]
  {
    var r := MergeFileSearch(tools, id);
    var expected := tools[k := FileSearch(tools[k].vectorStoreIds + [id])];
    assert |r| == |expected|;
    forall j | 0 <= j < |r|
      ensures r[j] == expected[j]
    {
    }
  }
}
