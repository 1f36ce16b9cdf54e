/**
 * The draft `EventHandler.on_text_delta` of utils.py: the text of each delta goes into
 * the last block of the handler's container, a new text block is grown when the last
 * block is not text, file citations are rewritten into links, and files produced by
 * the code interpreter are saved under their base names.
 *
 * The draft never sets `self.container`, `self.show_quotation_marks` or the
 * container's `code_interpreter_files`; here they are the handler's and the
 * container's state as given when the handler is built. A block is the draft's
 * dictionary with the keys `type` and `content`.
 */
module DraftHandler {

  import opened Common
  import opened Strings

  datatype DraftBlock = DraftBlock(kind: string, content: string)

  /**
   * The draft's `Container`: its role, its block list (`None` until given one, as
   * the constructor's default leaves it), and the code-interpreter files by name.
   */
  datatype DraftContainer = DraftContainer(role: Role, blocks: Option<seq<DraftBlock>>, files: map<string, Bytes>)

  /** A text annotation of a delta, with the text it covers and the file it refers to. */
  datatype Annotation =
    | FileCitation(text: string, fileId: string)
    | FilePath(text: string, fileId: string)
    | OtherAnnotation

  /** What the files API answers: a file's name and its bytes, by file id. */
  datatype Remote = Remote(filenameOf: string -> string, contentOf: string -> Bytes)

  /** The link that replaces a file citation. */
  function CitationLink(filename: string): string {
    "<a href=\"#\" title=\"" + filename + "\">[❞]</a>"
  }

  /** The delta's text with each file citation's text replaced by its link, annotations in order. */
  function Rewrite(value: string, annotations: seq<Annotation>, remote: Remote): string
    decreases |annotations|
  {
    if annotations == [] then value
    else
      var a := annotations[0];
      var next := if a.FileCitation? then Replace(value, a.text, CitationLink(remote.filenameOf(a.fileId))) else value;
      Rewrite(next, annotations[1..], remote)
  }

  /** The code-interpreter files after each `file_path` annotation stored its file under its base name. */
  function Saved(files: map<string, Bytes>, annotations: seq<Annotation>, remote: Remote): map<string, Bytes>
    decreases |annotations|
  {
    if annotations == [] then files
    else
      var a := annotations[0];
      var next := if a.FilePath? then files[Basename(remote.filenameOf(a.fileId)) := remote.contentOf(a.fileId)] else files;
      Saved(next, annotations[1..], remote)
  }

  /** Without file citations the text is left as it is. */
  lemma {:induction false} RewriteWithoutCitations(value: string, annotations: seq<Annotation>, remote: Remote)
    requires forall j :: 0 <= j < |annotations| ==> !annotations[j].FileCitation?
    ensures Rewrite(value, annotations, remote) == value
    decreases |annotations|
  {
    if annotations != [] {
      RewriteWithoutCitations(value, annotations[1..], remote);
    }
  }

  /** A citation whose (non-empty) text does not occur changes nothing either. */
  lemma {:induction false} RewriteAbsent(value: string, annotations: seq<Annotation>, remote: Remote)
    requires forall j :: 0 <= j < |annotations| && annotations[j].FileCitation? ==>
      annotations[j].text != [] && !Contains(value, annotations[j].text)
    ensures Rewrite(value, annotations, remote) == value
    decreases |annotations|
  {
    if annotations != [] {
      var a := annotations[0];
      if a.FileCitation? {
        ReplaceAbsent(value, a.text, CitationLink(remote.filenameOf(a.fileId)));
      }
      RewriteAbsent(value, annotations[1..], remote);
    }
  }

  /** The base name a `file_path` annotation stores its file under. */
  function SavedName(a: Annotation, remote: Remote): string
    requires a.FilePath?
  {
    Basename(remote.filenameOf(a.fileId))
  }

  /** A name is saved iff it was there before or some `file_path` annotation stores under it. */
  lemma {:induction false} SavedKeys(files: map<string, Bytes>, annotations: seq<Annotation>, remote: Remote, name: string)
    ensures name in Saved(files, annotations, remote) <==>
      name in files || exists j :: 0 <= j < |annotations| && annotations[j].FilePath? && SavedName(annotations[j], remote) == name
    decreases |annotations|
  {
    if annotations != [] {
      var a := annotations[0];
      var next := if a.FilePath? then files[Basename(remote.filenameOf(a.fileId)) := remote.contentOf(a.fileId)] else files;
      SavedKeys(next, annotations[1..], remote, name);
      var rest := annotations[1..];
      if exists j :: 0 <= j < |rest| && rest[j].FilePath? && SavedName(rest[j], remote) == name {
        var j :| 0 <= j < |rest| && rest[j].FilePath? && SavedName(rest[j], remote) == name;
        assert annotations[j + 1] == rest[j];
      }
      if exists j :: 0 <= j < |annotations| && annotations[j].FilePath? && SavedName(annotations[j], remote) == name {
        var j :| 0 <= j < |annotations| && annotations[j].FilePath? && SavedName(annotations[j], remote) == name;
        if j > 0 {
          assert rest[j - 1] == annotations[j];
        }
      }
    }
  }

  /** A name no annotation stores under keeps its bytes. */
  lemma {:induction false} SavedUntouched(files: map<string, Bytes>, annotations: seq<Annotation>, remote: Remote, name: string)
    requires name in files
    requires forall j :: 0 <= j < |annotations| && annotations[j].FilePath? ==> SavedName(annotations[j], remote) != name
    ensures name in Saved(files, annotations, remote) && Saved(files, annotations, remote)[name] == files[name]
    decreases |annotations|
  {
    if annotations != [] {
      var a := annotations[0];
      var next := if a.FilePath? then files[Basename(remote.filenameOf(a.fileId)) := remote.contentOf(a.fileId)] else files;
      var rest := annotations[1..];
      assert forall j :: 0 <= j < |rest| ==> rest[j] == annotations[j + 1];
      SavedUntouched(next, rest, remote, name);
    }
  }

  /** When several annotations store under one name, the last one's bytes are kept. */
  lemma {:induction false} SavedLastWins(files: map<string, Bytes>, annotations: seq<Annotation>, remote: Remote, j: nat)
    requires j < |annotations| && annotations[j].FilePath?
    requires forall i :: j < i < |annotations| && annotations[i].FilePath? ==>
      SavedName(annotations[i], remote) != SavedName(annotations[j], remote)
    ensures var name := SavedName(annotations[j], remote);
      name in Saved(files, annotations, remote)
      && Saved(files, annotations, remote)[name] == remote.contentOf(annotations[j].fileId)
    decreases j
  {
    var a := annotations[0];
    var next := if a.FilePath? then files[Basename(remote.filenameOf(a.fileId)) := remote.contentOf(a.fileId)] else files;
    var rest := annotations[1..];
    assert forall i :: 0 <= i < |rest| ==> rest[i] == annotations[i + 1];
    if j == 0 {
      SavedUntouched(next, rest, remote, SavedName(a, remote));
    } else {
      SavedLastWins(next, rest, remote, j - 1);
    }
  }

  /** A new empty text block is grown unless the last block is already text. */
  function Coalesce(blocks: seq<DraftBlock>): seq<DraftBlock> {
    if blocks == [] || blocks[|blocks| - 1].kind != "text" then blocks + [DraftBlock("text", "")] else blocks
  }

  function AnnotationList(annotations: Option<seq<Annotation>>): seq<Annotation> {
    if annotations.Some? then annotations.value else []
  }

  /** One text delta into a container that has a block list. */
  function Delta(c: DraftContainer, show: bool, value: string, annotations: Option<seq<Annotation>>, remote: Remote)
    : DraftContainer
    requires c.blocks.Some?
  {
    var grown := Coalesce(c.blocks.value);
    var n := |grown| - 1;
    if !show then c.(blocks := Some(grown))
    else
      var anns := AnnotationList(annotations);
      c.(blocks := Some(grown[n := grown[n].(content := grown[n].content + Rewrite(value, anns, remote))]),
         files := Saved(c.files, anns, remote))
  }

  /**
   * A new text block is grown iff the list is empty or ends in a non-text block, and
   * the list then ends in a text block; earlier blocks are untouched; with quotation
   * marks shown the last block's content grows by exactly the rewritten delta and
   * the `file_path` files are saved, otherwise content and files stay as they were.
   */
  lemma {:induction false} DeltaShape(c: DraftContainer, show: bool, value: string, annotations: Option<seq<Annotation>>, remote: Remote)
    requires c.blocks.Some?
    ensures var before := c.blocks.value;
      var r := Delta(c, show, value, annotations, remote);
      var opens := before == [] || before[|before| - 1].kind != "text";
      var after := r.blocks.value;
      var last := after[|after| - 1];
      var was := if opens then "" else before[|before| - 1].content;
      && r.blocks.Some? && r.role == c.role
      && |after| == |before| + (if opens then 1 else 0)
      && last.kind == "text"
      && (forall j :: 0 <= j < |after| - 1 ==> after[j] == before[j])
      && (show ==> last.content == was + Rewrite(value, AnnotationList(annotations), remote))
      && (show ==> r.files == Saved(c.files, AnnotationList(annotations), remote))
      && (!show ==> last.content == was && r.files == c.files)
  {
  }

  /** `on_text_delta` as written: a container created here has no block list, so appending to it raises. */
  function DeltaAsWritten(
    c: Option<DraftContainer>, show: bool, value: string, annotations: Option<seq<Annotation>>, remote: Remote)
    : (Option<DraftContainer>, Outcome)
    requires c.Some? ==> c.value.blocks.Some?
  {
    if c.None? then (Some(DraftContainer(Assistant, None, map[])), Raised(AttributeError("append")))
    else (Some(Delta(c.value, show, value, annotations, remote)), Done)
  }

  /** The first text delta into a handler without a container always raises. */
  lemma {:induction false} FirstDeltaRaisesAsWritten(show: bool, value: string, annotations: Option<seq<Annotation>>, remote: Remote)
    ensures var (c, outcome) := DeltaAsWritten(None, show, value, annotations, remote);
      outcome.Raised? && c.Some? && c.value.role == Assistant && c.value.blocks.None?
  {
  }

  /** `on_text_delta` as intended: a container created here starts with an empty block list. */
  function DeltaIntended(
    c: Option<DraftContainer>, show: bool, value: string, annotations: Option<seq<Annotation>>, remote: Remote)
    : DraftContainer
    requires c.Some? ==> c.value.blocks.Some?
  {
    Delta(if c.None? then DraftContainer(Assistant, Some([]), map[]) else c.value, show, value, annotations, remote)
  }

  /** As intended, the first delta opens one assistant container holding one text block with the delta. */
  lemma {:induction false} FirstDeltaIntended(show: bool, value: string, annotations: Option<seq<Annotation>>, remote: Remote)
    ensures var c := DeltaIntended(None, show, value, annotations, remote);
      && c.role == Assistant
      && c.blocks == Some([DraftBlock("text", if show then Rewrite(value, AnnotationList(annotations), remote) else "")])
  {
    var text := Rewrite(value, AnnotationList(annotations), remote);
    var empty := DraftContainer(Assistant, Some([]), map[]);
    var grown := Coalesce([]);
    assert grown == [DraftBlock("text", "")];
    if show {
      assert "" + text == text;
      assert Delta(empty, show, value, annotations, remote).blocks == Some(grown[0 := DraftBlock("text", "" + text)]);
      assert grown[0 := DraftBlock("text", text)] == [DraftBlock("text", text)];
    }
  }

  /** The draft handler, holding the attributes the draft reads but never sets. */
  class EventHandler {
    var container: Option<DraftContainer>
    const showQuotationMarks: bool

    constructor(container: Option<DraftContainer>, showQuotationMarks: bool)
      ensures this.container == container && this.showQuotationMarks == showQuotationMarks
    {
      this.container := container;
      this.showQuotationMarks := showQuotationMarks;
    }

    method OnTextDelta(value: string, annotations: Option<seq<Annotation>>, remote: Remote) returns (outcome: Outcome)
      requires container.Some? ==> container.value.blocks.Some?
      modifies this`container
      ensures (container, outcome) == DeltaAsWritten(old(container), showQuotationMarks, value, annotations, remote)
    {
      if container.None? {
        container := Some(DraftContainer(Assistant, None, map[]));
      }
      var c := container.value;
      if c.blocks.None? {
        return Raised(AttributeError("append"));
      }
      var blocks := c.blocks.value;
      if blocks == [] || blocks[|blocks| - 1].kind != "text" {
        blocks := blocks + [DraftBlock("text", "")];
      }
      var files := c.files;
      if showQuotationMarks {
        var v := value;
        if annotations.Some? {
          var anns := annotations.value;
          for i := 0 to |anns|
            invariant Rewrite(v, anns[i..], remote) == Rewrite(value, anns, remote)
            invariant Saved(files, anns[i..], remote) == Saved(c.files, anns, remote)
          {
            assert anns[i..][1..] == anns[i + 1..];
            var a := anns[i];
            if a.FileCitation? {
              v := Replace(v, a.text, CitationLink(remote.filenameOf(a.fileId)));
            } else if a.FilePath? {
              var filename := Basename(remote.filenameOf(a.fileId));
              files := files[filename := remote.contentOf(a.fileId)];
            }
          }
        }
        var n := |blocks| - 1;
        blocks := blocks[n := blocks[n].(content := blocks[n].content + v)];
      }
      container := Some(c.(blocks := Some(blocks), files := files));
      outcome := Done;
    }
  }
}
