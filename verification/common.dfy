/**
 * Values shared by the four chat drivers: Python's exceptions as an error type,
 * message roles, the UI containers (sections) that receive streamed updates,
 * and the custom-function records advertised as tools.
 */
module Common {

  datatype Option<T> = None | Some(value: T)

  /** The Python exceptions the drivers let escape. */
  datatype Error =
    | ValueError(message: string)
    | TypeError(message: string)
    | IndexError
    | KeyError(key: string)
    | AttributeError(attribute: string)

  /** How a driver operation ended: normally, or by raising. */
  datatype Outcome = Done | Raised(error: Error)

  datatype Result<T> = Ok(value: T) | Err(error: Error)

  type Bytes = seq<bv8>

  datatype Role = User | Assistant | Developer

  /** The categories the drivers pass to `update_and_stream`. */
  datatype Category = Text | Code | Image | Download

  /** Text for text, code and download blocks; raw bytes for images. */
  datatype Payload = Chars(text: string) | Binary(data: Bytes)

  datatype Block = Block(category: Category, content: Payload)

  /**
   * What happened to a container, in order. The classes `Section`, `Container` and
   * `Block` live in a module that is not part of this model, so how an update
   * coalesces into blocks is not modelled: each `update_and_stream(category, content)`
   * is recorded as `Streamed`, the reassignment of the last block's content through
   * the sandbox-link rewrite as `LinksRewritten`, and a bare `stream()` redraw as
   * `Redrawn`.
   */
  datatype ContainerOp =
    | Streamed(category: Category, content: Payload)
    | LinksRewritten
    | Redrawn

  /** A section/container: its role, the blocks it was created with, and its update log. */
  datatype Container = Container(role: Role, blocks: seq<Block>, log: seq<ContainerOp>)

  /** A fresh container with no blocks and no updates (`Container("assistant")`). */
  function Empty(role: Role): (c: Container)
    ensures c.role == role && c.blocks == [] && c.log == []
  {
    Container(role, [], [])
  }

  /** The payloads streamed into a log under category `c`, in order. */
  function Streams(log: seq<ContainerOp>, c: Category): seq<Payload>
    decreases |log|
  {
    if log == [] then []
    else
      var last := log[|log| - 1];
      Streams(log[..|log| - 1], c) + (if last.Streamed? && last.category == c then [last.content] else [])
  }

  lemma {:induction false} StreamsAppend(a: seq<ContainerOp>, b: seq<ContainerOp>, c: Category)
    ensures Streams(a + b, c) == Streams(a, c) + Streams(b, c)
    decreases |b|
  {
    if b != [] {
      var n := |b| - 1;
      assert (a + b)[..|a + b| - 1] == a + b[..n];
      assert (a + b)[|a + b| - 1] == b[n];
      StreamsAppend(a, b[..n], c);
      var extra := if b[n].Streamed? && b[n].category == c then [b[n].content] else [];
      assert Streams(a + b, c) == Streams(a + b[..n], c) + extra;
      assert Streams(b, c) == Streams(b[..n], c) + extra;
    } else {
      assert a + b == a;
    }
  }

  lemma {:induction false} StreamsSingle(op: ContainerOp, c: Category)
    ensures Streams([op], c) == if op.Streamed? && op.category == c then [op.content] else []
  {
    assert [op][..0] == [];
  }

  /** The texts of a sequence of payloads, joined (binary payloads contribute nothing). */
  function JoinText(ps: seq<Payload>): string
    decreases |ps|
  {
    if ps == [] then [] else JoinText(ps[..|ps| - 1]) + (if ps[|ps| - 1].Chars? then ps[|ps| - 1].text else [])
  }

  /** Name, description and JSON-schema parameters of a custom function. */
  datatype FunctionSpec = FunctionSpec(name: string, description: string, parameters: string)

  /**
   * A user-supplied tool. `handler` stands for decoding the argument string with
   * `json.loads`, calling the Python handler with the result as keyword arguments,
   * and taking the value it returns; none of that is visible to the drivers.
   */
  datatype CustomFunction = CustomFunction(spec: FunctionSpec, handler: string -> string)

  /** Index of the first function called `name`, or -1. */
  function FirstNamed(fs: seq<CustomFunction>, name: string): (r: int)
    ensures -1 <= r < |fs|
    ensures r >= 0 ==> fs[r].spec.name == name
    ensures forall j :: 0 <= j < |fs| && (r < 0 || j < r) ==> fs[j].spec.name != name
    decreases |fs|
  {
    if fs == [] then -1
    else if fs[0].spec.name == name then 0
    else
      var k := FirstNamed(fs[1..], name);
      if k < 0 then -1 else k + 1
  }

  /**
   * `[x for x in functions if x.name == name][0]`: iterating `None` raises
   * `TypeError`, an empty match list raises `IndexError`.
   */
  function LookupFunction(functions: Option<seq<CustomFunction>>, name: string): (r: Result<CustomFunction>)
    ensures functions.None? ==> r.Err? && r.error.TypeError?
    ensures r.Ok? ==> functions.Some? && r.value.spec.name == name
    ensures r.Err? ==> r.error == TypeError("'NoneType' object is not iterable") || r.error == IndexError
  {
    if functions.None? then Err(TypeError("'NoneType' object is not iterable"))
    else
      var k := FirstNamed(functions.value, name);
      if k < 0 then Err(IndexError) else Ok(functions.value[k])
  }

  /**
   * Among the custom functions, the lookup succeeds exactly when some function has the
   * name, and then returns the first one with it.
   */
  lemma {:induction false} LookupFunctionFirst(functions: seq<CustomFunction>, name: string)
    ensures var r := LookupFunction(Some(functions), name);
      && (r.Ok? <==> exists j :: 0 <= j < |functions| && functions[j].spec.name == name)
      && (r.Ok? ==> exists k :: (0 <= k < |functions| && r.value == functions[k]
            && forall j :: 0 <= j < k ==> functions[j].spec.name != name))
      && (r.Err? ==> r.error == IndexError)
  {
    var k := FirstNamed(functions, name);
    if k >= 0 {
      assert functions[k].spec.name == name;
    }
  }

  /** A file handed over by the chat input widget (`UploadedFile`). */
  datatype Upload = Upload(fileId: string, name: string, data: Bytes)

  function UploadIds(uploads: seq<Upload>): (ids: seq<string>) {
    seq(|uploads|, j requires 0 <= j < |uploads| => uploads[j].fileId)
  }
}
