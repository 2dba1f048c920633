/** One streamed request to the generative model, as `_stream_gemini_api`
    turns it into signals: the answer is an input (the chunks the model
    yields, then possibly the exception that ends the iteration), and the
    signals the controller emits are values of `Signal`. */
module Streaming {
  import opened Text

  /** The destinations a stream is tagged with. */
  const ChatKind: string := "chat"
  const EditorKind: string := "editor"
  const FileCreateKind: string := "file_create"

  /** Every signal the controller emits (besides status-bar text). */
  datatype Signal =
    | StreamStarted(sender: string, kind: string)
    | StreamChunk(text: string)
    | StreamFinished(sender: string, kind: string)
    | StreamError(message: string, kind: string)
    | EditFileRequested(path: string)
    | EditContextSet(message: string)
    | ModelsUpdated(models: seq<string>)

  /** One item of the response iterator: text, a prompt-feedback block (with
      the category of the first blocked safety rating, if any), or an item
      without text. */
  datatype Chunk =
    | TextChunk(text: string)
    | BlockedChunk(reason: string, category: Option<string>)
    | EmptyChunk

  /** The exception that ends a request, by the class the controller catches;
      `detail` is the exception's text. */
  datatype ApiError =
    | PermissionDenied(detail: string)
    | ResourceExhausted(detail: string)
    | InvalidArgument(detail: string)
    | NotFound(detail: string)
    | FailedPrecondition(detail: string)
    | InternalServerError(detail: string)
    | ServiceUnavailable(detail: string)
    | OtherFailure(typeName: string, detail: string)

  /** What the model does with one request: the chunks it yields, then the
      exception raised after them, if any (an exception raised by the call
      itself is a response with no chunks). */
  datatype Response = Response(chunks: seq<Chunk>, failure: Option<ApiError>)

  /** Whether a model instance is loaded, and the selected model's name. */
  datatype ModelState = ModelState(loaded: bool, name: string)

  predicate Ready(m: ModelState) {
    m.loaded && m.name != ""
  }

  const NoModelMessage: string := "Error: Gemini model not available."
  const NoNameMessage: string := "Error: No model selected."

  const ErrorPrefix: string := "Error: "

  /** The chat text of an exception, by its class (and, for an invalid
      argument, by what its text says). */
  function ErrorMessage(e: ApiError): string {
    ErrorPrefix +
    match e
    case PermissionDenied(d) => "API Permission Denied. Check Key/Permissions. " + d
    case ResourceExhausted(d) => "API Quota Exceeded. " + d
    case InvalidArgument(d) =>
      if Contains(d, "User location is not supported") then "Location not supported by API."
      else if Contains(d, "API key not valid") then "API key not valid. " + d
      else if Contains(d, "found no valid candidate") then "No valid candidate found (Safety/Prompt issue?). " + d
      else "Invalid API Argument. " + d
    case NotFound(d) => "Model/Resource Not Found. " + d
    case FailedPrecondition(d) => "API Precondition Failed (Billing?). " + d
    case InternalServerError(d) => "API Internal Server Error. " + d
    case ServiceUnavailable(d) => "API Service Unavailable. " + d
    case OtherFailure(t, d) => "API stream call failed: " + t + " - " + d
  }

  /** Every exception is reported as an error text that starts with `Error: `
      and keeps the exception's own text, except for the unsupported-location
      case, which has a fixed text. */
  lemma ErrorMessageSpec(e: ApiError)
    ensures StartsWith(ErrorMessage(e), ErrorPrefix)
    ensures !(e.InvalidArgument? && Contains(e.detail, "User location is not supported")) ==>
      Contains(ErrorMessage(e), e.detail)
  {
    var m := ErrorMessage(e);
    var tail := m[|ErrorPrefix|..];
    assert m == ErrorPrefix + tail;
    StartsWithConcat(ErrorPrefix, tail);
    if !(e.InvalidArgument? && Contains(e.detail, "User location is not supported")) {
      var head := m[..|m| - |e.detail|];
      assert m == head + e.detail;
      ContainsSelf(e.detail);
      ContainsLeft(head, e.detail, e.detail);
    }
  }

  function CategoryName(category: Option<string>): string {
    match category
    case Some(c) => c
    case None => "UNKNOWN"
  }

  function BlockMessage(reason: string, category: Option<string>): string {
    "Error: Blocked by safety filters. Reason: " + reason + ". Category: " + CategoryName(category) + "."
  }

  /** The signal that ends a stream whose chunks were all consumed. */
  function Ending(failure: Option<ApiError>, sender: string, kind: string): Signal {
    match failure
    case None => StreamFinished(sender, kind)
    case Some(e) => StreamError(ErrorMessage(e), kind)
  }

  /** The signals for the remaining chunks of a started stream. */
  function ChunkEvents(chunks: seq<Chunk>, failure: Option<ApiError>, sender: string, kind: string): seq<Signal>
    decreases |chunks|
  {
    if chunks == [] then [Ending(failure, sender, kind)]
    else match chunks[0]
      case BlockedChunk(reason, category) => [StreamError(BlockMessage(reason, category), kind)]
      case TextChunk(t) => [StreamChunk(t)] + ChunkEvents(chunks[1..], failure, sender, kind)
      case EmptyChunk => ChunkEvents(chunks[1..], failure, sender, kind)
  }

  /** The signals of one request (`_stream_gemini_api`). */
  function StreamEvents(m: ModelState, sender: string, kind: string, r: Response): seq<Signal> {
    if !m.loaded then [StreamError(NoModelMessage, kind)]
    else if m.name == "" then [StreamError(NoNameMessage, kind)]
    else [StreamStarted(sender, kind)] + ChunkEvents(r.chunks, r.failure, sender, kind)
  }

  predicate IsTerminal(s: Signal) {
    s.StreamFinished? || s.StreamError?
  }

  /** Index of the first blocked chunk, or the number of chunks when none is. */
  function FirstBlock(chunks: seq<Chunk>): (n: nat)
    ensures n <= |chunks|
    ensures n < |chunks| ==> chunks[n].BlockedChunk?
    ensures forall j :: 0 <= j < n ==> !chunks[j].BlockedChunk?
  {
    if chunks == [] || chunks[0].BlockedChunk? then 0 else 1 + FirstBlock(chunks[1..])
  }

  /** The texts of the text chunks, in order. */
  function Texts(chunks: seq<Chunk>): seq<string> {
    if chunks == [] then []
    else (if chunks[0].TextChunk? then [chunks[0].text] else []) + Texts(chunks[1..])
  }

  /** The terminal signal a stream must end with: the block of the first
      blocked chunk, otherwise the outcome of the iteration. */
  function Outcome(r: Response, sender: string, kind: string): Signal {
    var b := FirstBlock(r.chunks);
    if b < |r.chunks| then StreamError(BlockMessage(r.chunks[b].reason, r.chunks[b].category), kind)
    else Ending(r.failure, sender, kind)
  }

  /** The signals of a started stream, before its last one, are the texts of
      the chunks that precede the first blocked chunk. */
  lemma {:induction false} ChunkEventsTexts(chunks: seq<Chunk>, failure: Option<ApiError>, sender: string, kind: string)
    ensures var ev := ChunkEvents(chunks, failure, sender, kind);
      var texts := Texts(chunks[..FirstBlock(chunks)]);
      |ev| == |texts| + 1 &&
      forall i :: 0 <= i < |texts| ==> ev[i] == StreamChunk(texts[i])
    decreases |chunks|
  {
    if chunks == [] {
    } else if chunks[0].BlockedChunk? {
      assert chunks[..FirstBlock(chunks)] == [];
    } else {
      var rest := chunks[1..];
      ChunkEventsTexts(rest, failure, sender, kind);
      var b := FirstBlock(rest);
      var pre := chunks[..1 + b];
      assert pre[1..] == rest[..b];
      assert Texts(pre) == (if chunks[0].TextChunk? then [chunks[0].text] else []) + Texts(rest[..b]);
    }
  }

  /** The last signal of a started stream is its outcome. */
  lemma {:induction false} ChunkEventsLast(chunks: seq<Chunk>, failure: Option<ApiError>, sender: string, kind: string)
    ensures var ev := ChunkEvents(chunks, failure, sender, kind);
      |ev| >= 1 && ev[|ev| - 1] == Outcome(Response(chunks, failure), sender, kind)
    decreases |chunks|
  {
    if chunks != [] && !chunks[0].BlockedChunk? {
      var rest := chunks[1..];
      ChunkEventsLast(rest, failure, sender, kind);
      var b := FirstBlock(rest);
      assert b < |rest| ==> chunks[1 + b] == rest[b];
    }
  }

  /** `_stream_gemini_api`'s event sequence. Without a loaded model or a model
      name exactly one error and nothing else is emitted. Otherwise the
      started signal comes first, then one chunk signal per text chunk before
      the first blocked chunk, in order, then exactly one terminal signal: the
      block error when some chunk is blocked (later chunks are dropped), else
      finished, or the error of the exception that ended the iteration. */
  lemma StreamEventsSpec(m: ModelState, sender: string, kind: string, r: Response)
    ensures !m.loaded ==> StreamEvents(m, sender, kind, r) == [StreamError(NoModelMessage, kind)]
    ensures m.loaded && m.name == "" ==> StreamEvents(m, sender, kind, r) == [StreamError(NoNameMessage, kind)]
    ensures Ready(m) ==>
      var ev := StreamEvents(m, sender, kind, r);
      var texts := Texts(r.chunks[..FirstBlock(r.chunks)]);
      |ev| == |texts| + 2 &&
      ev[0] == StreamStarted(sender, kind) &&
      (forall i :: 0 <= i < |texts| ==> ev[i + 1] == StreamChunk(texts[i])) &&
      ev[|ev| - 1] == Outcome(r, sender, kind)
  {
    ChunkEventsTexts(r.chunks, r.failure, sender, kind);
    ChunkEventsLast(r.chunks, r.failure, sender, kind);
  }

  /** Whatever the model answers, a stream has exactly one terminal signal,
      and it is the last one; a started signal only ever comes first. */
  lemma StreamHasOneEnd(m: ModelState, sender: string, kind: string, r: Response)
    ensures var ev := StreamEvents(m, sender, kind, r);
      |ev| >= 1 && IsTerminal(ev[|ev| - 1]) &&
      (forall i :: 0 <= i < |ev| - 1 ==> !IsTerminal(ev[i])) &&
      (forall i :: 0 < i < |ev| ==> !ev[i].StreamStarted?)
  {
    StreamEventsSpec(m, sender, kind, r);
    var ev := StreamEvents(m, sender, kind, r);
    if Ready(m) {
      var texts := Texts(r.chunks[..FirstBlock(r.chunks)]);
      forall i | 0 < i < |ev| - 1 ensures ev[i].StreamChunk? {
        assert ev[(i - 1) + 1] == StreamChunk(texts[i - 1]);
      }
    }
  }

  /** Every started, finished and error signal in `signals` carries `kind`
      (chunk signals carry none). */
  predicate Tagged(signals: seq<Signal>, kind: string) {
    forall i :: 0 <= i < |signals| ==>
      signals[i].StreamChunk? ||
      ((signals[i].StreamStarted? || signals[i].StreamFinished? || signals[i].StreamError?) && signals[i].kind == kind)
  }

  lemma {:induction false} ChunkEventsTagged(chunks: seq<Chunk>, failure: Option<ApiError>, sender: string, kind: string)
    ensures Tagged(ChunkEvents(chunks, failure, sender, kind), kind)
    decreases |chunks|
  {
    if chunks != [] && !chunks[0].BlockedChunk? {
      ChunkEventsTagged(chunks[1..], failure, sender, kind);
    }
  }

  /** A request's signals all go to the destination it was made for. */
  lemma StreamTagged(m: ModelState, sender: string, kind: string, r: Response)
    ensures Tagged(StreamEvents(m, sender, kind, r), kind)
  {
    ChunkEventsTagged(r.chunks, r.failure, sender, kind);
  }
}
