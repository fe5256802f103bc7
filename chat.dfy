/**
 * The chat responder: the completion request built for the language
 * model, and how a streamed reply is collected into one string
 * (`"".join(chunk.choices[0].delta.content for chunk in stream)`).
 */
module Chat {
  import opened Wrappers
  import opened Text

  const ModelName: string := "meta-llama/Llama-3.2-11B-Vision-Instruct"
  const MaxTokens: nat := 500

  /**
   * The two fixed system prompts, one for text queries and one for image
   * queries.  Their wording does not affect the control flow and is kept
   * abstract.
   */
  datatype Persona = FarmAdvisor | FarmImageAdvisor

  datatype Part = TextPart(text: string) | ImageUrlPart(url: string)

  datatype Message = SystemMessage(persona: Persona) | UserMessage(content: seq<Part>)

  /** The arguments of `client.chat.completions.create`. */
  datatype Completion = Completion(model: string, messages: seq<Message>, maxTokens: nat, stream: bool)

  /** The personas of the system messages, in order. */
  function Personas(messages: seq<Message>): seq<Persona>
  {
    if messages == [] then []
    else (if messages[0].SystemMessage? then [messages[0].persona] else []) + Personas(messages[1..])
  }

  /** Everything the user messages hold, in order: what the model is asked about. */
  function UserParts(messages: seq<Message>): seq<Part>
  {
    if messages == [] then []
    else (if messages[0].UserMessage? then messages[0].content else []) + UserParts(messages[1..])
  }

  /** The completion for a text query: two messages, the text persona, then the user's (pivot-language) text alone. */
  function QueryCompletion(text: string): (c: Completion)
    ensures c.model == ModelName && c.maxTokens == MaxTokens && c.stream
    ensures |c.messages| == 2 && c.messages[0].SystemMessage? && c.messages[1].UserMessage?
    ensures Personas(c.messages) == [FarmAdvisor]
    ensures UserParts(c.messages) == [TextPart(text)]
  {
    var messages := [SystemMessage(FarmAdvisor), UserMessage([TextPart(text)])];
    assert messages[1..][1..] == [];
    assert Personas(messages[1..]) == [] && UserParts(messages[1..]) == messages[1].content;
    Completion(ModelName, messages, MaxTokens, true)
  }

  /** The completion for an image query: two messages, the image persona, then the text first and the uploaded image's URL. */
  function VisionCompletion(text: string, url: string): (c: Completion)
    ensures c.model == ModelName && c.maxTokens == MaxTokens && c.stream
    ensures |c.messages| == 2 && c.messages[0].SystemMessage? && c.messages[1].UserMessage?
    ensures Personas(c.messages) == [FarmImageAdvisor]
    ensures UserParts(c.messages) == [TextPart(text), ImageUrlPart(url)]
  {
    var messages := [SystemMessage(FarmImageAdvisor), UserMessage([TextPart(text), ImageUrlPart(url)])];
    assert messages[1..][1..] == [];
    assert Personas(messages[1..]) == [] && UserParts(messages[1..]) == messages[1].content;
    Completion(ModelName, messages,
               MaxTokens, true)
  }

  /** One streamed chunk: `choices[0].delta.content`, which may be `None`. */
  datatype Chunk = Chunk(content: Option<string>)

  /** How iterating the stream ended: normally, or by an exception. */
  datatype StreamEnd = Finished | Broken(detail: string)

  /** The chunks the stream delivered, in arrival order, and how it ended. */
  datatype Stream = Stream(chunks: seq<Chunk>, end: StreamEnd)

  predicate AllPresent(chunks: seq<Chunk>)
  {
    forall i :: 0 <= i < |chunks| ==> chunks[i].content.Some?
  }

  /** The total length of the chunks' contents. */
  function TotalLength(chunks: seq<Chunk>): nat
    requires AllPresent(chunks)
  {
    if chunks == [] then 0 else |chunks[0].content.value| + TotalLength(chunks[1..])
  }

  /**
   * The contents of the chunks, left to right: nothing is lost or added,
   * and each chunk's content sits at the offset of the chunks before it.
   */
  function Concat(chunks: seq<Chunk>): (r: string)
    requires AllPresent(chunks)
    ensures |r| == TotalLength(chunks)
    ensures chunks != [] ==> r[..|chunks[0].content.value|] == chunks[0].content.value
  {
    if chunks == [] then "" else chunks[0].content.value + Concat(chunks[1..])
  }

  lemma ConcatEmpty()
    ensures Concat([]) == ""
  {
  }

  lemma ConcatSingle(s: string)
    ensures Concat([Chunk(Some(s))]) == s
  {
  }

  /** Collecting a stream in two pieces gives the two collected pieces joined. */
  lemma {:induction false} ConcatAppend(a: seq<Chunk>, b: seq<Chunk>)
    requires AllPresent(a) && AllPresent(b)
    ensures AllPresent(a + b)
    ensures Concat(a + b) == Concat(a) + Concat(b)
  {
    if a == [] {
      assert a + b == b;
    } else {
      var ab := a + b;
      assert ab[0] == a[0];
      assert ab[1..] == a[1..] + b;
      ConcatAppend(a[1..], b);
      assert AllPresent(ab);
      calc {
        Concat(ab);
        ab[0].content.value + Concat(ab[1..]);
        a[0].content.value + (Concat(a[1..]) + Concat(b));
        (a[0].content.value + Concat(a[1..])) + Concat(b);
      }
    }
  }

  /** The index of the first chunk whose content is `None`. */
  function FirstMissing(chunks: seq<Chunk>): (r: Option<nat>)
    ensures r.None? <==> AllPresent(chunks)
    ensures r.Some? ==> r.value < |chunks| && chunks[r.value].content.None?
    ensures r.Some? ==> forall i :: 0 <= i < r.value ==> chunks[i].content.Some?
  {
    if chunks == [] then None
    else if chunks[0].content.None? then Some(0)
    else match FirstMissing(chunks[1..])
      case None => None
      case Some(k) => Some(k + 1)
  }

  /** The `TypeError` text `str.join` gives for a `None` item at `index`. */
  function NoneItemDetail(index: nat): string
  {
    "sequence item " + Decimal(index) + ": expected str instance, NoneType found"
  }

  /** `"".join(...)` over the delivered contents: every item must be a string. */
  function JoinContents(chunks: seq<Chunk>): (r: Call<string>)
    ensures r.Returned? <==> AllPresent(chunks)
  {
    match FirstMissing(chunks)
    case None => Returned(Concat(chunks))
    case Some(k) => Raised(NoneItemDetail(k))
  }

  /**
   * The whole collection step: the create call may raise, iterating the
   * stream may raise, and only then are the items joined (`str.join`
   * materialises the generator before it checks any item).
   */
  function CollectReply(created: Call<Stream>): (r: Call<string>)
    ensures r.Returned? <==>
      created.Returned? && created.value.end.Finished? && AllPresent(created.value.chunks)
    ensures r.Returned? ==> r.value == Concat(created.value.chunks)
    ensures created.Raised? ==> r == Raised(created.detail)
    ensures created.Returned? && created.value.end.Broken? ==> r == Raised(created.value.end.detail)
  {
    match created
    case Raised(d) => Raised(d)
    case Returned(stream) =>
      match stream.end
      case Broken(d) => Raised(d)
      case Finished => JoinContents(stream.chunks)
  }

  /** A stream that breaks yields its own error, whatever chunks came before: no partial reply. */
  lemma BrokenStreamDiscardsChunks(chunks: seq<Chunk>, detail: string)
    ensures CollectReply(Returned(Stream(chunks, Broken(detail)))) == Raised(detail)
  {
  }

  /** A `None` content is reported with the index of the first such chunk. */
  lemma NoneContentReported(chunks: seq<Chunk>, k: nat)
    requires k < |chunks| && chunks[k].content.None?
    requires forall i :: 0 <= i < k ==> chunks[i].content.Some?
    ensures CollectReply(Returned(Stream(chunks, Finished))) == Raised(NoneItemDetail(k))
  {
  }
}
