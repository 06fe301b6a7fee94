/** The request and response records of the OpenAI-compatible API layer. */
module ApiTypes {
  import opened Wrappers

  /** One chat message: `{role, content}`. */
  datatype Message = Message(role: string, content: string)

  /** One entry of `choices`. `message` is the `*Message` pointer: `None` is nil. */
  datatype Choice = Choice(index: int, finishReason: string, message: Option<Message>, text: string)

  /** The response envelope of the completion endpoints. `kind` here and below is the JSON
      `object` field (`object` is a Dafny keyword). */
  datatype OpenAIResponse = OpenAIResponse(created: int, kind: string, id: string, model: string, choices: seq<Choice>)

  /** One entry of the `/v1/models` listing. */
  datatype OpenAIModel = OpenAIModel(id: string, kind: string)

  /** The body of the `/v1/models` response: `{object: "list", data}`. */
  datatype ModelList = ModelList(kind: string, data: seq<OpenAIModel>)

  /** The parsed request body. Floating-point fields are reals: they are only compared with zero
      and passed on. */
  datatype OpenAIRequest = OpenAIRequest(
    model: string,
    prompt: string,
    messages: seq<Message>,
    echo: bool,
    topP: real,
    topK: int,
    temperature: real,
    maxTokens: int,
    n: int,
    batch: int,
    f16: bool,
    ignoreEOS: bool)

  /** An opaque loaded model instance; only its identity matters here. */
  datatype ModelHandle = ModelHandle(id: nat)

  /** The errors a request can end with: the handler's own "no default model" error, or an
      error value passed through unchanged from the loader or the inference engine. */
  datatype Error = NoDefaultModel | External(message: string)

  /** The inference engine's predict options, one constructor per option setter the handler uses. */
  datatype PredictOption =
    | SetTemperature(temperature: real)
    | SetTopP(topP: real)
    | SetTopK(topK: int)
    | SetTokens(tokens: int)
    | SetThreads(threads: int)
    | SetBatch(batch: int)
    | EnableF16KV
    | IgnoreEOS

  /** The content a client reads from a choice: the message's content for a chat choice,
      the text otherwise. */
  function ChoiceContent(c: Choice): string {
    match c.message
    case Some(m) => m.content
    case None => c.text
  }
}
