/** Request normalisation in the completion handler: default sampling values, the repeat
    count, the chat flattening, the prompt template and the optional predict options. */
module Normalization {
  import opened Wrappers
  import opened ApiTypes
  import opened Strings

  const DefaultTopP: real := 0.7
  const DefaultTopK: int := 80
  const DefaultTemperature: real := 0.9
  const DefaultMaxTokens: int := 512
  const DefaultN: int := 1

  /** Separator between the contents of chat messages. */
  const MessageSeparator: string := "\n"

  /** The sampling values passed to every predict call. */
  datatype Sampling = Sampling(topP: real, topK: int, temperature: real, tokens: int)

  /** A prompt template lookup `TemplatePrefix(modelName, input)`; a failure means the model
      has no template. */
  type TemplateLookup = (string, string) -> Result<string, Error>

  /** The normalised request the repeat loop consumes. */
  datatype Canonical = Canonical(
    prompt: string,
    sampling: Sampling,
    n: int,
    echo: bool,
    chat: bool,
    batch: int,
    f16: bool,
    ignoreEOS: bool)

  /** Each zero-valued sampling field is replaced by its default; every other value passes
      through. */
  function Defaults(input: OpenAIRequest): (s: Sampling)
    ensures s.topP != 0.0 && s.topK != 0 && s.temperature != 0.0 && s.tokens != 0
    ensures input.topP == 0.0 ==> s.topP == DefaultTopP
    ensures input.topP != 0.0 ==> s.topP == input.topP
    ensures input.topK == 0 ==> s.topK == DefaultTopK
    ensures input.topK != 0 ==> s.topK == input.topK
    ensures input.temperature == 0.0 ==> s.temperature == DefaultTemperature
    ensures input.temperature != 0.0 ==> s.temperature == input.temperature
    ensures input.maxTokens == 0 ==> s.tokens == DefaultMaxTokens
    ensures input.maxTokens != 0 ==> s.tokens == input.maxTokens
  {
    var topP := if input.topP == 0.0 then DefaultTopP else input.topP;
    var topK := if input.topK == 0 then DefaultTopK else input.topK;
    var temperature := if input.temperature == 0.0 then DefaultTemperature else input.temperature;
    var tokens := if input.maxTokens == 0 then DefaultMaxTokens else input.maxTokens;
    Sampling(topP, topK, temperature, tokens)
  }

  /** A request whose sampling fields already hold the normalised values is left as it is:
      normalising twice is normalising once. */
  lemma DefaultsIdempotent(input: OpenAIRequest)
    ensures var s := Defaults(input);
            Defaults(input.(topP := s.topP, topK := s.topK, temperature := s.temperature, maxTokens := s.tokens)) == s
  {
  }

  /** The repeat count: `n`, or 1 when `n` is zero. A negative count is kept (and then runs the
      loop zero times). */
  function RepeatCount(n: int): (r: int)
    ensures r != 0
    ensures n == 0 ==> r == DefaultN
    ensures n != 0 ==> r == n
  {
    if n == 0 then DefaultN else n
  }

  /** The contents of the messages, in message order. */
  function MessageContents(messages: seq<Message>): seq<string> {
    seq(|messages|, i requires 0 <= i < |messages| => messages[i].content)
  }

  /** The chat prompt: the message contents joined by a newline; roles play no part. */
  function ChatPrompt(messages: seq<Message>): string {
    Join(MessageContents(messages), MessageSeparator)
  }

  /** Builds the chat prompt as the handler does: collect the contents with an append loop,
      then join them. */
  method JoinMessages(messages: seq<Message>) returns (prompt: string)
    ensures prompt == ChatPrompt(messages)
  {
    var mess: seq<string> := [];
    for k := 0 to |messages|
      invariant |mess| == k
      invariant forall j :: 0 <= j < k ==> mess[j] == messages[j].content
    {
      mess := mess + [messages[k].content];
    }
    assert mess == MessageContents(messages);
    prompt := Join(mess, MessageSeparator);
  }

  /** Appending a message to a non-empty conversation appends one newline and its content. */
  lemma ChatPromptSnoc(messages: seq<Message>, m: Message)
    requires |messages| >= 1
    ensures ChatPrompt(messages + [m]) == ChatPrompt(messages) + MessageSeparator + m.content
  {
    assert MessageContents(messages + [m]) == MessageContents(messages) + [m.content];
    JoinSnoc(MessageContents(messages), m.content, MessageSeparator);
  }

  /** Two conversations with the same contents in the same order give the same prompt,
      whatever their roles. */
  lemma ChatPromptIgnoresRoles(a: seq<Message>, b: seq<Message>)
    requires |a| == |b|
    requires forall i :: 0 <= i < |a| ==> a[i].content == b[i].content
    ensures ChatPrompt(a) == ChatPrompt(b)
  {
    assert MessageContents(a) == MessageContents(b);
  }

  /** When no content contains a newline, splitting the chat prompt at newlines gives back the
      contents of the messages, one per message and in order. */
  lemma ChatPromptSplits(messages: seq<Message>)
    requires |messages| >= 1
    requires forall i :: 0 <= i < |messages| ==> '\n' !in messages[i].content
    ensures Split(ChatPrompt(messages), '\n') == MessageContents(messages)
  {
    SplitJoin(MessageContents(messages), '\n');
  }

  /** The prompt before templating: the joined messages for chat, `prompt` otherwise. */
  function RawPrompt(chat: bool, input: OpenAIRequest): string {
    if chat then ChatPrompt(input.messages) else input.prompt
  }

  /** The templated prompt: the template's output when the lookup succeeds, the raw prompt
      when it fails; a failed lookup is not an error. */
  function ApplyTemplate(raw: string, lookup: Result<string, Error>): string {
    match lookup
    case Success(templated) => templated
    case Failure(_) => raw
  }

  /** The whole normalisation of one request. */
  function Normalize(chat: bool, input: OpenAIRequest, template: TemplateLookup): (c: Canonical)
    ensures c.sampling == Defaults(input) && c.n == RepeatCount(input.n)
    ensures c.echo == input.echo && c.chat == chat
    ensures c.batch == input.batch && c.f16 == input.f16 && c.ignoreEOS == input.ignoreEOS
  {
    var raw := RawPrompt(chat, input);
    Canonical(ApplyTemplate(raw, template(input.model, raw)), Defaults(input), RepeatCount(input.n),
              input.echo, chat, input.batch, input.f16, input.ignoreEOS)
  }

  /** A successful template lookup replaces the whole prompt; a failed one leaves the raw
      prompt, for chat the joined messages and otherwise the request's prompt. */
  lemma NormalizedPrompt(chat: bool, input: OpenAIRequest, template: TemplateLookup)
    ensures var raw := if chat then ChatPrompt(input.messages) else input.prompt;
            var lookup := template(input.model, raw);
            Normalize(chat, input, template).prompt == (if lookup.Success? then lookup.value else raw)
  {
  }

  /** A failed lookup gives the same canonical request as a template that returns its input:
      the fallback is silent. */
  lemma TemplateFailureIsIdentity(chat: bool, input: OpenAIRequest, template: TemplateLookup)
    requires template(input.model, RawPrompt(chat, input)).Failure?
    ensures Normalize(chat, input, template) == Normalize(chat, input, (m, x) => Success(x))
  {
  }

  /** The predict options of one call: temperature, top-p, top-k, tokens and threads, then the
      batch size, the 16-bit key/value cache and ignore-end-of-sequence, each only when set. */
  function PredictOptions(c: Canonical, threads: int): (opts: seq<PredictOption>)
    ensures |opts| >= 5
    ensures opts[..5] == [SetTemperature(c.sampling.temperature), SetTopP(c.sampling.topP),
                          SetTopK(c.sampling.topK), SetTokens(c.sampling.tokens), SetThreads(threads)]
    ensures (exists i :: 5 <= i < |opts| && opts[i].SetBatch?) <==> c.batch != 0
    ensures forall i :: 5 <= i < |opts| && opts[i].SetBatch? ==> opts[i].batch == c.batch
    ensures |opts| == 5 + (if c.batch != 0 then 1 else 0) + (if c.f16 then 1 else 0) + (if c.ignoreEOS then 1 else 0)
    ensures forall i :: 5 <= i < |opts| ==> opts[i].SetBatch? || opts[i] == EnableF16KV || opts[i] == IgnoreEOS
    ensures EnableF16KV in opts <==> c.f16
    ensures IgnoreEOS in opts <==> c.ignoreEOS
  {
    var base := [SetTemperature(c.sampling.temperature), SetTopP(c.sampling.topP),
                 SetTopK(c.sampling.topK), SetTokens(c.sampling.tokens), SetThreads(threads)];
    var withBatch := if c.batch != 0 then base + [SetBatch(c.batch)] else base;
    var withF16 := if c.f16 then withBatch + [EnableF16KV] else withBatch;
    var opts := if c.ignoreEOS then withF16 + [IgnoreEOS] else withF16;
    assert c.batch != 0 ==> opts[5] == SetBatch(c.batch);
    opts
  }
}
