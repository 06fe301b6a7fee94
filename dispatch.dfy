/** The completion handler: model resolution, the lock choice, the repeat loop over the
    inference engine and the response envelope. */
module Dispatch {
  import opened Wrappers
  import opened ApiTypes
  import opened Normalization
  import opened Locks

  /** Role label of every chat choice. */
  const AssistantRole: string := "assistant"

  /** The model loader's `LoadModel` and `TemplatePrefix`. */
  datatype Loader = Loader(load: string -> Result<ModelHandle, Error>, template: TemplateLookup)

  /** The inference engine's `Predict`: the outcome of the `call`-th call of a request (counted
      from 0) on a model with a prompt and options. The call number stands for the engine's
      sampling state, so repeated calls may give different texts. */
  type Predictor = (ModelHandle, string, seq<PredictOption>, nat) -> Result<string, Error>

  /** The model a request runs on: the default model when it names none (an error when there
      is no default model), otherwise whatever the loader returns for the name. */
  function Resolve(name: string, defaultModel: Option<ModelHandle>, load: string -> Result<ModelHandle, Error>): (r: Result<ModelHandle, Error>)
    ensures name == "" && defaultModel.None? ==> r == Failure(NoDefaultModel)
    ensures name == "" && defaultModel.Some? ==> r == Success(defaultModel.value)
    ensures name != "" ==> r == load(name)
  {
    if name == "" then
      match defaultModel
      case None => Failure(NoDefaultModel)
      case Some(m) => Success(m)
    else load(name)
  }

  /** The number of loop iterations for a repeat count: none for a negative count. */
  function Iterations(n: int): nat {
    if n < 0 then 0 else n
  }

  /** The first `n` predictions in call order, or the error of the first call that fails. */
  function Predictions(predict: Predictor, h: ModelHandle, prompt: string, opts: seq<PredictOption>, n: nat): Result<seq<string>, Error>
    decreases n
  {
    if n == 0 then Success([])
    else
      match Predictions(predict, h, prompt, opts, n - 1)
      case Failure(e) => Failure(e)
      case Success(earlier) =>
        match predict(h, prompt, opts, n - 1)
        case Failure(e) => Failure(e)
        case Success(p) => Success(earlier + [p])
  }

  /** The predictions succeed exactly when each of the `n` calls succeeds, and then they are
      the `n` call results in call order. */
  lemma {:induction false} PredictionsSucceed(predict: Predictor, h: ModelHandle, prompt: string, opts: seq<PredictOption>, n: nat)
    ensures Predictions(predict, h, prompt, opts, n).Success? <==>
            forall i :: 0 <= i < n ==> predict(h, prompt, opts, i).Success?
    ensures Predictions(predict, h, prompt, opts, n).Success? ==>
            var ps := Predictions(predict, h, prompt, opts, n).value;
            |ps| == n && forall i :: 0 <= i < n ==> ps[i] == predict(h, prompt, opts, i).value
    decreases n
  {
    if n > 0 {
      PredictionsSucceed(predict, h, prompt, opts, n - 1);
    }
  }

  /** A failure is the error of some call all of whose predecessors succeeded. */
  lemma {:induction false} PredictionsFail(predict: Predictor, h: ModelHandle, prompt: string, opts: seq<PredictOption>, n: nat)
    requires Predictions(predict, h, prompt, opts, n).Failure?
    ensures exists k :: 0 <= k < n && predict(h, prompt, opts, k) == Failure(Predictions(predict, h, prompt, opts, n).error) &&
                        forall j :: 0 <= j < k ==> predict(h, prompt, opts, j).Success?
    decreases n
  {
    var e := Predictions(predict, h, prompt, opts, n).error;
    if Predictions(predict, h, prompt, opts, n - 1).Failure? {
      PredictionsFail(predict, h, prompt, opts, n - 1);
    } else {
      PredictionsSucceed(predict, h, prompt, opts, n - 1);
      assert predict(h, prompt, opts, n - 1) == Failure(e);
    }
  }

  /** Once a call has failed no later call is made: the error stays the outcome for every
      larger count. */
  lemma {:induction false} PredictionsFailureIsFinal(predict: Predictor, h: ModelHandle, prompt: string, opts: seq<PredictOption>, m: nat, n: nat)
    requires m <= n
    requires Predictions(predict, h, prompt, opts, m).Failure?
    ensures Predictions(predict, h, prompt, opts, n) == Predictions(predict, h, prompt, opts, m)
    decreases n
  {
    if m < n {
      PredictionsFailureIsFinal(predict, h, prompt, opts, m, n - 1);
    }
  }

  /** The choice for one prediction: an assistant message for chat, a text otherwise. The
      index is never set. */
  function MakeChoice(chat: bool, content: string): Choice {
    if chat then Choice(0, "", Some(Message(AssistantRole, content)), "")
    else Choice(0, "", None, content)
  }

  /** A client reads back exactly the content the choice was made from. */
  lemma MakeChoiceContent(chat: bool, content: string)
    ensures ChoiceContent(MakeChoice(chat, content)) == content
    ensures MakeChoice(chat, content).index == 0
    ensures chat <==> MakeChoice(chat, content).message.Some?
  {
  }

  /** The content of a choice: the prediction, after the prompt when echo is set. */
  function Content(c: Canonical, prediction: string): string {
    if c.echo then c.prompt + prediction else prediction
  }

  /** The choices for a list of predictions, in order. */
  function Choices(c: Canonical, predictions: seq<string>): seq<Choice> {
    seq(|predictions|, i requires 0 <= i < |predictions| => MakeChoice(c.chat, Content(c, predictions[i])))
  }

  /** The outcome of the repeat loop: all choices, or the first error. */
  function Outcome(predict: Predictor, h: ModelHandle, c: Canonical, threads: int): Result<seq<Choice>, Error> {
    match Predictions(predict, h, c.prompt, PredictOptions(c, threads), Iterations(c.n))
    case Failure(e) => Failure(e)
    case Success(ps) => Success(Choices(c, ps))
  }

  /** The repeat loop: `n` predict calls in order, each wrapped as a choice; the first failing
      call ends the loop with its error and discards the choices built so far. `calls` is
      the number of predict calls made. */
  method RepeatPredict(predict: Predictor, h: ModelHandle, c: Canonical, threads: int)
    returns (res: Result<seq<Choice>, Error>, calls: nat)
    ensures res == Outcome(predict, h, c, threads)
    ensures calls <= Iterations(c.n)
    ensures res.Success? ==> calls == Iterations(c.n)
    ensures res.Failure? ==> calls >= 1 && predict(h, c.prompt, PredictOptions(c, threads), calls - 1) == Failure(res.error) &&
                             Predictions(predict, h, c.prompt, PredictOptions(c, threads), calls - 1).Success?
  {
    ghost var opts := PredictOptions(c, threads);
    var result: seq<Choice> := [];
    var i := 0;
    while i < c.n
      invariant 0 <= i <= Iterations(c.n)
      invariant Predictions(predict, h, c.prompt, opts, i).Success?
      invariant result == Choices(c, Predictions(predict, h, c.prompt, opts, i).value)
    {
      var predictOptions := PredictOptions(c, threads);
      var prediction := predict(h, c.prompt, predictOptions, i);
      if prediction.Failure? {
        PredictionsFailureIsFinal(predict, h, c.prompt, opts, i + 1, Iterations(c.n));
        return Failure(prediction.error), i + 1;
      }
      ghost var earlier := Predictions(predict, h, c.prompt, opts, i).value;
      result := result + [MakeChoice(c.chat, Content(c, prediction.value))];
      assert Choices(c, earlier + [prediction.value]) == Choices(c, earlier) + [MakeChoice(c.chat, Content(c, prediction.value))];
      i := i + 1;
    }
    return Success(result), i;
  }

  /** The response of the completion handler, as a function of everything it reads. */
  function Endpoint(chat: bool, defaultModel: Option<ModelHandle>, loader: Loader, predict: Predictor, threads: int, input: OpenAIRequest): Result<OpenAIResponse, Error> {
    match Resolve(input.model, defaultModel, loader.load)
    case Failure(e) => Failure(e)
    case Success(h) =>
      match Outcome(predict, h, Normalize(chat, input, loader.template), threads)
      case Failure(e) => Failure(e)
      case Success(choices) => Success(OpenAIResponse(0, "", "", input.model, choices))
  }

  /** A request naming no model fails when there is no default model, and a request naming a
      model the loader cannot load fails with the loader's error. */
  lemma EndpointResolutionFails(chat: bool, defaultModel: Option<ModelHandle>, loader: Loader, predict: Predictor, threads: int, input: OpenAIRequest)
    ensures input.model == "" && defaultModel.None? ==> Endpoint(chat, defaultModel, loader, predict, threads, input) == Failure(NoDefaultModel)
    ensures input.model != "" && loader.load(input.model).Failure? ==>
            Endpoint(chat, defaultModel, loader, predict, threads, input) == Failure(loader.load(input.model).error)
  {
  }

  /** All or nothing: the request succeeds exactly when the model resolves and every one of the
      repeat calls succeeds. */
  lemma EndpointSucceeds(chat: bool, defaultModel: Option<ModelHandle>, loader: Loader, predict: Predictor, threads: int, input: OpenAIRequest)
    ensures Endpoint(chat, defaultModel, loader, predict, threads, input).Success? <==>
            && Resolve(input.model, defaultModel, loader.load).Success?
            && var h := Resolve(input.model, defaultModel, loader.load).value;
               var c := Normalize(chat, input, loader.template);
               forall i :: 0 <= i < Iterations(c.n) ==> predict(h, c.prompt, PredictOptions(c, threads), i).Success?
  {
    if Resolve(input.model, defaultModel, loader.load).Success? {
      var h := Resolve(input.model, defaultModel, loader.load).value;
      var c := Normalize(chat, input, loader.template);
      PredictionsSucceed(predict, h, c.prompt, PredictOptions(c, threads), Iterations(c.n));
    }
  }

  /** A successful response echoes the request's model name verbatim and holds one choice per
      iteration in call order: the prediction (after the prompt when echo is set) as an
      assistant message for chat or as text otherwise, with the index left unset. */
  lemma EndpointResponse(chat: bool, defaultModel: Option<ModelHandle>, loader: Loader, predict: Predictor, threads: int, input: OpenAIRequest)
    requires Endpoint(chat, defaultModel, loader, predict, threads, input).Success?
    ensures var r := Endpoint(chat, defaultModel, loader, predict, threads, input).value;
            var h := Resolve(input.model, defaultModel, loader.load).value;
            var c := Normalize(chat, input, loader.template);
            && r == OpenAIResponse(0, "", "", input.model, r.choices)
            && |r.choices| == Iterations(RepeatCount(input.n))
            && forall i :: 0 <= i < |r.choices| ==>
                 && predict(h, c.prompt, PredictOptions(c, threads), i).Success?
                 && var p := predict(h, c.prompt, PredictOptions(c, threads), i).value;
                 && r.choices[i].index == 0
                 && r.choices[i].finishReason == ""
                 && (chat ==> r.choices[i].text == "")
                 && ChoiceContent(r.choices[i]) == (if input.echo then c.prompt + p else p)
                 && (chat ==> r.choices[i].message == Some(Message(AssistantRole, ChoiceContent(r.choices[i]))))
                 && (!chat ==> r.choices[i].message.None?)
  {
    var h := Resolve(input.model, defaultModel, loader.load).value;
    var c := Normalize(chat, input, loader.template);
    PredictionsSucceed(predict, h, c.prompt, PredictOptions(c, threads), Iterations(c.n));
  }

  /** A request that fails after resolution fails with the error of the first failing call. */
  lemma EndpointFailsAtFirstError(chat: bool, defaultModel: Option<ModelHandle>, loader: Loader, predict: Predictor, threads: int, input: OpenAIRequest)
    requires Resolve(input.model, defaultModel, loader.load).Success?
    requires Endpoint(chat, defaultModel, loader, predict, threads, input).Failure?
    ensures var e := Endpoint(chat, defaultModel, loader, predict, threads, input).error;
            var h := Resolve(input.model, defaultModel, loader.load).value;
            var c := Normalize(chat, input, loader.template);
            var opts := PredictOptions(c, threads);
            exists k :: 0 <= k < Iterations(c.n) && predict(h, c.prompt, opts, k) == Failure(e) &&
                        forall j :: 0 <= j < k ==> predict(h, c.prompt, opts, j).Success?
  {
    var h := Resolve(input.model, defaultModel, loader.load).value;
    var c := Normalize(chat, input, loader.template);
    PredictionsFail(predict, h, c.prompt, PredictOptions(c, threads), Iterations(c.n));
  }

  /** A failed template lookup never surfaces: the response is the one a template returning its
      input would give. */
  lemma EndpointIgnoresTemplateFailure(chat: bool, defaultModel: Option<ModelHandle>, loader: Loader, predict: Predictor, threads: int, input: OpenAIRequest)
    requires loader.template(input.model, RawPrompt(chat, input)).Failure?
    ensures Endpoint(chat, defaultModel, loader, predict, threads, input) ==
            Endpoint(chat, defaultModel, loader.(template := (m, x) => Success(x)), predict, threads, input)
  {
    TemplateFailureIsIdentity(chat, input, loader.template);
  }

  /** The completion handler (chat when `chat` is set). It resolves the model, takes the
      model's lock from the table (the default lock when no model is named), normalises the
      request and runs the repeat loop. `lock` is the lock the request runs under and `calls`
      the number of predict calls made; a resolution failure takes no lock and makes no call. */
  method OpenAIEndpoint(chat: bool, defaultModel: Option<ModelHandle>, loader: Loader, predict: Predictor, threads: int,
                        table: LockTable, input: OpenAIRequest)
    returns (resp: Result<OpenAIResponse, Error>, lock: Option<Mutex>, calls: nat)
    requires table.Valid()
    modifies table
    ensures table.Valid()
    ensures resp == Endpoint(chat, defaultModel, loader, predict, threads, input)
    ensures Resolve(input.model, defaultModel, loader.load).Failure? ==>
              lock == None && calls == 0 && table.mutexes == old(table.mutexes)
    ensures Resolve(input.model, defaultModel, loader.load).Success? && input.model == "" ==>
              lock == Some(table.defaultMutex) && table.mutexes == old(table.mutexes)
    ensures Resolve(input.model, defaultModel, loader.load).Success? && input.model != "" ==>
              && input.model in table.mutexes && lock == Some(table.mutexes[input.model])
              && (input.model in old(table.mutexes) ==> table.mutexes == old(table.mutexes))
              && (input.model !in old(table.mutexes) ==> fresh(lock.value) && table.mutexes == old(table.mutexes)[input.model := lock.value])
    ensures Resolve(input.model, defaultModel, loader.load).Success? ==>
              calls <= Iterations(RepeatCount(input.n)) && (resp.Success? ==> calls == Iterations(RepeatCount(input.n)))
  {
    var model: ModelHandle;
    if input.model == "" {
      if defaultModel.None? {
        return Failure(NoDefaultModel), None, 0;
      }
      model := defaultModel.value;
    } else {
      var loaded := loader.load(input.model);
      if loaded.Failure? {
        return Failure(loaded.error), None, 0;
      }
      model := loaded.value;
    }

    var l := table.Acquire(input.model);
    lock := Some(l);

    var sampling := Defaults(input);
    var predInput := input.prompt;
    if chat {
      predInput := JoinMessages(input.messages);
    }
    var templated := loader.template(input.model, predInput);
    if templated.Success? {
      predInput := templated.value;
    }
    var n := input.n;
    if input.n == 0 {
      n := DefaultN;
    }
    var c := Canonical(predInput, sampling, n, input.echo, chat, input.batch, input.f16, input.ignoreEOS);
    assert c == Normalize(chat, input, loader.template);

    var choices;
    choices, calls := RepeatPredict(predict, model, c, threads);
    if choices.Failure? {
      return Failure(choices.error), lock, calls;
    }
    resp := Success(OpenAIResponse(0, "", "", input.model, choices.value));
  }
}
