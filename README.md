# LocalAI API layer: request dispatch and lock table

This project models the OpenAI-compatible completion handler of LocalAI's API layer
(`openAIEndpoint` in `api/api.go`) and the `/v1/models` listing. It proves properties of that model.

For each request, the handler:

- resolves the target model: the default model when the request names none, otherwise the loader's `LoadModel`;
- picks the lock the generation runs under. The empty name uses the default lock. A named model uses its entry in the `mutexes` table, and a fresh lock is inserted the first time the name is seen;
- normalises the request: default sampling values for zero fields, a repeat count of 1 for `n == 0`, chat messages joined by newlines, and an optional prompt template;
- calls the inference engine `n` times in order, with early return on the first error;
- wraps each prediction as an assistant chat message or as a text choice.

Modules:

- `Wrappers` (`wrappers.dfy`): `Option` and `Result`.
- `ApiTypes` (`types.dfy`): the request, response, choice, message and listing records, the predict options and the errors.
- `Strings` (`strings.dfy`): `Join` models Go's `strings.Join`. `Split` is its partner, used to state that joining keeps every part, in order.
- `Normalization` (`normalize.dfy`): defaults, repeat count, chat flattening (`JoinMessages` runs the source's append loop), template fallback and predict options.
- `Locks` (`locks.dfy`): `class LockTable`, holding the `mutexes` map and the default lock. `Acquire` is the get-or-insert.
- `Dispatch` (`dispatch.dfy`): model resolution, the spec function `Predictions` for the repeat loop, the loop method `RepeatPredict` proved against it, the pure response function `Endpoint`, and the handler method `OpenAIEndpoint`.
- `Listing` (`listing.dfy`): the `/v1/models` loop.

External collaborators are parameters:

- `LoadModel` and `TemplatePrefix` are the functions of a `Loader` value.
- `Predict` is a `Predictor` from (model, prompt, options, call number) to a `Result`. The call number stands for the engine's sampling state, so the repeated calls of one request can return different texts.
- The loader's `ListModels` outcome is the `Result` argument of `Listing.ListModels`.

Behaviour of the code that a client might not expect, modelled as written:

- The OpenAI completions API reference linked at api/api.go:72 describes a choice's `index` as its position in the list of choices. The code never sets `Index`, so every choice has index 0 (`Dispatch.EndpointResponse`).
- Echo prepends the prompt after templating, because the code overwrites `predInput` before the loop.
- The template lookup also runs when no model is named, with the empty name.
- A negative `n` runs the loop zero times. The request then succeeds with no choices and no predict call.
- The lock is taken before normalisation, as in the code. In this model that order has no observable effect.

## Model

| member | source | states |
|---|---|---|
| `Normalization.Defaults` | api/api.go:113-131 | top-p, top-k, temperature and max tokens become 0.7, 80, 0.9 and 512 when zero. Any non-zero value passes unchanged, and no normalised value is zero |
| `Normalization.DefaultsIdempotent` | api/api.go:113-131 | normalising an already normalised request gives the same sampling values |
| `Normalization.RepeatCount` | api/api.go:153-157 | the repeat count is `n`, or 1 when `n` is 0; it is never 0 |
| `Normalization.JoinMessages` | api/api.go:133-141 | the append loop over the messages followed by the join computes `ChatPrompt` |
| `Normalization.ChatPromptSnoc` | api/api.go:135-140 | appending a message appends exactly one newline and its content, so contents appear in message order |
| `Normalization.ChatPromptIgnoresRoles` | api/api.go:136-138 | two conversations with the same contents give the same prompt, whatever their roles |
| `Normalization.ChatPromptSplits` | api/api.go:133-141 | when no content holds a newline, splitting the chat prompt at newlines gives back the message contents, one per message, in order |
| `Strings.JoinSnoc` | api/api.go:140 | `strings.Join` with one more part adds one separator and that part at the end |
| `Strings.SplitJoin` | api/api.go:140 | splitting a join of at least one separator-free part recovers the parts |
| `Normalization.Normalize` | api/api.go:113-157 | the canonical request carries the defaulted sampling values, the repeat count, and the echo, chat, batch, f16kv and ignore_eos settings of the request |
| `Normalization.NormalizedPrompt` | api/api.go:133-149 | the prompt is the template output when the lookup succeeds. Otherwise it is the raw prompt: the joined messages for chat, the request prompt otherwise |
| `Normalization.TemplateFailureIsIdentity` | api/api.go:143-149 | a failed template lookup gives the same canonical request as a template returning its input |
| `Normalization.PredictOptions` | api/api.go:161-179 | every call gets temperature, top-p, top-k, tokens and threads, followed only by the optional options, at most one of each. A batch option, with the request's batch size, is present exactly when the batch is non-zero. F16KV and IgnoreEOS are present exactly when set |
| `Locks.LockTable.constructor` | api/api.go:215-217 | the table starts with an empty map and the shared default lock |
| `Locks.LockTable.Acquire` | api/api.go:96-111 | the empty name returns the default lock and leaves the map alone. A known name returns its existing lock with the map unchanged. A new name gets exactly one fresh lock inserted, and every other entry is kept. Every name keeps a lock of its own |
| `Dispatch.Resolve` | api/api.go:84-94 | a request with no model name and no default model fails with the no-default error. With no name it runs on the default model, and with a name it gets whatever `LoadModel` returns |
| `Dispatch.PredictionsSucceed` | api/api.go:159-187 | the loop's predictions succeed exactly when each of the `n` calls succeeds. They are then the call results, one per call, in call order |
| `Dispatch.PredictionsFail` | api/api.go:181-187 | a failure carries the error of a call all of whose predecessors succeeded |
| `Dispatch.PredictionsFailureIsFinal` | api/api.go:185-187 | once a call fails, the outcome stays that error whatever the remaining count |
| `Dispatch.MakeChoiceContent` | api/api.go:192-196 | a choice's readable content is the content it was built from. A chat choice holds a message and a completion choice does not. The index is 0 |
| `Dispatch.RepeatPredict` | api/api.go:151-197 | the loop returns all choices or the first error (nothing partial). It makes `max(n, 0)` calls on success; on failure the last call made is the failing one and all earlier calls succeeded |
| `Dispatch.EndpointResolutionFails` | api/api.go:84-94 | no name and no default fails with the no-default error; a failed load fails with the loader's error |
| `Dispatch.EndpointSucceeds` | api/api.go:84-197 | the request succeeds exactly when the model resolves and every one of the `max(n, 0)` predict calls succeeds |
| `Dispatch.EndpointResponse` | api/api.go:189-203 | a success names the request's model verbatim, leaves `created`, `object` and `id` at their zero values, and holds `max(n, 0)` choices in call order. Each choice holds the prediction, after the post-template prompt when echo is set: as an assistant message with empty text for chat, as text otherwise. The index and finish reason are never set |
| `Dispatch.EndpointFailsAtFirstError` | api/api.go:159-187 | a failure after resolution is the error of the first failing predict call |
| `Dispatch.EndpointIgnoresTemplateFailure` | api/api.go:143-149 | a failed template lookup never reaches the response; the handler answers as with a template that returns its input |
| `Dispatch.OpenAIEndpoint` | api/api.go:73-205 | the handler's response is `Endpoint`. A resolution failure takes no lock, makes no predict call and leaves the table alone. Otherwise the request runs under the lock `Acquire` picks, and a success made exactly `max(n, 0)` calls |
| `Listing.ListModels` | api/api.go:222-239 | a loader error is returned unchanged. Otherwise there is one `{id: name, object: "model"}` entry per name, in the loader's order, inside a `"list"` envelope, and the ids read back as the names |

## Left out

- HTTP plumbing: fiber routing, middleware, `BodyParser` and its parse error, JSON serialisation with `omitempty`, and `app.Listen`. The handler takes the parsed request and returns the response value or the error.
- The embedded `index.html` and the filesystem middleware: static I/O.
- Lock semantics. Blocking, mutual exclusion, the deferred unlocks and the table lock `mutexMap` are concurrency and are left out. The model records only which lock identity a request uses and how the `mutexes` map changes.
- The `/predict` endpoint (api/api.go:256-307): query parsing with `strconv` and a single `Predict` call under the default lock.
- `LoadModel`, `TemplatePrefix`, `ListModels` and `Predict` are abstract parameters. `LoadModel`'s caching and load-once behaviour belong to the model loader, which is not part of this model. The engine's state across requests is not modelled: the predictor sees the call number within one request only.
- `llama.Set*` option constructors and `llama.SetThreads`'s meaning: options are a datatype list.
- Floating-point values: `TopP` and `Temperature` are reals, only compared with zero and passed on.
- Go's 64-bit `int`: the only arithmetic is the loop counter, which stays below `n`, so no wrap-around can happen that matters.
- `Dispatch.OpenAIEndpoint`: the number of predict calls is stated only as `max(n, 0)` on success and as a bound otherwise. `Dispatch.RepeatPredict` states the exact count on failure.
