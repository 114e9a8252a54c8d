# AI facades: a Dafny model

This project models the logic of a small TypeScript library that wraps three
AI back ends behind facade classes:

- a **configuration loader** that reads six environment variables into a
  read-only settings record, with a fixed default for each;
- a **hosted-LLM facade** (`OpenAIClient`). Its constructor refuses an
  empty API key. It has a chat call built from one user message, and an
  embedding call with a fixed model;
- an **inference-hub facade** (`HuggingFaceClient`). It covers text
  generation, feature extraction and zero-shot classification:
  - feature extraction normalises the response shape to one vector;
  - classification zips the parallel `labels` and `scores` arrays by
    position;
- a **local numeric-model helper** (`TensorFlowHelper`). It has:
  - a one-bit initialisation state machine;
  - a fixed one-unit regression architecture;
  - column-shaped training tensors;
  - `file://` locations for saving and loading.

The network calls and the numeric library's readiness, fit, forward pass,
save and load are not modelled. Each is a parameter: a function-typed call
that returns or throws, or the outcome the library settles with. A facade
operation builds a request, and the model says exactly which request that is.
The operation hands the request to the call and then works on the response
body that comes back. Response bodies are JavaScript values (`Js.Json`).

Each operation is written with the language's own semantics. `||` tests
ECMAScript truthiness. A property read on `null` or `undefined` throws a
`TypeError`. Optional chaining reads `undefined` instead. An out-of-range
index reads `undefined`. This matters for the defaults: an explicit `0`
temperature, or an empty model name, takes the default.

Each response handler has an independent, typed reference view beside it,
and lemmas connect the two:

- `OpenAi.Completion`/`OpenAi.EmbeddingResponse` for the SDK's declared
  response types, with every field the facade does not read kept at each
  level (a choice's `index` and `finish_reason`, a message's `role`, an
  item's `index` and `object`, the body's `id`, `model` and `usage`);
- `HuggingFace.EmbeddingShape`, a tagged union of the documented embedding
  shapes;
- `HuggingFace.TextGenerationOutput`, the declared generation output with any
  other fields it carries;
- `HuggingFace.Zip` for positional pairing.

Modules, one per file:

| module | file | models |
|---|---|---|
| `Optional` | option.dfy | optional values |
| `Numbers` | numbers.dfy | `parseInt` without a radix, decimal text |
| `Js` | js.dfy | JavaScript values, truthiness, property/index reads, call outcomes |
| `Config` | config.dfy | src/utils/config.ts |
| `Generation` | generation.dfy | the per-call option defaulting shared by both text facades |
| `OpenAi` | openai.dfy | src/ai/openai/client.ts |
| `HuggingFace` | huggingface.dfy | src/ai/huggingface/client.ts |
| `TensorFlow` | tensorflow.dfy | src/ai/tensorflow/helper.ts |

Points where the code does something a reader might not expect:

- **Classification order.** The result is in the order the response lists
  its labels. The caller's candidate order is only forwarded in the
  request. `HuggingFace.ClassifyTextFollowsResponseOrder` shows the two
  orders differing.
- **Provider failures** are rethrown unchanged. They are not wrapped in a
  provider-specific error type.
- **A missing API key** raises a plain `Error` with the message
  "OpenAI API key is required". There is no dedicated configuration error
  type. The inference-hub facade never refuses a key: `HuggingFace.New`
  copies the configured key and model, even an empty key, and only the
  provider can reject it.
- **Training does no length check.** It never compares the lengths of the
  two training arrays, so no validation error exists. Each array becomes an
  n×1 tensor on its own.
- **`initialize` only awaits the backend's readiness.** It selects no
  backend.
- **The initialisation flag is not atomic.** It is set after the await, so
  overlapping calls can each await readiness. Only sequential calls are
  modelled.
- **The port can be `NaN`.** It is whatever `parseInt` yields, so it is
  `NaN` for text without leading digits. It is not always an integer.

## Model

| member | source | states |
|---|---|---|
| Numbers.ParseIntOfDecimal | src/utils/config.ts:19 | the port parser reads back the decimal text of every natural number, and ignores any trailing text that does not continue the number |
| Numbers.ParseIntSkipsWhiteSpace | src/utils/config.ts:19 | leading white space never changes the parsed port |
| Numbers.ParseIntDefaultPort | src/utils/config.ts:19 | the default port text "3000" parses to the number 3000 |
| Numbers.ParseIntIgnoresTrailingText | src/utils/config.ts:19 | "80abc" parses to 80: digits are read up to the first non-digit |
| Numbers.ParseIntHexadecimal | src/utils/config.ts:19 | without a radix, a `0x` prefix makes the port text hexadecimal ("0x1F" is 31) |
| Numbers.ParseIntNegative | src/utils/config.ts:19 | a leading minus sign negates the port ("-12" is -12) |
| Numbers.ParseIntWithoutDigits | src/utils/config.ts:19 | text that, after any leading white space, is empty or starts with neither a digit nor a sign gives NaN rather than a port |
| Numbers.ParseIntSignWithoutDigits | src/utils/config.ts:19 | a sign (after any white space) that is not followed by a decimal digit gives NaN |
| Js.TypedDefaultingIsOr | src/ai/openai/client.ts:27-30 | defaulting a typed option field (non-empty string or non-zero number kept, anything else replaced) is exactly JavaScript's `\|\|` on the field, an absent field read as `undefined` |
| Config.Load | src/utils/config.ts:6-21 | each of the six settings is its variable's value when that is set and non-empty, and otherwise the fixed default ("" for both keys, "gpt-3.5-turbo", "microsoft/DialoGPT-medium", "cpu", port 3000); a given port is parsed as an integer |
| Config.LoadWithoutOverrides | src/__tests__/config.test.ts:12-17 | with no variable set, the settings are exactly the four documented defaults, and both keys are empty |
| Config.LoadDependsOnlyOnGivenVariables | src/utils/config.ts:8-19 | two environments that give the same six variables the same non-empty values yield the same settings; no other variable is read |
| Config.EmptyIsUnset | src/utils/config.ts:8-19 | a variable set to the empty string yields the same settings as leaving it unset |
| Generation.ChosenModel | src/ai/openai/client.ts:27 | the requested model is the option when it is a non-empty string, and the configured model when it is absent or empty |
| Generation.ChosenMaxTokens | src/ai/openai/client.ts:29 | the token limit is the option when it is non-zero, 100 when it is absent or zero, and never zero |
| Generation.ChosenTemperature | src/ai/huggingface/client.ts:25 | the temperature is the option when it is non-zero, 0.7 when it is absent or zero, and never zero |
| Generation.ExplicitZeroTakesDefault | src/ai/huggingface/client.ts:24-25 | an explicit temperature 0 is sent as 0.7, and an explicit token limit 0 as 100 |
| OpenAi.New | src/ai/openai/client.ts:7-15 | construction throws an Error with "OpenAI API key is required" exactly when the configured key is empty, and otherwise keeps that key |
| OpenAi.ChatRequestFor | src/ai/openai/client.ts:26-31 | the chat request has exactly one message, from role "user", whose content is the prompt; model, token limit and temperature are the chosen option or default |
| OpenAi.FirstChoiceContent | src/ai/openai/client.ts:33 | content extraction throws on a missing response, and any falsy value it returns is the empty string; on every declared completion, whatever other fields it, its choices and their messages carry, the result is the first choice's content, or '' when there is no choice, message or content |
| OpenAi.GenerateText | src/ai/openai/client.ts:17-38 | a failed chat call's exception reaches the caller unchanged; otherwise the result is the content extraction of the body, truthy or ''; a call that answers with any declared completion yields its first choice's content, or '' |
| OpenAi.FirstChoiceContentOfRealCompletion | src/ai/openai/client.ts:33 | a completion carrying `id`, `object`, `index`, `finish_reason` and `role` beside the fields read yields its content "hi" |
| OpenAi.MissingChoicesThrows | src/ai/openai/client.ts:33-37 | a response body without `choices` makes generateText throw a TypeError |
| OpenAi.EmbeddingRequestFor | src/ai/openai/client.ts:42-45 | the embedding request uses the fixed model "text-embedding-ada-002" and the text unchanged |
| OpenAi.FirstEmbedding | src/ai/openai/client.ts:47 | embedding extraction throws on a missing response, and never returns a falsy value; on every declared embedding response, whatever other fields it and its items carry, the result is the first item's vector (even an empty one), or [] when there is no item or no vector |
| OpenAi.GenerateEmbedding | src/ai/openai/client.ts:40-52 | a failed embedding call's exception reaches the caller unchanged; otherwise the result is the embedding extraction of the body, never falsy; a call that answers with any declared embedding response yields its first item's vector, or [] |
| HuggingFace.TextGenerationRequestFor | src/ai/huggingface/client.ts:20-27 | the generation request carries the prompt verbatim, with model, token limit and temperature chosen as option or default |
| HuggingFace.GenerateText | src/ai/huggingface/client.ts:11-34 | a failed call's exception reaches the caller unchanged; a missing body throws; an object's `generated_text` is returned verbatim whatever other fields it has, and `undefined` when it lacks one or is not an object |
| HuggingFace.GenerateTextOfOutput | src/ai/huggingface/client.ts:20-29 | end to end, every declared generation output yields exactly its generated text, whatever other fields the provider adds |
| HuggingFace.FeatureExtractionRequestFor | src/ai/huggingface/client.ts:38-41 | feature extraction uses the fixed model "sentence-transformers/all-MiniLM-L6-v2" and the text unchanged |
| HuggingFace.NormaliseEmbedding | src/ai/huggingface/client.ts:44-52 | an array whose first element is a number is returned whole; an array whose first element is an array yields exactly that first row; anything else yields [] |
| HuggingFace.GetEmbedding | src/ai/huggingface/client.ts:36-57 | a failed call's exception reaches the caller unchanged; otherwise the result is the normalised vector |
| HuggingFace.NormaliseMatchesShape | src/ai/huggingface/client.ts:43-52 | on every documented shape (a flat vector, or one vector per row), the runtime probing returns what the tagged union says: the flat vector, or the first row only |
| HuggingFace.NormaliseEmbeddingExamples | src/ai/huggingface/client.ts:44-52 | [0.1,0.2,0.3] comes back unchanged, [[0.1,0.2],[0.3,0.4]] yields [0.1,0.2], and [], an empty first row and a non-array each yield [] |
| HuggingFace.ZeroShotRequestFor | src/ai/huggingface/client.ts:64-68 | classification uses the fixed model "facebook/bart-large-mnli", and forwards the caller's labels unchanged as candidate labels |
| HuggingFace.PairByPosition | src/ai/huggingface/client.ts:75-78 | the pairing has one entry per label, in label order; entry i holds label i and score i, or undefined past the end of the scores; it throws exactly when there is a label and the scores are missing |
| HuggingFace.ZeroShotResult | src/ai/huggingface/client.ts:71-81 | an object lacking labels or scores, or an array, yields []; a null, undefined or primitive body throws a TypeError; with both fields present, the result is the positional pairing, and it throws when labels is not an array |
| HuggingFace.ClassifyText | src/ai/huggingface/client.ts:59-86 | a failed call's exception reaches the caller unchanged; otherwise the result is the classification result of the response |
| HuggingFace.ZipByPosition | src/ai/huggingface/client.ts:75-78 | the reference zip pairs the i-th label with the i-th score |
| HuggingFace.ZeroShotResultIsZip | src/ai/huggingface/client.ts:71-78 | on a response with string labels and at least as many numeric scores, the result is the reference zip of the two, in the response's order |
| HuggingFace.ClassifyTextFollowsResponseOrder | src/ai/huggingface/client.ts:64-78 | candidates ["neg","pos"] answered with labels ["pos","neg"] and scores [0.9,0.1] give [{pos,0.9},{neg,0.1}]: the response's order, not the caller's |
| HuggingFace.MissingFieldYieldsEmpty | src/ai/huggingface/client.ts:71-81 | a response with labels but no scores, or scores but no labels, yields [] |
| TensorFlow.Initialize | src/ai/tensorflow/helper.ts:6-12 | an initialised helper returns at once without awaiting readiness; otherwise readiness is awaited, its outcome is the call's, and the flag is set exactly when readiness succeeded |
| TensorFlow.FirstSuccess | src/ai/tensorflow/helper.ts:10-11 | the position of the first successful readiness: every earlier one failed |
| TensorFlow.InitializedStaysQuiet | src/ai/tensorflow/helper.ts:7 | once initialised, any run of calls keeps the flag set and never awaits readiness |
| TensorFlow.ReadinessUntilFirstSuccess | src/ai/tensorflow/helper.ts:4-12 | from a fresh helper, sequential calls await readiness up to and including the first success and never after; the flag ends set exactly when some readiness succeeded |
| TensorFlow.InitializeOnce | src/__tests__/tensorflow.test.ts:10-12 | when readiness succeeds, one or more sequential calls await it exactly once and leave the helper initialised |
| TensorFlow.CreateModel | src/ai/tensorflow/helper.ts:14-25 | the model has one dense layer (input shape [1], one unit), compiled with "sgd" and "meanSquaredError" |
| TensorFlow.Tensor2d | src/ai/tensorflow/helper.ts:33-34 | a 2-D tensor builds exactly when the shape has two dimensions whose product is the number of values |
| TensorFlow.ColumnTensorAlwaysBuilds | src/ai/tensorflow/helper.ts:33-34 | each training array becomes a [length, 1] tensor, whatever the two lengths are |
| TensorFlow.TrainingFit | src/ai/tensorflow/helper.ts:31-39 | training fits a fresh model on the two column tensors for 100 epochs with no progress output |
| TensorFlow.TrainSimpleModelAsWritten | src/ai/tensorflow/helper.ts:27-46 | as written: a successful fit returns the fitted model with the tensor count restored; a failed fit's exception reaches the caller |
| TensorFlow.TrainLeaksWhenFitThrows | src/ai/tensorflow/helper.ts:36-43 | as written, a fit that throws leaves both training tensors allocated |
| TensorFlow.TrainSimpleModel | src/ai/tensorflow/helper.ts:27-46 | with the disposal made unconditional, the live tensor count always ends where it started; the outcome is the fitted model or the fit's exception |
| TensorFlow.PredictionInput | src/ai/tensorflow/helper.ts:49 | the prediction input is a [1, 1] tensor holding the scalar |
| TensorFlow.PredictAsWritten | src/ai/tensorflow/helper.ts:48-53 | as written: the result is the first value of the forward pass, or the forward pass's error unchanged, and each call leaves one more live tensor whether or not it throws |
| TensorFlow.PredictLeaksPerCall | src/ai/tensorflow/helper.ts:48-53 | as written, n predictions leave n tensors allocated, whichever of them throw |
| TensorFlow.Predict | src/ai/tensorflow/helper.ts:48-53 | with the input tensor disposed too: the same result or the same error, and the live tensor count ends where it started in both cases |
| TensorFlow.Location | src/ai/tensorflow/helper.ts:56 | the location is "file://" followed by the path verbatim |
| TensorFlow.PathOfLocation | src/ai/tensorflow/helper.ts:56 | the path can be read back from its location |
| TensorFlow.LocationInjective | src/ai/tensorflow/helper.ts:55-61 | two paths give the same location exactly when they are equal |
| TensorFlow.SaveModel | src/ai/tensorflow/helper.ts:55-57 | a failed save reaches the caller unchanged; a successful one stores the model at the path's location, leaves every other location as it was, and adds no location but that one |
| TensorFlow.LoadModel | src/ai/tensorflow/helper.ts:59-61 | a rejection by the library's load handler reaches the caller unchanged; once the handler reads, loading succeeds exactly when something is stored at the path's location, and returns that model |
| TensorFlow.LoadRejectionPassesThrough | src/ai/tensorflow/helper.ts:59-61 | a load whose handler rejects fails with that rejection, even right after a successful save under the same path |
| TensorFlow.SaveThenLoad | src/ai/tensorflow/helper.ts:55-61 | after a successful save and a load whose handler reads, loading the path returns the model just saved, and loading any other path returns what it did before |

## Left out

- The SDK calls are not modelled. They are network or foreign-library calls. The request calls (chat, embeddings, text generation, feature extraction, zero-shot classification) and the forward pass of `model.predict` enter as function-typed parameters that return or throw. The readiness in `TensorFlow.Initialize`, the fit, the save's `saved` and the load's `reading` enter as the outcome the library settles with.
- `tf.sequential`, `tf.layers.dense`, `compile`, `tf.tensor2d`, `dataSync` and `dispose` are modelled directly, by `TensorFlow.CreateModel`, `TensorFlow.Tensor2d`, `TensorFlow.FirstValue` and `TensorFlow.Engine`. Of these only `TensorFlow.Tensor2d` can throw, exactly when a shape does not fit its values, and the helper's shapes always fit (`TensorFlow.ColumnTensorAlwaysBuilds`, `TensorFlow.PredictionInput`); the others are assumed never to throw.
- The SDK constructors `new OpenAI(...)` and `new HfInference(...)` are not modelled. They are assumed never to throw: `OpenAi.New` fails only on the empty key, and `HuggingFace.New` never fails.
- Training, gradient descent and prediction numerics belong to the numeric library. Fitting is a parameter, and the forward pass is a parameter returning the output values or an error. So the test that a prediction is close to 10 has no counterpart here.
- The on-disk model format belongs to the numeric library. The store assumes a saved model is recovered exactly.
- TensorFlow.SaveThenLoad: the round trip is stated only for a load whose handler reads (`reading` succeeds). The model does not promise that such a handler exists. The browser build of the library registers no `file://` handler, and a file-system handler may expect a different path on load than it wrote to on save; either case is a rejected `reading`, which `TensorFlow.LoadRejectionPassesThrough` covers.
- Floating point is not modelled. Numbers are exact reals. `NaN` and infinities are not response values, and `parseInt` results above 2^53 are not rounded.
- Strings are sequences of Unicode characters, not UTF-16 code units. Indexing a string therefore differs from JavaScript only for characters outside the Basic Multilingual Plane.
- `Js.Get` does not model built-in properties such as `length` or prototype members. The one the facades use, the array `map` that classification calls on `labels`, is modelled directly in `HuggingFace.ZeroShotResult`: an array is paired by position, and anything else throws a `TypeError`.
- The `console.error` logging before each rethrow is not modelled. It has no effect on results.
- Concurrent `initialize` calls are not modelled. The flag is set only after the await, so overlapping calls can each await readiness. Only sequential calls are modelled, and no atomicity is claimed.
- `tensorflow.backend` and `server.port` are loaded into the settings but never used by the facades. No behaviour is attached to them.
- `dotenv` loading of a `.env` file is not modelled. The environment is a plain map given as a parameter.
- The example scripts, `src/index.ts` and the compiled `dist/` files are not modelled. The scripts are console demos, and the `dist/` files duplicate `src`.
- The model's weight tensors are not counted by `TensorFlow.Engine`. Only the tensors the helper itself builds and disposes are counted.

## Findings

| source | as written | input that shows it | evidently intended | confidence | as-written member | corrected member |
|---|---|---|---|---|---|---|
| src/ai/tensorflow/helper.ts:36-43 | the two training tensors are disposed only after the awaited fit returns | a fit that rejects (for example, training arrays of different lengths) leaves both tensors allocated | the tensors are released whether or not the fit succeeds | medium, not executed | TensorFlow.TrainSimpleModelAsWritten, TensorFlow.TrainLeaksWhenFitThrows | TensorFlow.TrainSimpleModel |
| src/ai/tensorflow/helper.ts:49-51 | the input tensor built for the forward pass is never disposed; only the output is | any call of predict leaves one tensor allocated, so n calls leave n | every temporary tensor of a prediction is released | high, not executed | TensorFlow.PredictAsWritten, TensorFlow.PredictLeaksPerCall | TensorFlow.Predict |
