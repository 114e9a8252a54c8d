/** The hosted-LLM facade: a client that refuses an empty API key, a chat
    call built from a single user message, and an embedding call with a
    fixed model. The SDK is a parameter: each operation hands its request to
    `call` and works on the response body that comes back.
 */
module OpenAi {
  import opened Optional
  import opened Js
  import opened Config
  import opened Generation

  const EmbeddingModel := "text-embedding-ada-002"
  const MissingKeyMessage := "OpenAI API key is required"

  /** A constructed facade: the key it was built with and the configured model. */
  datatype Client = Client(apiKey: string, model: string)

  /** Construction throws an `Error` when the configured key is empty and
      succeeds with that key otherwise. */
  function New(settings: Settings): (r: Outcome<Client>)
    ensures settings.openai.apiKey == "" <==> r.Threw?
    ensures r.Threw? ==> r.exception == Error(MissingKeyMessage)
    ensures r.Returned? ==> r.value.apiKey == settings.openai.apiKey && r.value.apiKey != ""
    ensures r.Returned? ==> r.value.model == settings.openai.model
  {
    if !Truthy(JStr(settings.openai.apiKey)) then Threw(Error(MissingKeyMessage))
    else Returned(Client(settings.openai.apiKey, settings.openai.model))
  }

  datatype Message = Message(role: string, content: string)

  datatype ChatRequest = ChatRequest(model: string, messages: seq<Message>, maxTokens: real, temperature: real)

  datatype EmbeddingRequest = EmbeddingRequest(model: string, input: string)

  /** The chat request for `prompt`: exactly one message, from the user,
      carrying the prompt verbatim, and each option or its default. */
  function ChatRequestFor(client: Client, prompt: string, options: Option<Options>): (q: ChatRequest)
    ensures q.messages == [Message("user", prompt)]
    ensures q.model == ChosenModel(options, client.model)
    ensures q.maxTokens == ChosenMaxTokens(options)
    ensures q.temperature == ChosenTemperature(options)
  {
    ChatRequest(
      ChosenModel(options, client.model),
      [Message("user", prompt)],
      ChosenMaxTokens(options),
      ChosenTemperature(options))
  }

  /** The first choice's message content: the first element of `choices`,
      then its message and that message's content read with optional
      chaining, then `||` with the empty string. Only a missing response or a
      missing `choices` array throws, and the only falsy value it can return
      is the empty string. On every completion the SDK declares, whatever
      other fields it, its choices and their messages carry, the result is
      the first choice's content, or `''`. */
  function FirstChoiceContent(response: Json): (r: Outcome<Json>)
    ensures IsNullish(response) ==> r.Threw?
    ensures r.Returned? ==> Truthy(r.value) || r.value == JStr("")
    ensures forall c :: response == CompletionJson(c) ==> r == Returned(JStr(ExpectedContent(c)))
  {
    match Get(response, "choices")
    case Threw(e) => Threw(e)
    case Returned(choices) =>
      match Index(choices, 0)
      case Threw(e) => Threw(e)
      case Returned(first) =>
        Returned(Or(GetOptional(GetOptional(first, "message"), "content"), JStr("")))
  }

  /** `generateText`: the chat call's first choice content, or `''`; a
      failure of the call reaches the caller unchanged. */
  function GenerateText(client: Client, prompt: string, options: Option<Options>,
                        call: ChatRequest -> Outcome<Json>): (r: Outcome<Json>)
    ensures var q := ChatRequestFor(client, prompt, options);
      && (call(q).Threw? ==> r == call(q))
      && (call(q).Returned? ==> r == FirstChoiceContent(call(q).value))
    ensures r.Returned? ==> Truthy(r.value) || r.value == JStr("")
    ensures forall c :: call(ChatRequestFor(client, prompt, options)) == Returned(CompletionJson(c)) ==>
      r == Returned(JStr(ExpectedContent(c)))
  {
    Rethrowing(ChatRequestFor(client, prompt, options), call, FirstChoiceContent)
  }

  /** The embedding request: the fixed model and the text verbatim. */
  function EmbeddingRequestFor(text: string): (q: EmbeddingRequest)
    ensures q.model == "text-embedding-ada-002" && q.input == text
  {
    EmbeddingRequest(EmbeddingModel, text)
  }

  /** The first embedding: the first element of `data`, its `embedding`
      read with optional chaining, then `||` with an empty array. Only a
      missing response or a missing `data` array throws, and what it returns
      is never falsy. On every embedding response the SDK declares, whatever
      other fields it and its items carry, the result is the first item's
      vector, or `[]`. */
  function FirstEmbedding(response: Json): (r: Outcome<Json>)
    ensures IsNullish(response) ==> r.Threw?
    ensures r.Returned? ==> Truthy(r.value)
    ensures forall d :: response == EmbeddingResponseJson(d) ==> r == Returned(JArr(NumberElems(ExpectedEmbedding(d))))
  {
    match Get(response, "data")
    case Threw(e) => Threw(e)
    case Returned(data) =>
      match Index(data, 0)
      case Threw(e) => Threw(e)
      case Returned(first) => Returned(Or(GetOptional(first, "embedding"), JArr([])))
  }

  /** `generateEmbedding`: the first embedding vector, or `[]`; a failure of
      the call reaches the caller unchanged. */
  function GenerateEmbedding(client: Client, text: string, call: EmbeddingRequest -> Outcome<Json>): (r: Outcome<Json>)
    ensures call(EmbeddingRequestFor(text)).Threw? ==> r == call(EmbeddingRequestFor(text))
    ensures call(EmbeddingRequestFor(text)).Returned? ==> r == FirstEmbedding(call(EmbeddingRequestFor(text)).value)
    ensures r.Returned? ==> Truthy(r.value)
    ensures forall d :: call(EmbeddingRequestFor(text)) == Returned(EmbeddingResponseJson(d)) ==>
      r == Returned(JArr(NumberElems(ExpectedEmbedding(d))))
  {
    Rethrowing(EmbeddingRequestFor(text), call, FirstEmbedding)
  }

  // A typed view of the responses the SDK declares, used as an independent
  // reference for what the two extractions return. Each level keeps every
  // field it does not name in `others`, so the view covers real bodies,
  // which always carry more than the fields the facade reads.

  /** A choice's message: its `content`, `None` when the provider sends
      `null`, and every other field (`role`, `tool_calls`, ...). */
  datatype ChatMessage = ChatMessage(content: Option<string>, others: map<string, Json>)

  /** A choice: its message and every other field (`index`,
      `finish_reason`, `logprobs`, ...). The SDK always supplies a message;
      the view also admits a choice without one (`None`), since the facade
      reads it with optional chaining. */
  datatype Choice = Choice(message: Option<ChatMessage>, others: map<string, Json>)

  /** A chat completion: its choices and every other field (`id`, `model`,
      `usage`, ...). */
  datatype Completion = Completion(choices: seq<Choice>, others: map<string, Json>)

  function MessageJson(m: ChatMessage): Json {
    JObj(m.others["content" := match m.content case Some(s) => JStr(s) case None => JNull])
  }

  function ChoiceJson(c: Choice): Json {
    match c.message
    case None => JObj(c.others - {"message"})
    case Some(m) => JObj(c.others["message" := MessageJson(m)])
  }

  function ChoiceElems(cs: seq<Choice>): (r: seq<Json>)
    ensures |r| == |cs|
    ensures forall i :: 0 <= i < |cs| ==> r[i] == ChoiceJson(cs[i])
  {
    seq(|cs|, i requires 0 <= i < |cs| => ChoiceJson(cs[i]))
  }

  function CompletionJson(c: Completion): Json {
    JObj(c.others["choices" := JArr(ChoiceElems(c.choices))])
  }

  /** The content the caller should see: the first choice's message content,
      or the empty string when there is no choice, no message or no content. */
  function ExpectedContent(c: Completion): string {
    if |c.choices| == 0 then ""
    else match c.choices[0].message
      case None => ""
      case Some(m) => match m.content case None => "" case Some(s) => s
  }

  /** An embedding item: its vector and every other field (`index`,
      `object`). The SDK always supplies the vector; the view also admits an
      item without one (`None`), since the facade reads it with optional
      chaining. */
  datatype EmbeddingItem = EmbeddingItem(embedding: Option<seq<real>>, others: map<string, Json>)

  /** An embedding response: its items and every other field (`model`,
      `object`, `usage`). */
  datatype EmbeddingResponse = EmbeddingResponse(data: seq<EmbeddingItem>, others: map<string, Json>)

  function ItemJson(item: EmbeddingItem): Json {
    match item.embedding
    case None => JObj(item.others - {"embedding"})
    case Some(v) => JObj(item.others["embedding" := JArr(NumberElems(v))])
  }

  function ItemElems(items: seq<EmbeddingItem>): (r: seq<Json>)
    ensures |r| == |items|
    ensures forall i :: 0 <= i < |items| ==> r[i] == ItemJson(items[i])
  {
    seq(|items|, i requires 0 <= i < |items| => ItemJson(items[i]))
  }

  function EmbeddingResponseJson(d: EmbeddingResponse): Json {
    JObj(d.others["data" := JArr(ItemElems(d.data))])
  }

  /** The vector the caller should see: the first item's embedding, even an
      empty one, or the empty vector when there is no item or no embedding. */
  function ExpectedEmbedding(d: EmbeddingResponse): seq<real> {
    if |d.data| == 0 then []
    else match d.data[0].embedding case None => [] case Some(v) => v
  }

  /** A completion as the provider sends it, with `id`, `object`, `index`,
      `finish_reason` and `role` beside the fields the facade reads, yields
      its content. */
  lemma FirstChoiceContentOfRealCompletion()
    ensures var message := JObj(map["role" := JStr("assistant"), "content" := JStr("hi")]);
      var choice := JObj(map["index" := JNum(0.0), "message" := message, "finish_reason" := JStr("stop")]);
      FirstChoiceContent(JObj(map["id" := JStr("c1"), "object" := JStr("chat.completion"), "choices" := JArr([choice])]))
        == Returned(JStr("hi"))
  {
  }

  /** A response body without `choices` makes the facade throw a `TypeError`
      (indexing `undefined`), which reaches the caller like any other failure. */
  lemma MissingChoicesThrows()
    ensures FirstChoiceContent(JObj(map[])).Threw?
    ensures FirstChoiceContent(JObj(map[])).exception.TypeError?
  {
  }
}
