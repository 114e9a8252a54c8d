/** The inference-hub facade: text generation with per-call defaults,
    feature extraction whose response shape is normalised to one vector, and
    zero-shot classification whose parallel `labels` and `scores` arrays are
    zipped by position. The SDK is a parameter: each operation hands its
    request to `call` and works on the response body that comes back.
 */
module HuggingFace {
  import opened Optional
  import opened Js
  import opened Config
  import opened Generation

  const EmbeddingModel := "sentence-transformers/all-MiniLM-L6-v2"
  const ClassificationModel := "facebook/bart-large-mnli"

  /** A constructed facade. Construction never fails: an empty key is passed
      on and only the provider rejects it. */
  datatype Client = Client(apiKey: string, model: string)

  function New(settings: Settings): Client {
    Client(settings.huggingface.apiKey, settings.huggingface.model)
  }

  // ---------------------------------------------------------------------
  // Text generation

  datatype TextGenerationRequest = TextGenerationRequest(model: string, inputs: string, maxNewTokens: real, temperature: real)

  /** The generation request: the prompt verbatim, and each option or its default. */
  function TextGenerationRequestFor(client: Client, prompt: string, options: Option<Options>): (q: TextGenerationRequest)
    ensures q.inputs == prompt
    ensures q.model == ChosenModel(options, client.model)
    ensures q.maxNewTokens == ChosenMaxTokens(options)
    ensures q.temperature == ChosenTemperature(options)
  {
    TextGenerationRequest(
      ChosenModel(options, client.model),
      prompt,
      ChosenMaxTokens(options),
      ChosenTemperature(options))
  }

  /** The response's `generated_text` property, passed back verbatim. */
  function GeneratedText(response: Json): Outcome<Json> {
    Get(response, "generated_text")
  }

  /** `generateText`: the generated text of the response, verbatim; a failure
      of the call reaches the caller unchanged. */
  function GenerateText(client: Client, prompt: string, options: Option<Options>,
                        call: TextGenerationRequest -> Outcome<Json>): (r: Outcome<Json>)
    ensures var q := TextGenerationRequestFor(client, prompt, options);
      && (call(q).Threw? ==> r == call(q))
      && (call(q).Returned? && IsNullish(call(q).value) ==> r.Threw?)
      && (call(q).Returned? && call(q).value.JObj? && "generated_text" in call(q).value.fields ==>
            r == Returned(call(q).value.fields["generated_text"]))
      && (call(q).Returned? && call(q).value.JObj? && "generated_text" !in call(q).value.fields ==>
            r == Returned(JUndefined))
      && (call(q).Returned? && !IsNullish(call(q).value) && !call(q).value.JObj? ==> r == Returned(JUndefined))
  {
    Rethrowing(TextGenerationRequestFor(client, prompt, options), call, GeneratedText)
  }

  /** The generation output as the SDK declares it: the generated text, and
      whatever other fields (such as `details`) the provider adds. */
  datatype TextGenerationOutput = TextGenerationOutput(generatedText: string, others: map<string, Json>)

  function OutputJson(o: TextGenerationOutput): Json {
    JObj(o.others["generated_text" := JStr(o.generatedText)])
  }

  /** End to end: on every declared output, whatever other fields it carries,
      `generateText` returns exactly the generated text. */
  lemma GenerateTextOfOutput(client: Client, prompt: string, options: Option<Options>,
                             call: TextGenerationRequest -> Outcome<Json>, o: TextGenerationOutput)
    requires call(TextGenerationRequestFor(client, prompt, options)) == Returned(OutputJson(o))
    ensures GenerateText(client, prompt, options, call) == Returned(JStr(o.generatedText))
  {
    assert "generated_text" in OutputJson(o).fields;
  }

  // ---------------------------------------------------------------------
  // Feature extraction

  datatype FeatureExtractionRequest = FeatureExtractionRequest(model: string, inputs: string)

  function FeatureExtractionRequestFor(text: string): (q: FeatureExtractionRequest)
    ensures q.model == "sentence-transformers/all-MiniLM-L6-v2" && q.inputs == text
  {
    FeatureExtractionRequest(EmbeddingModel, text)
  }

  /** The shape normalisation, written as the facade probes it: an array whose
      first element is a number is returned as it is (later elements are not
      looked at); an array whose first element is an array yields that first
      row, `|| []` never firing because an array, even an empty one, is
      truthy; anything else yields an empty vector. */
  function NormaliseEmbedding(response: Json): (v: seq<Json>)
    ensures response.JArr? && |response.elems| > 0 && response.elems[0].JNum? ==> v == response.elems
    ensures response.JArr? && |response.elems| > 0 && response.elems[0].JArr? ==> v == response.elems[0].elems
    ensures !(response.JArr? && |response.elems| > 0 && (response.elems[0].JNum? || response.elems[0].JArr?)) ==> v == []
  {
    if IsArray(response) then
      var first := Index(response, 0).value;
      if IsNumber(first) then response.elems
      else if IsArray(first) then
        match Or(first, JArr([]))
        case JArr(row) => row
        case _ => []
      else []
    else []
  }

  /** `getEmbedding`: the normalised vector; a failure of the call reaches
      the caller unchanged. */
  function GetEmbedding(client: Client, text: string, call: FeatureExtractionRequest -> Outcome<Json>): (r: Outcome<seq<Json>>)
    ensures call(FeatureExtractionRequestFor(text)).Threw? ==>
      r == Threw(call(FeatureExtractionRequestFor(text)).exception)
    ensures call(FeatureExtractionRequestFor(text)).Returned? ==>
      r == Returned(NormaliseEmbedding(call(FeatureExtractionRequestFor(text)).value))
  {
    Rethrowing(FeatureExtractionRequestFor(text), call, (response: Json) => Returned(NormaliseEmbedding(response)))
  }

  /** The response shapes the provider documents, as an explicit tagged union:
      one flat vector, or one vector per input row. */
  datatype EmbeddingShape = Flat(values: seq<real>) | Nested(rows: seq<seq<real>>)

  function ShapeJson(shape: EmbeddingShape): Json {
    match shape
    case Flat(values) => JArr(NumberElems(values))
    case Nested(rows) => JArr(seq(|rows|, i requires 0 <= i < |rows| => JArr(NumberElems(rows[i]))))
  }

  /** The vector each shape stands for: a flat vector itself, the first row of
      a nested one, nothing for an empty one. */
  function ShapeVector(shape: EmbeddingShape): seq<real> {
    match shape
    case Flat(values) => values
    case Nested(rows) => if |rows| == 0 then [] else rows[0]
  }

  /** The runtime probing agrees with the tagged-union reading on every
      documented shape; in particular only the first row of a nested response
      survives. */
  lemma NormaliseMatchesShape(shape: EmbeddingShape)
    ensures NormaliseEmbedding(ShapeJson(shape)) == NumberElems(ShapeVector(shape))
  {
    match shape
    case Flat(values) =>
      if |values| == 0 {
        assert NumberElems(values) == [];
      }
    case Nested(rows) =>
      if |rows| == 0 {
        assert NumberElems([]) == [];
      }
  }

  /** The three documented examples: a flat vector comes back unchanged, a
      two-row result yields its first row, and an empty result yields `[]`. */
  lemma NormaliseEmbeddingExamples()
    ensures NormaliseEmbedding(JArr([JNum(0.1), JNum(0.2), JNum(0.3)])) == [JNum(0.1), JNum(0.2), JNum(0.3)]
    ensures NormaliseEmbedding(JArr([JArr([JNum(0.1), JNum(0.2)]), JArr([JNum(0.3), JNum(0.4)])])) == [JNum(0.1), JNum(0.2)]
    ensures NormaliseEmbedding(JArr([])) == []
    ensures NormaliseEmbedding(JArr([JArr([]), JArr([JNum(0.3)])])) == []
    ensures NormaliseEmbedding(JObj(map[])) == []
  {
  }

  // ---------------------------------------------------------------------
  // Zero-shot classification

  datatype ZeroShotRequest = ZeroShotRequest(model: string, inputs: string, candidateLabels: seq<string>)

  /** The candidate labels are forwarded as they are, in the caller's order. */
  function ZeroShotRequestFor(text: string, labels: seq<string>): (q: ZeroShotRequest)
    ensures q.model == "facebook/bart-large-mnli" && q.inputs == text && q.candidateLabels == labels
  {
    ZeroShotRequest(ClassificationModel, text, labels)
  }

  /** One entry of the classification result, `{ label, score }` (`name` holds the label); neither is
      checked, so a score past the end of `scores` is `undefined`. */
  datatype LabelScore = LabelScore(name: Json, score: Json)

  predicate HasLabelsAndScores(response: Json) {
    response.JObj? && "labels" in response.fields && "scores" in response.fields
  }

  /** Maps each label to an entry holding it and the score at the same
      position. Indexing `scores` throws when it is nullish and there is a
      label to pair, and reads `undefined` past its end. */
  function PairByPosition(labels: seq<Json>, scores: Json): (r: Outcome<seq<LabelScore>>)
    ensures r.Threw? <==> |labels| > 0 && IsNullish(scores)
    ensures r.Returned? ==> |r.value| == |labels|
    ensures r.Returned? ==> forall i :: 0 <= i < |r.value| ==> r.value[i].name == labels[i]
    ensures r.Returned? && scores.JArr? ==>
      forall i :: 0 <= i < |r.value| ==> r.value[i].score == (if i < |scores.elems| then scores.elems[i] else JUndefined)
  {
    if |labels| > 0 && IsNullish(scores) then
      Threw(TypeError("Cannot read properties of " + (if scores.JNull? then "null" else "undefined")))
    else
      Returned(seq(|labels|, i requires 0 <= i < |labels| => LabelScore(labels[i], Index(scores, i).value)))
  }

  /** The classification result, written as the facade computes it: an `in`
      test for both `labels` and `scores` (which throws on a primitive), then
      the positional pairing (which throws when `labels` is not an array, as
      it has no `map`). A response lacking either field yields `[]`. */
  function ZeroShotResult(response: Json): (r: Outcome<seq<LabelScore>>)
    ensures response.JObj? && !HasLabelsAndScores(response) ==> r == Returned([])
    ensures response.JArr? ==> r == Returned([])
    ensures HasLabelsAndScores(response) && !response.fields["labels"].JArr? ==> r.Threw?
    ensures HasLabelsAndScores(response) && response.fields["labels"].JArr? ==>
      r == PairByPosition(response.fields["labels"].elems, response.fields["scores"])
    ensures !response.JObj? && !response.JArr? ==> r.Threw? && r.exception.TypeError?
  {
    match response
    case JObj(fields) =>
      if "labels" in fields && "scores" in fields then
        match fields["labels"]
        case JArr(labels) => PairByPosition(labels, fields["scores"])
        case _ => Threw(TypeError("responseLabels.map is not a function"))
      else Returned([])
    case JArr(_) => Returned([])
    case _ => Threw(TypeError("Cannot use 'in' operator to search for 'labels'"))
  }

  /** `classifyText`: the zipped result in the response's label order; a
      failure of the call reaches the caller unchanged. */
  function ClassifyText(client: Client, text: string, labels: seq<string>,
                        call: ZeroShotRequest -> Outcome<Json>): (r: Outcome<seq<LabelScore>>)
    ensures call(ZeroShotRequestFor(text, labels)).Threw? ==>
      r == Threw(call(ZeroShotRequestFor(text, labels)).exception)
    ensures call(ZeroShotRequestFor(text, labels)).Returned? ==>
      r == ZeroShotResult(call(ZeroShotRequestFor(text, labels)).value)
  {
    Rethrowing(ZeroShotRequestFor(text, labels), call, ZeroShotResult)
  }

  /** A typed classification entry. */
  datatype Scored = Scored(name: string, score: real)

  /** Pairs labels with scores by position, as an independent reference. */
  function Zip(labels: seq<string>, scores: seq<real>): (z: seq<Scored>)
    requires |scores| >= |labels|
    ensures |z| == |labels|
  {
    if |labels| == 0 then [] else [Scored(labels[0], scores[0])] + Zip(labels[1..], scores[1..])
  }

  lemma {:induction false} ZipByPosition(labels: seq<string>, scores: seq<real>)
    requires |scores| >= |labels|
    ensures forall i :: 0 <= i < |labels| ==> Zip(labels, scores)[i] == Scored(labels[i], scores[i])
  {
    if |labels| > 0 {
      ZipByPosition(labels[1..], scores[1..]);
    }
  }

  function ScoredJson(s: Scored): LabelScore {
    LabelScore(JStr(s.name), JNum(s.score))
  }

  function ClassificationJson(labels: seq<string>, scores: seq<real>): Json {
    JObj(map["labels" := JArr(StringElems(labels)), "scores" := JArr(NumberElems(scores))])
  }

  /** On a response with string labels and at least as many numeric scores,
      the result is the positional zip of the two, in the response's order. */
  lemma ZeroShotResultIsZip(labels: seq<string>, scores: seq<real>)
    requires |scores| >= |labels|
    ensures ZeroShotResult(ClassificationJson(labels, scores)) ==
      Returned(seq(|labels|, i requires 0 <= i < |labels| => ScoredJson(Zip(labels, scores)[i])))
  {
    ZipByPosition(labels, scores);
    var response := ClassificationJson(labels, scores);
    assert HasLabelsAndScores(response);
    var ls, ss := StringElems(labels), JArr(NumberElems(scores));
    assert response.fields["labels"] == JArr(ls) && response.fields["scores"] == ss;
    var r := PairByPosition(ls, ss);
    assert r.Returned? && |r.value| == |labels|;
    var expected := seq(|labels|, i requires 0 <= i < |labels| => ScoredJson(Zip(labels, scores)[i]));
    forall i | 0 <= i < |labels|
      ensures r.value[i] == expected[i]
    {
      assert r.value[i].name == JStr(labels[i]);
      assert r.value[i].score == JNum(scores[i]);
    }
    assert r.value == expected;
    assert ZeroShotResult(response) == r;
  }

  /** The documented example, and the order rule: the result follows the
      response's labels, not the order the caller listed candidates in. */
  lemma ClassifyTextFollowsResponseOrder(client: Client, call: ZeroShotRequest -> Outcome<Json>)
    requires call(ZeroShotRequestFor("great", ["neg", "pos"])) == Returned(ClassificationJson(["pos", "neg"], [0.9, 0.1]))
    ensures ClassifyText(client, "great", ["neg", "pos"], call) ==
      Returned([LabelScore(JStr("pos"), JNum(0.9)), LabelScore(JStr("neg"), JNum(0.1))])
  {
    ZeroShotResultIsZip(["pos", "neg"], [0.9, 0.1]);
    ZipByPosition(["pos", "neg"], [0.9, 0.1]);
    var labels, scores := ["pos", "neg"], [0.9, 0.1];
    var z := Zip(labels, scores);
    assert z[0] == Scored("pos", 0.9) && z[1] == Scored("neg", 0.1);
    var expected := seq(|labels|, i requires 0 <= i < |labels| => ScoredJson(z[i]));
    assert expected == [LabelScore(JStr("pos"), JNum(0.9)), LabelScore(JStr("neg"), JNum(0.1))];
    assert ZeroShotRequestFor("great", ["neg", "pos"]).candidateLabels == ["neg", "pos"];
  }

  /** Missing either field yields an empty result rather than a failure. */
  lemma MissingFieldYieldsEmpty(labels: seq<string>, scores: seq<real>)
    ensures ZeroShotResult(JObj(map["labels" := JArr(StringElems(labels))])) == Returned([])
    ensures ZeroShotResult(JObj(map["scores" := JArr(NumberElems(scores))])) == Returned([])
  {
  }
}
