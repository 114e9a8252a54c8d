/** The local numeric-model helper: a one-bit initialisation state machine,
    the fixed single-unit regression architecture, the column tensors built
    for training, and the `file://` locations used to save and load. The
    numerics (fitting, prediction) belong to the library and are parameters.
    Tensor memory is tracked as a count of live tensors, since the helper
    releases the ones it allocates by hand.
 */
module TensorFlow {
  import opened Optional
  import opened Js

  // ---------------------------------------------------------------------
  // Initialisation

  /** The helper's only state. */
  datatype Helper = Helper(initialized: bool)

  /** A newly constructed helper has not been initialised. */
  const Fresh := Helper(false)

  /** One `initialize` call: the helper afterwards, whether it awaited the
      backend's readiness, and how the call settled. */
  datatype InitStep = InitStep(helper: Helper, readied: bool, outcome: Outcome<()>)

  /** `initialize()`, where `ready` is how the backend's readiness would
      settle if awaited. An initialised helper returns at once; otherwise
      readiness is awaited and the flag is set only once it has succeeded, so
      a failed readiness leaves the helper uninitialised and is rethrown. */
  function Initialize(h: Helper, ready: Outcome<()>): (s: InitStep)
    ensures h.initialized ==> s == InitStep(h, false, Returned(()))
    ensures !h.initialized ==> s.readied && s.outcome == ready
    ensures s.helper.initialized <==> h.initialized || ready.Returned?
  {
    if h.initialized then InitStep(h, false, Returned(()))
    else
      match ready
      case Threw(e) => InitStep(h, true, Threw(e))
      case Returned(_) => InitStep(Helper(true), true, ready)
  }

  /** The helper after a run of sequential calls, and how many of them awaited readiness. */
  datatype InitRun = InitRun(helper: Helper, readied: nat)

  /** Sequential `initialize` calls; the i-th call sees `readies[i]`. */
  function InitializeEach(h: Helper, readies: seq<Outcome<()>>): InitRun
    decreases |readies|
  {
    if |readies| == 0 then InitRun(h, 0)
    else
      var s := Initialize(h, readies[0]);
      var rest := InitializeEach(s.helper, readies[1..]);
      InitRun(rest.helper, rest.readied + (if s.readied then 1 else 0))
  }

  /** The position of the first readiness that succeeds, or `|readies|` if none does. */
  function FirstSuccess(readies: seq<Outcome<()>>): (k: nat)
    ensures k <= |readies|
    ensures forall i :: 0 <= i < k ==> readies[i].Threw?
    ensures k < |readies| ==> readies[k].Returned?
  {
    if |readies| == 0 || readies[0].Returned? then 0 else 1 + FirstSuccess(readies[1..])
  }

  /** Once initialised, a helper stays initialised and never awaits readiness again. */
  lemma {:induction false} InitializedStaysQuiet(readies: seq<Outcome<()>>)
    ensures InitializeEach(Helper(true), readies) == InitRun(Helper(true), 0)
  {
    if |readies| > 0 {
      InitializedStaysQuiet(readies[1..]);
    }
  }

  /** Starting fresh, sequential calls await readiness up to and including the
      first success and never after it; the helper ends initialised exactly
      when some readiness succeeded. */
  lemma {:induction false} ReadinessUntilFirstSuccess(readies: seq<Outcome<()>>)
    ensures var run := InitializeEach(Fresh, readies);
      && (run.helper.initialized <==> FirstSuccess(readies) < |readies|)
      && run.readied == (if FirstSuccess(readies) < |readies| then FirstSuccess(readies) + 1 else |readies|)
  {
    if |readies| > 0 {
      if readies[0].Returned? {
        InitializedStaysQuiet(readies[1..]);
      } else {
        ReadinessUntilFirstSuccess(readies[1..]);
      }
    }
  }

  /** When readiness succeeds, any run of one or more sequential calls awaits
      it exactly once and leaves the helper initialised. */
  lemma InitializeOnce(readies: seq<Outcome<()>>)
    requires |readies| > 0
    requires forall i :: 0 <= i < |readies| ==> readies[i].Returned?
    ensures InitializeEach(Fresh, readies) == InitRun(Helper(true), 1)
  {
    ReadinessUntilFirstSuccess(readies);
  }

  // ---------------------------------------------------------------------
  // Model architecture

  datatype Layer = Dense(inputShape: seq<nat>, units: nat)

  datatype ModelSpec = ModelSpec(layers: seq<Layer>, optimizer: string, loss: string)

  /** `createModel()`: one dense layer from one input to one unit, compiled
      for stochastic gradient descent on the mean squared error. */
  function CreateModel(): (m: ModelSpec)
    ensures |m.layers| > 0
    ensures m.layers == [Dense([1], 1)]
    ensures m.optimizer == "sgd" && m.loss == "meanSquaredError"
  {
    ModelSpec([Dense([1], 1)], "sgd", "meanSquaredError")
  }

  // ---------------------------------------------------------------------
  // Tensors and their memory

  datatype Tensor = Tensor(values: seq<real>, shape: seq<nat>)

  /** `tf.tensor2d(values, shape)`: throws unless the shape has two
      dimensions whose product is the number of values. */
  function Tensor2d(values: seq<real>, shape: seq<nat>): (r: Outcome<Tensor>)
    ensures r.Returned? <==> |shape| == 2 && shape[0] * shape[1] == |values|
    ensures r.Returned? ==> r.value == Tensor(values, shape)
  {
    if |shape| == 2 && shape[0] * shape[1] == |values| then Returned(Tensor(values, shape))
    else Threw(Error("Based on the provided shape, the tensor should have a different number of values"))
  }

  /** The `[data.length, 1]` shape the helper gives each training array. */
  function ColumnShape(data: seq<real>): seq<nat> {
    [|data|, 1]
  }

  /** A column tensor can always be built, whatever the data; the helper
      never compares the lengths of the two training arrays. */
  lemma ColumnTensorAlwaysBuilds(xData: seq<real>, yData: seq<real>)
    ensures Tensor2d(xData, ColumnShape(xData)) == Returned(Tensor(xData, [|xData|, 1]))
    ensures Tensor2d(yData, ColumnShape(yData)) == Returned(Tensor(yData, [|yData|, 1]))
  {
  }

  /** The library's count of live tensors: allocation adds one, disposal removes one. */
  datatype Engine = Engine(live: nat)

  function Allocate(e: Engine, n: nat): Engine {
    Engine(e.live + n)
  }

  function Dispose(e: Engine, n: nat): Engine
    requires n <= e.live
  {
    Engine(e.live - n)
  }

  /** What the model's `fit` is asked to do: which model, which inputs and
      targets, how many epochs and how much progress output. */
  datatype FitCall = FitCall(model: ModelSpec, xs: Tensor, ys: Tensor, epochs: nat, verbose: nat)

  /** A model handle: its architecture and the fits it has received. */
  datatype Model = Model(spec: ModelSpec, fits: seq<FitCall>)

  /** The engine after an operation, and how the operation settled. */
  datatype Run<+T> = Run(engine: Engine, outcome: Outcome<T>)

  /** The fit `trainSimpleModel` asks for: a fresh model, the two column
      tensors, 100 epochs and no progress output. */
  function TrainingFit(xData: seq<real>, yData: seq<real>): (c: FitCall)
    ensures c.model == CreateModel()
    ensures c.xs.values == xData && c.xs.shape == [|xData|, 1]
    ensures c.ys.values == yData && c.ys.shape == [|yData|, 1]
    ensures c.epochs == 100 && c.verbose == 0
  {
    FitCall(CreateModel(),
      Tensor2d(xData, ColumnShape(xData)).value,
      Tensor2d(yData, ColumnShape(yData)).value,
      100, 0)
  }

  /** `trainSimpleModel` as written: the two tensors are disposed after the
      awaited fit, but nothing disposes them when the fit throws. */
  function TrainSimpleModelAsWritten(e: Engine, xData: seq<real>, yData: seq<real>,
                                     fit: FitCall -> Outcome<()>): (r: Run<Model>)
    ensures fit(TrainingFit(xData, yData)).Returned? ==>
      r == Run(e, Returned(Model(CreateModel(), [TrainingFit(xData, yData)])))
    ensures fit(TrainingFit(xData, yData)).Threw? ==>
      r.outcome == Threw(fit(TrainingFit(xData, yData)).exception)
  {
    var call := TrainingFit(xData, yData);
    var withTensors := Allocate(e, 2);
    match fit(call)
    case Threw(ex) => Run(withTensors, Threw(ex))
    case Returned(_) => Run(Dispose(withTensors, 2), Returned(Model(call.model, [call])))
  }

  /** A fit that throws leaves both training tensors allocated. */
  lemma TrainLeaksWhenFitThrows(e: Engine, xData: seq<real>, yData: seq<real>, fit: FitCall -> Outcome<()>)
    requires fit(TrainingFit(xData, yData)).Threw?
    ensures TrainSimpleModelAsWritten(e, xData, yData, fit).engine.live == e.live + 2
  {
  }

  /** `trainSimpleModel` with the disposal in a `finally`: a fresh model fitted
      once on the two column tensors; the error of a failed fit reaches the
      caller unchanged, and in every case the live tensor count ends where it
      started. */
  function TrainSimpleModel(e: Engine, xData: seq<real>, yData: seq<real>,
                            fit: FitCall -> Outcome<()>): (r: Run<Model>)
    ensures r.engine == e
    ensures fit(TrainingFit(xData, yData)).Returned? ==>
      r.outcome == Returned(Model(CreateModel(), [TrainingFit(xData, yData)]))
    ensures fit(TrainingFit(xData, yData)).Threw? ==>
      r.outcome == Threw(fit(TrainingFit(xData, yData)).exception)
  {
    var call := TrainingFit(xData, yData);
    var withTensors := Allocate(e, 2);
    var outcome: Outcome<Model> :=
      (match fit(call)
       case Threw(ex) => Threw(ex)
       case Returned(_) => Returned(Model(call.model, [call])));
    Run(Dispose(withTensors, 2), outcome)
  }

  /** The `[1, 1]` input tensor `predict` builds for one scalar. */
  function PredictionInput(input: real): (t: Tensor)
    ensures t.values == [input] && t.shape == [1, 1]
  {
    Tensor2d([input], [1, 1]).value
  }

  /** The first value read synchronously from the output tensor, `undefined` if there is none. */
  function FirstValue(data: seq<real>): Json {
    if |data| > 0 then JNum(data[0]) else JUndefined
  }

  /** `predict` as written: the output tensor is disposed, the input tensor
      built inline is not. `forward` is the library's forward pass, which
      throws synchronously when the model rejects the input (an input shape
      other than the model's, say); that error reaches the caller unchanged,
      and the input tensor stays allocated either way. */
  function PredictAsWritten(e: Engine, model: Model, input: real,
                            forward: (Model, Tensor) -> Outcome<seq<real>>): (r: Run<Json>)
    ensures r.engine.live == e.live + 1
    ensures forward(model, PredictionInput(input)).Threw? ==>
      r.outcome == Threw(forward(model, PredictionInput(input)).exception)
    ensures forward(model, PredictionInput(input)).Returned? ==>
      r.outcome == Returned(FirstValue(forward(model, PredictionInput(input)).value))
  {
    var x := PredictionInput(input);
    var withInput := Allocate(e, 1);
    match forward(model, x)
    case Threw(ex) => Run(withInput, Threw(ex))
    case Returned(output) =>
      var withOutput := Allocate(withInput, 1);
      var result := FirstValue(output);
      Run(Dispose(withOutput, 1), Returned(result))
  }

  /** Each call of `predict` as written leaves one more tensor allocated,
      whether or not the forward pass throws, so `n` calls leave `n` behind. */
  lemma {:induction false} PredictLeaksPerCall(e: Engine, model: Model, inputs: seq<real>,
                                               forward: (Model, Tensor) -> Outcome<seq<real>>)
    ensures PredictEachAsWritten(e, model, inputs, forward).live == e.live + |inputs|
    decreases |inputs|
  {
    if |inputs| > 0 {
      PredictLeaksPerCall(PredictAsWritten(e, model, inputs[0], forward).engine, model, inputs[1..], forward);
    }
  }

  /** The engine after predicting each input in turn with `predict` as written. */
  function PredictEachAsWritten(e: Engine, model: Model, inputs: seq<real>,
                                forward: (Model, Tensor) -> Outcome<seq<real>>): Engine
    decreases |inputs|
  {
    if |inputs| == 0 then e
    else PredictEachAsWritten(PredictAsWritten(e, model, inputs[0], forward).engine, model, inputs[1..], forward)
  }

  /** `predict` with the input tensor disposed too, whatever the forward pass
      does: the first value of the forward pass on the `[1, 1]` tensor
      holding `input`, or the forward pass's error unchanged, and no tensor
      left behind. */
  function Predict(e: Engine, model: Model, input: real,
                   forward: (Model, Tensor) -> Outcome<seq<real>>): (r: Run<Json>)
    ensures r.engine == e
    ensures forward(model, PredictionInput(input)).Threw? ==>
      r.outcome == Threw(forward(model, PredictionInput(input)).exception)
    ensures forward(model, PredictionInput(input)).Returned? ==>
      r.outcome == Returned(FirstValue(forward(model, PredictionInput(input)).value))
  {
    var x := PredictionInput(input);
    var withInput := Allocate(e, 1);
    match forward(model, x)
    case Threw(ex) => Run(Dispose(withInput, 1), Threw(ex))
    case Returned(output) =>
      var withOutput := Allocate(withInput, 1);
      var result := FirstValue(output);
      Run(Dispose(Dispose(withOutput, 1), 1), Returned(result))
  }

  // ---------------------------------------------------------------------
  // Save and load locations

  const FileScheme := "file://"

  /** The location string: the `file://` scheme followed by the path verbatim. */
  function Location(path: string): (url: string)
    ensures |url| == |FileScheme| + |path|
    ensures url[..|FileScheme|] == FileScheme && url[|FileScheme|..] == path
  {
    FileScheme + path
  }

  /** The path a `file://` location names. */
  function PathOf(url: string): Option<string> {
    if |url| >= |FileScheme| && url[..|FileScheme|] == FileScheme then Some(url[|FileScheme|..]) else None
  }

  /** The path can be read back from its location, so distinct paths give distinct locations. */
  lemma PathOfLocation(path: string)
    ensures PathOf(Location(path)) == Some(path)
  {
  }

  lemma LocationInjective(p: string, q: string)
    ensures Location(p) == Location(q) <==> p == q
  {
    if Location(p) == Location(q) {
      PathOfLocation(p);
      PathOfLocation(q);
    }
  }

  /** The saved models, by location; the library's on-disk format is treated as lossless. */
  type Store = map<string, Model>

  /** `saveModel(model, path)`: the library's save to `file://` + path is
      awaited, and `saved` is how it settles. A successful save stores the
      model at that location and leaves every other location as it was; a
      failed one (no handler for the scheme, a failed write) reaches the
      caller unchanged. */
  function SaveModel(store: Store, model: Model, path: string, saved: Outcome<()>): (r: Outcome<Store>)
    ensures saved.Threw? ==> r == Threw(saved.exception)
    ensures saved.Returned? ==> r.Returned? && Location(path) in r.value && r.value[Location(path)] == model
    ensures saved.Returned? ==>
      forall url :: url in store && url != Location(path) ==> url in r.value && r.value[url] == store[url]
    ensures saved.Returned? ==> r.value.Keys == store.Keys + {Location(path)}
  {
    match saved
    case Threw(e) => Threw(e)
    case Returned(_) => Returned(store[Location(path) := model])
  }

  /** `loadModel(path)`: the library's load from `file://` + path is awaited.
      `reading` is how the library's handler for the scheme settles before
      any model is looked up: a missing handler or an unreadable layout
      rejects, and that rejection reaches the caller unchanged. Once the
      handler reads, the result is the model stored at that location, or a
      failure when there is none. */
  function LoadModel(store: Store, path: string, reading: Outcome<()>): (r: Outcome<Model>)
    ensures reading.Threw? ==> r == Threw(reading.exception)
    ensures reading.Returned? ==> (Location(path) in store <==> r.Returned?)
    ensures reading.Returned? && Location(path) in store ==> r == Returned(store[Location(path)])
  {
    match reading
    case Threw(e) => Threw(e)
    case Returned(_) =>
      if Location(path) in store then Returned(store[Location(path)])
      else Threw(Error("no model at " + Location(path)))
  }

  /** Save and load address the same location: after a successful save and a
      load whose handler reads, loading the path returns the model just saved,
      and loading another path returns what it returned before. */
  lemma SaveThenLoad(store: Store, model: Model, path: string, other: string)
    ensures SaveModel(store, model, path, Returned(())).Returned?
    ensures LoadModel(SaveModel(store, model, path, Returned(())).value, path, Returned(())) == Returned(model)
    ensures other != path ==>
      LoadModel(SaveModel(store, model, path, Returned(())).value, other, Returned(())) ==
      LoadModel(store, other, Returned(()))
  {
    LocationInjective(path, other);
  }

  /** A load whose handler rejects fails with that rejection, even right after
      a successful save under the same path. */
  lemma LoadRejectionPassesThrough(store: Store, model: Model, path: string, e: Exception)
    ensures LoadModel(SaveModel(store, model, path, Returned(())).value, path, Threw(e)) == Threw(e)
  {
  }
}
