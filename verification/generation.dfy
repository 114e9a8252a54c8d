/** The per-call options both text-generation facades accept, and how each
    field falls back to its default: with `||`, so a field that is absent,
    `0` or `''` takes the default, and an explicit `0` cannot be asked for. */
module Generation {
  import opened Optional
  import opened Js

  const DefaultMaxTokens: real := 100.0
  const DefaultTemperature: real := 0.7

  /** `{ model?, maxTokens?, temperature? }`; the inference-hub facade calls
      the token limit `maxNewTokens`. */
  datatype Options = Options(model: Option<string>, maxTokens: Option<real>, temperature: Option<real>)

  /** The model option, absent when the options object itself is. */
  function ModelOption(options: Option<Options>): Option<string> {
    match options
    case Some(o) => o.model
    case None => None
  }

  function MaxTokensOption(options: Option<Options>): Option<real> {
    match options
    case Some(o) => o.maxTokens
    case None => None
  }

  function TemperatureOption(options: Option<Options>): Option<real> {
    match options
    case Some(o) => o.temperature
    case None => None
  }

  /** The model to request: the option when it is a non-empty string, the configured model otherwise. */
  function ChosenModel(options: Option<Options>, configured: string): (m: string)
    ensures (exists given :: ModelOption(options) == Some(given) && given != "") ==> m == ModelOption(options).value
    ensures ModelOption(options) in {None, Some("")} ==> m == configured
  {
    StringOr(ModelOption(options), configured)
  }

  /** The token limit to request: the option when it is a non-zero number, 100 otherwise. */
  function ChosenMaxTokens(options: Option<Options>): (n: real)
    ensures n != 0.0
    ensures (exists given :: MaxTokensOption(options) == Some(given) && given != 0.0) ==> n == MaxTokensOption(options).value
    ensures MaxTokensOption(options) in {None, Some(0.0)} ==> n == DefaultMaxTokens
  {
    NumberOr(MaxTokensOption(options), DefaultMaxTokens)
  }

  /** The temperature to request: the option when it is a non-zero number, 0.7 otherwise. */
  function ChosenTemperature(options: Option<Options>): (t: real)
    ensures t != 0.0
    ensures (exists given :: TemperatureOption(options) == Some(given) && given != 0.0) ==> t == TemperatureOption(options).value
    ensures TemperatureOption(options) in {None, Some(0.0)} ==> t == DefaultTemperature
  {
    NumberOr(TemperatureOption(options), DefaultTemperature)
  }

  /** An explicit temperature of 0 is replaced by the default 0.7, and an
      explicit token limit of 0 by 100. */
  lemma ExplicitZeroTakesDefault(model: Option<string>)
    ensures ChosenTemperature(Some(Options(model, None, Some(0.0)))) == 0.7
    ensures ChosenMaxTokens(Some(Options(model, Some(0.0), None))) == 100.0
  {
  }
}
