/**
  The static configuration of the cost estimator: the model price table,
  the average token counts per prompt and the refresh frequencies.
  Every price is in US dollars, per million tokens for the token prices
  and per thousand calls for web search.
 */
module Catalog {

  datatype Option<+T> = None | Some(value: T)

  /** The vendor family of a model; at most one model per family may be selected. */
  datatype Provider = OpenAI | Google | MistralAI

  /** The keys of the model table, in declaration order. */
  datatype ModelKey =
    | Gpt5Nano | Gpt5Mini | Gpt52
    | Gemini25FlashLite | Gemini3FlashPreview | Gemini3ProPreview
    | MistralSmallLatest | MistralMedium3 | MistralLarge3

  /** One entry of the price table (the view-only fields are not modelled). */
  datatype ModelDefinition = ModelDefinition(
    name: string,
    provider: Provider,
    input: real,
    output: real,
    pass2Model: ModelKey,
    pass2Input: real,
    pass2Output: real,
    webSearchCost: real)

  predicate PricesNonNegative(m: ModelDefinition) {
    m.input >= 0.0 && m.output >= 0.0 && m.pass2Input >= 0.0
    && m.pass2Output >= 0.0 && m.webSearchCost >= 0.0
  }

  /** The string identifier of each key of the table. */
  function KeyName(k: ModelKey): (id: string) {
    match k
    case Gpt5Nano => "gpt-5-nano"
    case Gpt5Mini => "gpt-5-mini"
    case Gpt52 => "gpt-5.2"
    case Gemini25FlashLite => "gemini-2.5-flash-lite"
    case Gemini3FlashPreview => "gemini-3-flash-preview"
    case Gemini3ProPreview => "gemini-3-pro-preview"
    case MistralSmallLatest => "mistral-small-latest"
    case MistralMedium3 => "mistral-medium-3"
    case MistralLarge3 => "mistral-large-3"
  }

  /**
    The identifier set of the key type: a string is a key exactly when it
    is one of the nine identifiers, and then it names that key.
   */
  function ParseKey(id: string): (r: Option<ModelKey>)
    ensures r.Some? ==> KeyName(r.value) == id
    ensures r.None? ==> forall k: ModelKey :: KeyName(k) != id
  {
    if id == "gpt-5-nano" then Some(Gpt5Nano)
    else if id == "gpt-5-mini" then Some(Gpt5Mini)
    else if id == "gpt-5.2" then Some(Gpt52)
    else if id == "gemini-2.5-flash-lite" then Some(Gemini25FlashLite)
    else if id == "gemini-3-flash-preview" then Some(Gemini3FlashPreview)
    else if id == "gemini-3-pro-preview" then Some(Gemini3ProPreview)
    else if id == "mistral-small-latest" then Some(MistralSmallLatest)
    else if id == "mistral-medium-3" then Some(MistralMedium3)
    else if id == "mistral-large-3" then Some(MistralLarge3)
    else None
  }

  /** Every key is found again under its own identifier. */
  lemma {:induction false} ParseKeyName(k: ModelKey)
    ensures ParseKey(KeyName(k)) == Some(k)
  {
    match k
    case Gpt5Nano =>
    case Gpt5Mini =>
    case Gpt52 =>
    case Gemini25FlashLite =>
    case Gemini3FlashPreview =>
    case Gemini3ProPreview =>
    case MistralSmallLatest =>
    case MistralMedium3 =>
    case MistralLarge3 =>
  }

  /** The price table. */
  function Models(k: ModelKey): (m: ModelDefinition)
    ensures m.provider == ProviderOf(k)
    ensures PricesNonNegative(m)
  {
    match k
    case Gpt5Nano =>
      ModelDefinition("GPT-5 Nano", OpenAI, 0.05, 0.40, Gpt5Mini, 0.25, 2.00, 10.00)
    case Gpt5Mini =>
      ModelDefinition("GPT-5 Mini", OpenAI, 0.25, 2.00, Gpt5Mini, 0.25, 2.00, 10.00)
    case Gpt52 =>
      ModelDefinition("GPT-5.2", OpenAI, 1.75, 14.00, Gpt5Mini, 0.25, 2.00, 10.00)
    case Gemini25FlashLite =>
      ModelDefinition("Gemini 2.5 Flash Lite", Google, 0.10, 0.40, Gemini25FlashLite, 0.10, 0.40, 35.00)
    case Gemini3FlashPreview =>
      ModelDefinition("Gemini 3 Flash", Google, 0.50, 3.00, Gemini25FlashLite, 0.10, 0.40, 35.00)
    case Gemini3ProPreview =>
      ModelDefinition("Gemini 3 Pro", Google, 2.00, 12.00, Gemini25FlashLite, 0.10, 0.40, 35.00)
    case MistralSmallLatest =>
      ModelDefinition("Mistral Small", MistralAI, 0.10, 0.30, MistralSmallLatest, 0.10, 0.30, 30.00)
    case MistralMedium3 =>
      ModelDefinition("Mistral Medium 3", MistralAI, 0.40, 2.00, MistralSmallLatest, 0.10, 0.30, 30.00)
    case MistralLarge3 =>
      ModelDefinition("Mistral Large 3", MistralAI, 0.50, 1.50, MistralSmallLatest, 0.10, 0.30, 30.00)
  }

  /**
    The provider column of the price table, as its own match so that
    `Toggle` and its lemmas need not unfold the nine-way table; the ensures
    of `Models` ties the two.
   */
  function ProviderOf(k: ModelKey): (p: Provider) {
    match k
    case Gpt5Nano | Gpt5Mini | Gpt52 => OpenAI
    case Gemini25FlashLite | Gemini3FlashPreview | Gemini3ProPreview => Google
    case MistralSmallLatest | MistralMedium3 | MistralLarge3 => MistralAI
  }

  /**
    The second pass of every model runs on a model of the same provider,
    priced at that model's own first-pass rates, and that model is its own
    second-pass model.
   */
  lemma {:induction false} Pass2ModelIsConsistent(k: ModelKey)
    ensures var m := Models(k); var m2 := Models(m.pass2Model);
      && m2.provider == m.provider
      && m.pass2Input == m2.input && m.pass2Output == m2.output
      && m2.pass2Model == m.pass2Model
      && m2.webSearchCost == m.webSearchCost
  {
    match k
    case Gpt5Nano =>
    case Gpt5Mini =>
    case Gpt52 =>
    case Gemini25FlashLite =>
    case Gemini3FlashPreview =>
    case Gemini3ProPreview =>
    case MistralSmallLatest =>
    case MistralMedium3 =>
    case MistralLarge3 =>
  }

  /** Average tokens per prompt in each phase. */
  datatype TokenAssumptions = TokenAssumptions(
    pass1Input: real, pass1Output: real, pass2Input: real, pass2Output: real)

  const AvgTokens := TokenAssumptions(50.0, 500.0, 600.0, 100.0)

  datatype FrequencyKey = Daily | Weekly | Monthly

  datatype FrequencyDefinition = FrequencyDefinition(labelText: string, runsPerMonth: nat)

  /** The refresh cadences; every cadence runs at least once a month. */
  function Frequencies(f: FrequencyKey): (d: FrequencyDefinition)
    ensures d.runsPerMonth >= 1
  {
    match f
    case Daily => FrequencyDefinition("Quotidien", 30)
    case Weekly => FrequencyDefinition("Hebdomadaire", 4)
    case Monthly => FrequencyDefinition("Mensuel", 1)
  }
}
