/** `OpenAIService` (src/Services/OpenAIService.php): a settable model plus
    seven SDK calls whose parameters mix the model, per-call options and
    configuration under the `ai.providers.openai.*` keys. Three calls use the
    set model only when it differs from the configured default model. */
module OpenAIService {
  import opened Php
  import opened Http
  import opened OpenAIClient

  const ApiKeyKey := "ai.providers.openai.api_key"
  /** The key the constructor reads the initial model from (`provider`, singular). */
  const MisspeltModelKey := "ai.provider.openai.default_model"
  const DefaultModelKey := "ai.providers.openai.default_model"
  const ChatModelKey := "ai.providers.openai.chat_model"
  const MaxTokensKey := "ai.providers.openai.default_max_tokens"
  const TemperatureKey := "ai.providers.openai.default_temperature"

  const Required := "API key is required in configuration."

  /** The sentiment labels used when no `labels` option is given: one string. */
  const DefaultLabels := JArr([JStr("Negative, Neutral, Positive")])

  /** The typed `apiKey` and `model` properties. */
  datatype Service = Service(apiKey: string, model: string)

  /** The constructor as written: the key and the model are stored in
      `string` properties (null or an array raises a TypeError), then the key
      must be non-empty. */
  function New(cfg: Config): (r: Outcome<Service>)
    ensures var k := Setting(cfg, ApiKeyKey); var m := Setting(cfg, MisspeltModelKey);
      && (!Scalar(k) ==> r == Threw(TypeError("apiKey")))
      && (Scalar(k) && !Scalar(m) ==> r == Threw(TypeError("model")))
      && (Scalar(k) && Scalar(m) ==> (r.Returned? <==> !EmptyString(ToStr(k))))
      && (Scalar(k) && Scalar(m) && r.Threw? ==> r == Threw(InvalidArgument(Required)))
      && (r.Returned? ==> r.value == Service(ToStr(k), ToStr(m)))
  {
    match AssignString(Setting(cfg, ApiKeyKey), "apiKey")
    case Threw(t) => Threw(t)
    case Returned(apiKey) =>
      match AssignString(Setting(cfg, MisspeltModelKey), "model")
      case Threw(t) => Threw(t)
      case Returned(model) =>
        if EmptyString(apiKey) then Threw(InvalidArgument(Required))
        else Returned(Service(apiKey, model))
  }

  /** As written, a configuration that names the model only under the
      `providers` keys (as every other read in the class does) can never
      build the service: the singular key is missing and its null is refused. */
  lemma NewNeedsSingularKey(cfg: Config)
    requires Scalar(Setting(cfg, ApiKeyKey)) && MisspeltModelKey !in cfg
    ensures New(cfg) == Threw(TypeError("model"))
    ensures New(cfg[DefaultModelKey := JStr("text-davinci-003")]) == Threw(TypeError("model"))
  {
    var cfg' := cfg[DefaultModelKey := JStr("text-davinci-003")];
    assert Setting(cfg', ApiKeyKey) == Setting(cfg, ApiKeyKey);
    assert Setting(cfg', MisspeltModelKey) == JNull;
  }

  /** The constructor as evidently intended: the model is read from
      `ai.providers.openai.default_model`, the key the class compares it with. */
  function NewFromProvidersKey(cfg: Config): (r: Outcome<Service>)
    ensures var k := Setting(cfg, ApiKeyKey); var m := Setting(cfg, DefaultModelKey);
      && (Scalar(k) && Scalar(m) ==> (r.Returned? <==> !EmptyString(ToStr(k))))
      && (r.Returned? ==> r.value == Service(ToStr(k), ToStr(m)))
      && (!Scalar(k) || !Scalar(m) ==> r.Threw? && r.thrown.TypeError?)
  {
    match AssignString(Setting(cfg, ApiKeyKey), "apiKey")
    case Threw(t) => Threw(t)
    case Returned(apiKey) =>
      match AssignString(Setting(cfg, DefaultModelKey), "model")
      case Threw(t) => Threw(t)
      case Returned(model) =>
        if EmptyString(apiKey) then Threw(InvalidArgument(Required))
        else Returned(Service(apiKey, model))
  }

  /** The corrected constructor builds a service from a configuration with a
      non-empty key and a string default model, and that service's model is
      the configured default, so the "differs from the default" rule picks
      the per-call fallbacks until `model()` is called. */
  lemma NewFromProvidersKeyBuilds(cfg: Config, key: string, model: string)
    requires Setting(cfg, ApiKeyKey) == JStr(key) && !EmptyString(key)
    requires Setting(cfg, DefaultModelKey) == JStr(model)
    ensures NewFromProvidersKey(cfg) == Returned(Service(key, model))
    ensures UsesSetModel(NewFromProvidersKey(cfg).value, cfg) == false
  {
  }

  /** `model($model)` */
  function SetModel(svc: Service, model: string): (r: Service)
    ensures r.model == model && r.apiKey == svc.apiKey
  {
    svc.(model := model)
  }

  /** `$this->model !== config('ai.providers.openai.default_model')` */
  predicate UsesSetModel(svc: Service, cfg: Config) {
    JStr(svc.model) != Setting(cfg, DefaultModelKey)
  }

  /** The model of `chat`, `generateEmbeddings` and `generateCode`: the set
      model when it differs from the configured default, `fallback` otherwise. */
  function SelectModel(svc: Service, cfg: Config, fallback: Json): (m: Json)
    ensures UsesSetModel(svc, cfg) ==> m == JStr(svc.model)
    ensures !UsesSetModel(svc, cfg) ==> m == fallback
  {
    if UsesSetModel(svc, cfg) then JStr(svc.model) else fallback
  }

  /** `max_tokens` and `temperature` of the completion calls. */
  function MaxTokens(cfg: Config, options: Fields): Json {
    Coalesce(options, "max_tokens", Setting(cfg, MaxTokensKey))
  }

  function Temperature(cfg: Config, options: Fields): Json {
    Coalesce(options, "temperature", Setting(cfg, TemperatureKey))
  }

  /** The parameters of the completion calls that use the set model. */
  function Completion(svc: Service, cfg: Config, prompt: string, options: Fields): (c: SdkCall)
    ensures c.resource == Completions
    ensures c.params.Keys == {"model", "prompt", "max_tokens", "temperature"}
    ensures c.params["model"] == JStr(svc.model) && c.params["prompt"] == JStr(prompt)
    ensures c.params["max_tokens"] == MaxTokens(cfg, options)
    ensures c.params["temperature"] == Temperature(cfg, options)
  {
    SdkCall(Completions, map[
      "prompt" := JStr(prompt),
      "model" := JStr(svc.model),
      "max_tokens" := MaxTokens(cfg, options),
      "temperature" := Temperature(cfg, options)])
  }

  /** `generateText($prompt, $options)` */
  function GenerateText(svc: Service, cfg: Config, prompt: string, options: Fields, sdk: Sdk): (x: Exchange<SdkCall>)
    ensures Handled(sdk, x)
    ensures x.sent == [Completion(svc, cfg, prompt, options)]
  {
    Invoke(sdk, Completion(svc, cfg, prompt, options))
  }

  /** `chat($conversation, $options)`: the conversation argument is not used;
      the messages are `$options['messages']`, null when absent. */
  function ChatCall(svc: Service, cfg: Config, conversation: string, options: Fields, sdk: Sdk): (x: Exchange<SdkCall>)
    ensures Handled(sdk, x)
    ensures |x.sent| == 1 && x.sent[0].resource == Chat
    ensures x.sent[0].params.Keys == {"model", "messages", "temperature"}
    ensures x.sent[0].params["model"] == SelectModel(svc, cfg, Setting(cfg, ChatModelKey))
    ensures x.sent[0].params["messages"] == Entry(options, "messages")
    ensures x.sent[0].params["temperature"] == Temperature(cfg, options)
  {
    Invoke(sdk, SdkCall(Chat, map[
      "model" := SelectModel(svc, cfg, Setting(cfg, ChatModelKey)),
      "messages" := Entry(options, "messages"),
      "temperature" := Temperature(cfg, options)]))
  }

  /** `analyzeSentiment($text, $options)` */
  function AnalyzeSentiment(svc: Service, cfg: Config, text: string, options: Fields, sdk: Sdk): (x: Exchange<SdkCall>)
    ensures Handled(sdk, x)
    ensures |x.sent| == 1 && x.sent[0].resource == Classifications
    ensures x.sent[0].params.Keys == {"model", "query", "labels"}
    ensures x.sent[0].params["model"] == JStr(svc.model) && x.sent[0].params["query"] == JStr(text)
    ensures x.sent[0].params["labels"] == Coalesce(options, "labels", DefaultLabels)
  {
    Invoke(sdk, SdkCall(Classifications, map[
      "model" := JStr(svc.model),
      "query" := JStr(text),
      "labels" := Coalesce(options, "labels", DefaultLabels)]))
  }

  /** `summarizeText($text, $options)` */
  function SummarizeText(svc: Service, cfg: Config, text: string, options: Fields, sdk: Sdk): (x: Exchange<SdkCall>)
    ensures Handled(sdk, x)
    ensures x.sent == [Completion(svc, cfg, SummarizePrompt(text), options)]
  {
    Invoke(sdk, Completion(svc, cfg, SummarizePrompt(text), options))
  }

  /** `translateText($text, $targetLanguage, $options)` */
  function TranslateText(svc: Service, cfg: Config, text: string, language: string, options: Fields, sdk: Sdk): (x: Exchange<SdkCall>)
    ensures Handled(sdk, x)
    ensures x.sent == [Completion(svc, cfg, TranslatePrompt(language, text), options)]
  {
    Invoke(sdk, Completion(svc, cfg, TranslatePrompt(language, text), options))
  }

  /** `generateEmbeddings($text, $options)` */
  function GenerateEmbeddings(svc: Service, cfg: Config, text: string, options: Fields, sdk: Sdk): (x: Exchange<SdkCall>)
    ensures Handled(sdk, x)
    ensures |x.sent| == 1 && x.sent[0].resource == Embeddings
    ensures x.sent[0].params.Keys == {"model", "input"}
    ensures x.sent[0].params["model"] == SelectModel(svc, cfg, JStr("text-embedding-ada-002"))
    ensures x.sent[0].params["input"] == JStr(text)
  {
    Invoke(sdk, SdkCall(Embeddings, map[
      "model" := SelectModel(svc, cfg, JStr("text-embedding-ada-002")),
      "input" := JStr(text)]))
  }

  /** `generateCode($prompt, $options)`: the temperature defaults to 0.2,
      not to the configured temperature. */
  function GenerateCode(svc: Service, cfg: Config, prompt: string, options: Fields, sdk: Sdk): (x: Exchange<SdkCall>)
    ensures Handled(sdk, x)
    ensures |x.sent| == 1 && x.sent[0].resource == Completions
    ensures x.sent[0].params.Keys == {"model", "prompt", "max_tokens", "temperature"}
    ensures x.sent[0].params["model"] == SelectModel(svc, cfg, JStr("code-davinci-002"))
    ensures x.sent[0].params["prompt"] == JStr(prompt)
    ensures x.sent[0].params["max_tokens"] == MaxTokens(cfg, options)
    ensures x.sent[0].params["temperature"] == Coalesce(options, "temperature", JFloat("0.2"))
  {
    Invoke(sdk, SdkCall(Completions, map[
      "model" := SelectModel(svc, cfg, JStr("code-davinci-002")),
      "prompt" := JStr(prompt),
      "max_tokens" := MaxTokens(cfg, options),
      "temperature" := Coalesce(options, "temperature", JFloat("0.2"))]))
  }

  /** After `model($m)`, the four direct calls send exactly `m`; the three
      selecting calls send `m` if and only if it differs from the configured
      default model, and their fixed fallbacks otherwise. */
  lemma SetModelReachesCalls(svc: Service, cfg: Config, m: string, text: string, options: Fields, sdk: Sdk)
    ensures var s := SetModel(svc, m);
      && GenerateText(s, cfg, text, options, sdk).sent[0].params["model"] == JStr(m)
      && AnalyzeSentiment(s, cfg, text, options, sdk).sent[0].params["model"] == JStr(m)
      && SummarizeText(s, cfg, text, options, sdk).sent[0].params["model"] == JStr(m)
      && TranslateText(s, cfg, text, "fr", options, sdk).sent[0].params["model"] == JStr(m)
    ensures var s := SetModel(svc, m);
      && (ChatCall(s, cfg, text, options, sdk).sent[0].params["model"] == JStr(m) <==> JStr(m) != Setting(cfg, DefaultModelKey) || Setting(cfg, ChatModelKey) == JStr(m))
      && (GenerateEmbeddings(s, cfg, text, options, sdk).sent[0].params["model"] == JStr(m) <==> JStr(m) != Setting(cfg, DefaultModelKey) || m == "text-embedding-ada-002")
      && (GenerateCode(s, cfg, text, options, sdk).sent[0].params["model"] == JStr(m) <==> JStr(m) != Setting(cfg, DefaultModelKey) || m == "code-davinci-002")
  {
  }

  /** `??` precedence: a non-null option is sent as given; an absent or null
      option gives the configured default (0.2 for the code temperature). */
  lemma OptionPrecedence(svc: Service, cfg: Config, prompt: string, options: Fields, sdk: Sdk)
    ensures var p := GenerateText(svc, cfg, prompt, options, sdk).sent[0].params;
      && (Entry(options, "max_tokens") != JNull ==> p["max_tokens"] == options["max_tokens"])
      && (Entry(options, "max_tokens") == JNull ==> p["max_tokens"] == Setting(cfg, MaxTokensKey))
      && (Entry(options, "temperature") != JNull ==> p["temperature"] == options["temperature"])
      && (Entry(options, "temperature") == JNull ==> p["temperature"] == Setting(cfg, TemperatureKey))
    ensures var p := GenerateCode(svc, cfg, prompt, options, sdk).sent[0].params;
      Entry(options, "temperature") == JNull ==> p["temperature"] == JFloat("0.2")
  {
  }

  /** The default sentiment labels are one string, not three labels; a
      `labels` option replaces them. */
  lemma DefaultLabelsAreOneString(svc: Service, cfg: Config, text: string, labels: Json, sdk: Sdk)
    requires labels != JNull
    ensures var l := AnalyzeSentiment(svc, cfg, text, map[], sdk).sent[0].params["labels"];
      l.JArr? && |l.items| == 1 && l.items[0] == JStr("Negative, Neutral, Positive")
    ensures AnalyzeSentiment(svc, cfg, text, map["labels" := labels], sdk).sent[0].params["labels"] == labels
  {
  }

  /** `chat` sends the same request whatever the conversation argument is. */
  lemma ChatIgnoresConversation(svc: Service, cfg: Config, c1: string, c2: string, options: Fields, sdk: Sdk)
    ensures ChatCall(svc, cfg, c1, options, sdk) == ChatCall(svc, cfg, c2, options, sdk)
  {
  }

  /** In every one of the seven calls an \Exception raised by the SDK comes
      back as `['error' => message]` and an \Error escapes. */
  lemma ErrorsAreWrapped(svc: Service, cfg: Config, text: string, language: string, options: Fields, sdk: Sdk)
    ensures WrapsErrors(sdk, GenerateText(svc, cfg, text, options, sdk))
    ensures WrapsErrors(sdk, ChatCall(svc, cfg, text, options, sdk))
    ensures WrapsErrors(sdk, AnalyzeSentiment(svc, cfg, text, options, sdk))
    ensures WrapsErrors(sdk, SummarizeText(svc, cfg, text, options, sdk))
    ensures WrapsErrors(sdk, TranslateText(svc, cfg, text, language, options, sdk))
    ensures WrapsErrors(sdk, GenerateEmbeddings(svc, cfg, text, options, sdk))
    ensures WrapsErrors(sdk, GenerateCode(svc, cfg, text, options, sdk))
  {
  }
}
