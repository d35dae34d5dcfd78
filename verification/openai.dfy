/** The SDK-injected OpenAI client (src/Services/OpenAI.php): eight calls
    whose parameters take a non-null per-call option first and otherwise a
    fixed default or a setting under the `ai.openai.*` keys. The SDK client
    is handed in by the caller, so there is no constructor check. */
module OpenAI {
  import opened Php
  import opened Optional
  import opened Http
  import opened OpenAIClient
  import OpenAIService

  const ModelKey := "ai.openai.default_model"
  const MaxTokensKey := "ai.openai.default_max_tokens"
  const TemperatureKey := "ai.openai.default_temperature"

  /** The fixed sentiment labels: three strings, positive first. */
  const Labels := JArr([JStr("Positive"), JStr("Neutral"), JStr("Negative")])

  function MaxTokens(cfg: Config, options: Fields): Json {
    Coalesce(options, "max_tokens", Setting(cfg, MaxTokensKey))
  }

  function Temperature(cfg: Config, options: Fields): Json {
    Coalesce(options, "temperature", Setting(cfg, TemperatureKey))
  }

  /** A completion call: the model option or `defaultModel`, the prompt, and
      the token limit and temperature options or their defaults. */
  function Completion(cfg: Config, defaultModel: Json, prompt: string, temperature: Json, options: Fields): (c: SdkCall)
    ensures c.resource == Completions
    ensures c.params.Keys == {"model", "prompt", "max_tokens", "temperature"}
    ensures c.params["model"] == Coalesce(options, "model", defaultModel)
    ensures c.params["prompt"] == JStr(prompt)
    ensures c.params["max_tokens"] == MaxTokens(cfg, options)
    ensures c.params["temperature"] == Coalesce(options, "temperature", temperature)
  {
    SdkCall(Completions, map[
      "model" := Coalesce(options, "model", defaultModel),
      "prompt" := JStr(prompt),
      "max_tokens" := MaxTokens(cfg, options),
      "temperature" := Coalesce(options, "temperature", temperature)])
  }

  /** `generateText($prompt, $options)` */
  function GenerateText(cfg: Config, prompt: string, options: Fields, sdk: Sdk): (x: Exchange<SdkCall>)
    ensures Handled(sdk, x)
    ensures x.sent == [Completion(cfg, Setting(cfg, ModelKey), prompt, Setting(cfg, TemperatureKey), options)]
  {
    Invoke(sdk, Completion(cfg, Setting(cfg, ModelKey), prompt, Setting(cfg, TemperatureKey), options))
  }

  /** `chat($conversation, $options)`: the conversation argument is not used. */
  function ChatCall(cfg: Config, conversation: string, options: Fields, sdk: Sdk): (x: Exchange<SdkCall>)
    ensures Handled(sdk, x)
    ensures |x.sent| == 1 && x.sent[0].resource == Chat
    ensures x.sent[0].params.Keys == {"model", "messages", "temperature"}
    ensures x.sent[0].params["model"] == Coalesce(options, "model", JStr("gpt-4"))
    ensures x.sent[0].params["messages"] == Entry(options, "messages")
    ensures x.sent[0].params["temperature"] == Temperature(cfg, options)
  {
    Invoke(sdk, SdkCall(Chat, map[
      "model" := Coalesce(options, "model", JStr("gpt-4")),
      "messages" := Entry(options, "messages"),
      "temperature" := Temperature(cfg, options)]))
  }

  /** `analyzeSentiment($text, $options)`: the labels cannot be changed. */
  function AnalyzeSentiment(text: string, options: Fields, sdk: Sdk): (x: Exchange<SdkCall>)
    ensures Handled(sdk, x)
    ensures |x.sent| == 1 && x.sent[0].resource == Classifications
    ensures x.sent[0].params.Keys == {"model", "query", "labels"}
    ensures x.sent[0].params["model"] == Coalesce(options, "model", JStr("text-davinci-003"))
    ensures x.sent[0].params["query"] == JStr(text)
    ensures x.sent[0].params["labels"] == Labels
  {
    Invoke(sdk, SdkCall(Classifications, map[
      "model" := Coalesce(options, "model", JStr("text-davinci-003")),
      "query" := JStr(text),
      "labels" := Labels]))
  }

  /** `summarizeText($text, $options)` */
  function SummarizeText(cfg: Config, text: string, options: Fields, sdk: Sdk): (x: Exchange<SdkCall>)
    ensures Handled(sdk, x)
    ensures x.sent == [Completion(cfg, JStr("text-davinci-003"), SummarizePrompt(text), Setting(cfg, TemperatureKey), options)]
  {
    Invoke(sdk, Completion(cfg, JStr("text-davinci-003"), SummarizePrompt(text), Setting(cfg, TemperatureKey), options))
  }

  /** `translateText($text, $targetLanguage, $options)` */
  function TranslateText(cfg: Config, text: string, language: string, options: Fields, sdk: Sdk): (x: Exchange<SdkCall>)
    ensures Handled(sdk, x)
    ensures x.sent == [Completion(cfg, JStr("text-davinci-003"), TranslatePrompt(language, text), Setting(cfg, TemperatureKey), options)]
  {
    Invoke(sdk, Completion(cfg, JStr("text-davinci-003"), TranslatePrompt(language, text), Setting(cfg, TemperatureKey), options))
  }

  /** `generateEmbeddings($text, $options)` */
  function GenerateEmbeddings(text: string, options: Fields, sdk: Sdk): (x: Exchange<SdkCall>)
    ensures Handled(sdk, x)
    ensures |x.sent| == 1 && x.sent[0].resource == Embeddings
    ensures x.sent[0].params.Keys == {"model", "input"}
    ensures x.sent[0].params["model"] == Coalesce(options, "model", JStr("text-embedding-ada-002"))
    ensures x.sent[0].params["input"] == JStr(text)
  {
    Invoke(sdk, SdkCall(Embeddings, map[
      "model" := Coalesce(options, "model", JStr("text-embedding-ada-002")),
      "input" := JStr(text)]))
  }

  /** `answerQuestion($context, $question, $options)` */
  function AnswerQuestion(cfg: Config, context: string, question: string, options: Fields, sdk: Sdk): (x: Exchange<SdkCall>)
    ensures Handled(sdk, x)
    ensures x.sent == [Completion(cfg, JStr("text-davinci-003"), AnswerPrompt(context, question), Setting(cfg, TemperatureKey), options)]
  {
    Invoke(sdk, Completion(cfg, JStr("text-davinci-003"), AnswerPrompt(context, question), Setting(cfg, TemperatureKey), options))
  }

  /** `generateCode($prompt, $options)` */
  function GenerateCode(cfg: Config, prompt: string, options: Fields, sdk: Sdk): (x: Exchange<SdkCall>)
    ensures Handled(sdk, x)
    ensures x.sent == [Completion(cfg, JStr("code-davinci-002"), prompt, JFloat("0.2"), options)]
  {
    Invoke(sdk, Completion(cfg, JStr("code-davinci-002"), prompt, JFloat("0.2"), options))
  }

  /** With no options each of the eight calls sends its fixed or configured
      default model, and the completion temperatures their defaults. */
  lemma Defaults(cfg: Config, text: string, sdk: Sdk)
    ensures GenerateText(cfg, text, map[], sdk).sent[0].params["model"] == Setting(cfg, ModelKey)
    ensures GenerateText(cfg, text, map[], sdk).sent[0].params["temperature"] == Setting(cfg, TemperatureKey)
    ensures ChatCall(cfg, text, map[], sdk).sent[0].params["model"] == JStr("gpt-4")
    ensures AnalyzeSentiment(text, map[], sdk).sent[0].params["model"] == JStr("text-davinci-003")
    ensures SummarizeText(cfg, text, map[], sdk).sent[0].params["model"] == JStr("text-davinci-003")
    ensures TranslateText(cfg, text, text, map[], sdk).sent[0].params["model"] == JStr("text-davinci-003")
    ensures GenerateEmbeddings(text, map[], sdk).sent[0].params["model"] == JStr("text-embedding-ada-002")
    ensures AnswerQuestion(cfg, text, text, map[], sdk).sent[0].params["model"] == JStr("text-davinci-003")
    ensures GenerateCode(cfg, text, map[], sdk).sent[0].params["model"] == JStr("code-davinci-002")
    ensures GenerateCode(cfg, text, map[], sdk).sent[0].params["temperature"] == JFloat("0.2")
  {
  }

  /** A non-null `model` option is the model of every one of the eight calls. */
  lemma ModelOptionOverrides(cfg: Config, text: string, m: Json, sdk: Sdk)
    requires m != JNull
    ensures var o := map["model" := m];
      && GenerateText(cfg, text, o, sdk).sent[0].params["model"] == m
      && ChatCall(cfg, text, o, sdk).sent[0].params["model"] == m
      && AnalyzeSentiment(text, o, sdk).sent[0].params["model"] == m
      && SummarizeText(cfg, text, o, sdk).sent[0].params["model"] == m
      && TranslateText(cfg, text, text, o, sdk).sent[0].params["model"] == m
      && GenerateEmbeddings(text, o, sdk).sent[0].params["model"] == m
      && AnswerQuestion(cfg, text, text, o, sdk).sent[0].params["model"] == m
      && GenerateCode(cfg, text, o, sdk).sent[0].params["model"] == m
  {
  }

  /** The sentiment labels are the same whatever options are passed, and
      differ from those of `OpenAIService` in both count and order. */
  lemma LabelsAreFixed(text: string, o1: Fields, o2: Fields, sdk: Sdk, svc: OpenAIService.Service, cfg: Config)
    ensures AnalyzeSentiment(text, o1, sdk).sent[0].params["labels"]
         == AnalyzeSentiment(text, o2, sdk).sent[0].params["labels"]
    ensures |Labels.items| == 3 && Labels.items[0] == JStr("Positive") && Labels.items[2] == JStr("Negative")
    ensures OpenAIService.AnalyzeSentiment(svc, cfg, text, map[], sdk).sent[0].params["labels"] != Labels
  {
  }

  /** The prompt-building calls send prompts from which their inputs can be
      read back: the summarized text and, for a language without `:`, the
      language and text of a translation. */
  lemma PromptsCarryInputs(cfg: Config, text: string, language: string, options: Fields, sdk: Sdk)
    requires ':' !in language
    ensures var p := SummarizeText(cfg, text, options, sdk).sent[0].params["prompt"];
      p.JStr? && StripPrefix(SummarizePrefix, p.s) == Some(text)
    ensures var p := TranslateText(cfg, text, language, options, sdk).sent[0].params["prompt"];
      p.JStr? && ParseTranslate(p.s) == Some((language, text))
  {
    SummarizeRoundTrip(text, text);
    TranslateRoundTrip(language, text);
  }

  /** In every one of the eight calls an \Exception raised by the SDK comes
      back as `['error' => message]` and an \Error escapes. */
  lemma ErrorsAreWrapped(cfg: Config, text: string, other: string, options: Fields, sdk: Sdk)
    ensures WrapsErrors(sdk, GenerateText(cfg, text, options, sdk))
    ensures WrapsErrors(sdk, ChatCall(cfg, text, options, sdk))
    ensures WrapsErrors(sdk, AnalyzeSentiment(text, options, sdk))
    ensures WrapsErrors(sdk, SummarizeText(cfg, text, options, sdk))
    ensures WrapsErrors(sdk, TranslateText(cfg, text, other, options, sdk))
    ensures WrapsErrors(sdk, GenerateEmbeddings(text, options, sdk))
    ensures WrapsErrors(sdk, AnswerQuestion(cfg, other, text, options, sdk))
    ensures WrapsErrors(sdk, GenerateCode(cfg, text, options, sdk))
  {
  }
}
