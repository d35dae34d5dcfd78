/** The second Claude client (src/Services/Claude.php): a prompt call whose
    payload is the prompt merged with the caller's options, and the same
    document analysis as `ClaudeAIService`, with its version header read from
    the `ap.`-prefixed key. Its constructor does not require a version. */
module Claude {
  import opened Php
  import opened Optional
  import opened Http
  import Base64
  import ClaudeCommon
  import ClaudeAIService

  const ApiKeyKey := "ai.providers.claude.api_key"
  const BaseUrlKey := "ai.providers.claude.base_url"
  const ModelKey := "ai.providers.claude.model"
  const MisspeltVersionKey := "ap.providers.claude.version"

  const Required := "API key and base URL are required in configuration."

  /** The typed `apiKey` and `baseUrl` properties and the client's default headers. */
  datatype Service = Service(apiKey: string, baseUrl: string, clientHeaders: Headers)

  function ClientHeaders(apiKey: string): Headers {
    map["Authorization" := JStr("Bearer " + apiKey), "Accept" := JStr("application/json")]
  }

  /** The constructor: both settings are stored in `string` properties (null
      or an array raises a TypeError) and then must be non-empty. */
  function New(cfg: Config): (r: Outcome<Service>)
    ensures var k := Setting(cfg, ApiKeyKey); var b := Setting(cfg, BaseUrlKey);
      && (!Scalar(k) ==> r == Threw(TypeError("apiKey")))
      && (Scalar(k) && !Scalar(b) ==> r == Threw(TypeError("baseUrl")))
      && (Scalar(k) && Scalar(b) ==> (r.Returned? <==> !EmptyString(ToStr(k)) && !EmptyString(ToStr(b))))
      && (Scalar(k) && Scalar(b) && r.Threw? ==> r == Threw(InvalidArgument(Required)))
      && (r.Returned? ==> r.value == Service(ToStr(k), ToStr(b), ClientHeaders(ToStr(k))))
  {
    match AssignString(Setting(cfg, ApiKeyKey), "apiKey")
    case Threw(t) => Threw(t)
    case Returned(apiKey) =>
      match AssignString(Setting(cfg, BaseUrlKey), "baseUrl")
      case Threw(t) => Threw(t)
      case Returned(baseUrl) =>
        if EmptyString(apiKey) || EmptyString(baseUrl) then Threw(InvalidArgument(Required))
        else Returned(Service(apiKey, baseUrl, ClientHeaders(apiKey)))
  }

  /** This constructor is the weaker of the two Claude constructors: every
      configuration `ClaudeAIService` accepts is accepted here with the same
      key, URL and client headers, while an empty version is accepted here
      only. */
  lemma NewWeakerThanClaudeAIService(cfg: Config)
    ensures ClaudeAIService.New(cfg).Returned? ==>
      && New(cfg).Returned?
      && New(cfg).value.apiKey == ClaudeAIService.New(cfg).value.apiKey
      && New(cfg).value.baseUrl == ClaudeAIService.New(cfg).value.baseUrl
      && New(cfg).value.clientHeaders == ClaudeAIService.New(cfg).value.clientHeaders
    ensures var c := map[ApiKeyKey := JStr("k"), BaseUrlKey := JStr("u")];
      New(c).Returned? && ClaudeAIService.New(c).Threw?
  {
    var c := map[ApiKeyKey := JStr("k"), BaseUrlKey := JStr("u")];
    assert Setting(c, ClaudeAIService.VersionKey) == JNull;
  }

  /** The prompt payload: `array_merge(['inputs' => $prompt], $options)`. */
  function PromptPayload(prompt: string, options: Fields): (p: Json)
    ensures p.JObj? && p.fields.Keys == {"inputs"} + options.Keys
    ensures forall k :: k in options ==> p.fields[k] == options[k]
    ensures "inputs" !in options ==> p.fields["inputs"] == JStr(prompt)
  {
    JObj(ArrayMerge(map["inputs" := JStr(prompt)], options))
  }

  /** `generateText($prompt, $options)`: one POST of the merged payload to the
      base URL with the client's headers, answered by the `is_array` rule. */
  function GenerateText(svc: Service, prompt: string, options: Fields, net: Net): (x: Exchange<Request>)
    ensures |x.sent| == 1
    ensures x.sent[0] == Request("post", svc.baseUrl, svc.clientHeaders, JsonBody(PromptPayload(prompt, options)))
    ensures x.outcome.Returned? && IsArray(x.outcome.value)
    ensures x.outcome == Returned(ClaudeCommon.Wrap(net(x.sent[0])))
  {
    var request := Request("post", svc.baseUrl, svc.clientHeaders, JsonBody(PromptPayload(prompt, options)));
    Exchange([request], Returned(ClaudeCommon.Wrap(net(request))))
  }

  /** The merge: the prompt reaches the payload when no option is named
      `inputs`, an `inputs` option replaces it, nothing else is added, and
      without options the payload is the prompt alone. */
  lemma PromptUnlessOverridden(svc: Service, prompt: string, options: Fields, net: Net)
    ensures var p := GenerateText(svc, prompt, options, net).sent[0].body.json;
      && ("inputs" !in options ==> Index(p, "inputs") == JStr(prompt))
      && ("inputs" in options ==> Index(p, "inputs") == options["inputs"])
      && (options == map[] ==> p == JObj(map["inputs" := JStr(prompt)]))
      && |p.fields| == |options| + (if "inputs" in options then 0 else 1)
  {
    var p := PromptPayload(prompt, options);
    if "inputs" in options {
      assert p.fields.Keys == options.Keys;
    } else {
      assert p.fields.Keys == options.Keys + {"inputs"};
    }
  }

  /** The headers of the document request: the API key is read from the
      undefined `api_key` property and so is null; the version comes from
      the `ap.`-prefixed key. */
  function DocumentHeaders(svc: Service, cfg: Config): (h: Headers)
    ensures h.Keys == svc.clientHeaders.Keys + {"content-type", "x-api-key", "anthropic-version"}
    ensures h["x-api-key"] == JNull && h["anthropic-version"] == Setting(cfg, MisspeltVersionKey)
    ensures h["content-type"] == JStr("application/json")
  {
    ArrayMerge(svc.clientHeaders, map[
      "content-type" := JStr("application/json"),
      "x-api-key" := JNull,
      "anthropic-version" := Setting(cfg, MisspeltVersionKey)])
  }

  /** `analyzeDocumentWithQuery($fileUrl, $options)`: the query, model,
      version and token limit come from the undefined `$option`, so the
      defaults always apply. */
  function AnalyzeDocumentWithQuery(svc: Service, cfg: Config, fileUrl: string, options: Fields,
                                    fetched: Option<seq<Base64.Byte>>, net: Net): (x: Exchange<Request>)
    ensures fetched.None? ==> x == Exchange([], Returned(ErrorResult("Unable to fetch the file from " + fileUrl)))
    ensures fetched.Some? ==>
      && |x.sent| == 1 && x.sent[0].verb == "post" && x.sent[0].url == svc.baseUrl
      && x.sent[0].headers == DocumentHeaders(svc, cfg)
      && x.sent[0].body == JsonBody(ClaudeCommon.DocumentPayload(Setting(cfg, ModelKey), JInt(1024),
           Base64.Encode(fetched.value), "Analyze this document"))
      && Base64.Decode(Base64.Encode(fetched.value)) == Some(fetched.value)
    ensures fetched.Some? && net(x.sent[0]).Answered? && IsArray(net(x.sent[0]).body) ==>
      x.outcome == Returned(net(x.sent[0]).body)
    ensures fetched.Some? && net(x.sent[0]).Answered? && !IsArray(net(x.sent[0]).body) ==>
      x.outcome == Threw(TypeError("return value"))
    ensures fetched.Some? && net(x.sent[0]).Failed? ==>
      x.outcome == Returned(ErrorResult(net(x.sent[0]).message))
  {
    match fetched
    case None =>
      ClaudeCommon.AnalyzeDocument(svc.baseUrl, DocumentHeaders(svc, cfg), Setting(cfg, ModelKey), fileUrl, fetched, net)
    case Some(content) =>
      Base64.DecodeEncode(content);
      ClaudeCommon.AnalyzeDocument(svc.baseUrl, DocumentHeaders(svc, cfg), Setting(cfg, ModelKey), fileUrl, fetched, net)
  }

  /** The document request depends neither on the options nor on the correctly
      spelled version key: changing either leaves the call unchanged. */
  lemma AnalyzeIgnoresOptionsAndVersion(svc: Service, cfg: Config, fileUrl: string, o1: Fields, o2: Fields,
                                        v: Json, fetched: Option<seq<Base64.Byte>>, net: Net)
    ensures AnalyzeDocumentWithQuery(svc, cfg, fileUrl, o1, fetched, net)
         == AnalyzeDocumentWithQuery(svc, cfg, fileUrl, o2, fetched, net)
    ensures AnalyzeDocumentWithQuery(svc, cfg["ai.providers.claude.version" := v], fileUrl, o1, fetched, net)
         == AnalyzeDocumentWithQuery(svc, cfg, fileUrl, o1, fetched, net)
  {
    var cfg' := cfg["ai.providers.claude.version" := v];
    assert Setting(cfg', MisspeltVersionKey) == Setting(cfg, MisspeltVersionKey);
    assert Setting(cfg', ModelKey) == Setting(cfg, ModelKey);
  }
}
