/** `ClaudeAIService` (src/Services/ClaudeAIService.php): the Messages API
    client with document analysis, tool use and the message-batch endpoints.
    Configuration is read at construction and again at every call, under the
    literal keys the class uses (several of them start with `api.` rather
    than `ai.`). */
module ClaudeAIService {
  import opened Php
  import opened Optional
  import opened Http
  import Base64
  import ClaudeCommon

  const ApiKeyKey := "ai.providers.claude.api_key"
  const BaseUrlKey := "ai.providers.claude.base_url"
  const VersionKey := "ai.providers.claude.version"
  const ModelKey := "ai.providers.claude.model"
  const MisspeltModelKey := "api.providers.claude.model"
  const MisspeltMaxTokensKey := "api.providers.claude.default_max_tokens"
  const BatchUrlKey := "api.providers.claude.batch_url"

  const Required := "API key, Version and base URL are required in configuration."
  const ToolRequired := "Tool is a required option in configuration."

  /** The constructed client: the typed `apiKey` and `baseUrl` properties,
      the untyped `version` property and the Guzzle client's default headers. */
  datatype Service = Service(apiKey: string, baseUrl: string, version: Json, clientHeaders: Headers)

  function ClientHeaders(apiKey: string): Headers {
    map["Authorization" := JStr("Bearer " + apiKey), "Accept" := JStr("application/json")]
  }

  /** The constructor as written: the key and URL go into `string`-typed
      properties first, so a null or array value raises a TypeError before
      the `empty()` check is reached. */
  function New(cfg: Config): (r: Outcome<Service>)
    ensures var k := Setting(cfg, ApiKeyKey); var b := Setting(cfg, BaseUrlKey); var v := Setting(cfg, VersionKey);
      && (!Scalar(k) ==> r == Threw(TypeError("apiKey")))
      && (Scalar(k) && !Scalar(b) ==> r == Threw(TypeError("baseUrl")))
      && (Scalar(k) && Scalar(b) ==>
            (r.Returned? <==> !EmptyString(ToStr(k)) && !EmptyString(ToStr(b)) && !Empty(v)))
      && (Scalar(k) && Scalar(b) && r.Threw? ==> r == Threw(InvalidArgument(Required)))
      && (r.Returned? ==> r.value == Service(ToStr(k), ToStr(b), v, ClientHeaders(ToStr(k))))
  {
    var v := Setting(cfg, VersionKey);
    match AssignString(Setting(cfg, ApiKeyKey), "apiKey")
    case Threw(t) => Threw(t)
    case Returned(apiKey) =>
      match AssignString(Setting(cfg, BaseUrlKey), "baseUrl")
      case Threw(t) => Threw(t)
      case Returned(baseUrl) =>
        if EmptyString(apiKey) || EmptyString(baseUrl) || Empty(v) then Threw(InvalidArgument(Required))
        else Returned(Service(apiKey, baseUrl, v, ClientHeaders(apiKey)))
  }

  /** The configuration of the constructor test: a null API key. */
  const NullKeyConfig: Config := map[
    ApiKeyKey := JNull,
    BaseUrlKey := JStr("https://api.anthropic.com/v1/"),
    ModelKey := JStr("claude-3-5-sonnet-20241022"),
    VersionKey := JStr("2023-06-01")]

  /** As written, a null API key ends in a TypeError, not the
      InvalidArgumentException the constructor's own check would raise. */
  lemma NullApiKeyIsTypeError()
    ensures New(NullKeyConfig) == Threw(TypeError("apiKey"))
    ensures New(NullKeyConfig) != Threw(InvalidArgument(Required))
  {
  }

  /** The constructor as evidently intended: a missing (null) setting is
      rejected by the required-configuration check like an empty one. */
  function NewChecked(cfg: Config): (r: Outcome<Service>)
    ensures Setting(cfg, ApiKeyKey) == JNull || Setting(cfg, BaseUrlKey) == JNull || Setting(cfg, VersionKey) == JNull
      ==> r == Threw(InvalidArgument(Required))
    ensures Setting(cfg, ApiKeyKey) != JNull && Setting(cfg, BaseUrlKey) != JNull && Setting(cfg, VersionKey) != JNull
      ==> r == New(cfg)
  {
    if Setting(cfg, ApiKeyKey) == JNull || Setting(cfg, BaseUrlKey) == JNull || Setting(cfg, VersionKey) == JNull then
      Threw(InvalidArgument(Required))
    else New(cfg)
  }

  /** The corrected constructor raises the documented exception for the
      test's configuration, and builds the same client as the original
      whenever the original builds one. */
  lemma NewCheckedAgrees(cfg: Config)
    ensures NewChecked(NullKeyConfig) == Threw(InvalidArgument(Required))
    ensures New(cfg).Returned? ==> NewChecked(cfg) == New(cfg)
  {
  }

  /** The headers of the calls that send the Anthropic headers themselves. */
  function CallHeaders(svc: Service): Headers {
    ArrayMerge(svc.clientHeaders, map[
      "Content-Type" := JStr("application/json"),
      "x-api-key" := JStr(svc.apiKey),
      "anthropic-version" := svc.version])
  }

  /** The JSON body of a request, null when it has none. */
  function Payload(r: Request): Json {
    if r.body.JsonBody? then r.body.json else JNull
  }

  /** `generateText($messages, $options)` as written: it reads the undefined
      `$option`, so every setting comes from configuration (under the `api.`
      keys) and the options never reach the payload. */
  function GenerateText(svc: Service, cfg: Config, messages: Json, options: Fields, net: Net): (x: Exchange<Request>)
    requires IsArray(messages)
    ensures |x.sent| == 1
    ensures x.sent[0].verb == "post" && x.sent[0].url == svc.baseUrl && x.sent[0].headers == CallHeaders(svc)
    ensures var p := Payload(x.sent[0]);
      && p.JObj? && p.fields.Keys == {"model", "max_tokens", "messages", "stream"}
      && Index(p, "model") == Setting(cfg, MisspeltModelKey)
      && Index(p, "max_tokens") == Setting(cfg, MisspeltMaxTokensKey)
      && Index(p, "messages") == messages
      && Index(p, "stream") == JBool(false)
    ensures x.outcome == Returned(ClaudeCommon.Wrap(net(x.sent[0])))
  {
    var payload := JObj(map[
      "model" := Setting(cfg, MisspeltModelKey),
      "max_tokens" := Setting(cfg, MisspeltMaxTokensKey),
      "messages" := messages,
      "stream" := JBool(false)]);
    var request := Request("post", svc.baseUrl, CallHeaders(svc), JsonBody(payload));
    Exchange([request], Returned(ClaudeCommon.Wrap(net(request))))
  }

  /** Whatever options are passed, `generateText` sends the same request and
      returns the same result. */
  lemma GenerateTextIgnoresOptions(svc: Service, cfg: Config, messages: Json, o1: Fields, o2: Fields, net: Net)
    requires IsArray(messages)
    ensures GenerateText(svc, cfg, messages, o1, net) == GenerateText(svc, cfg, messages, o2, net)
    ensures Payload(GenerateText(svc, cfg, messages, map["model" := JStr("m")], net).sent[0]) ==
            Payload(GenerateText(svc, cfg, messages, map[], net).sent[0])
  {
  }

  /** `generateText` as evidently intended: `model`, `maxTokens` and `stream`
      options override the configured values. */
  function GenerateTextWithOptions(svc: Service, cfg: Config, messages: Json, options: Fields, net: Net): (x: Exchange<Request>)
    requires IsArray(messages)
    ensures |x.sent| == 1 && x.sent[0].url == svc.baseUrl && x.sent[0].headers == CallHeaders(svc)
    ensures var p := Payload(x.sent[0]);
      && p.JObj? && p.fields.Keys == {"model", "max_tokens", "messages", "stream"}
      && ("model" in options && options["model"] != JNull ==> Index(p, "model") == options["model"])
      && (Entry(options, "model") == JNull ==> Index(p, "model") == Setting(cfg, MisspeltModelKey))
      && ("maxTokens" in options && options["maxTokens"] != JNull ==> Index(p, "max_tokens") == options["maxTokens"])
      && (Entry(options, "maxTokens") == JNull ==> Index(p, "max_tokens") == Setting(cfg, MisspeltMaxTokensKey))
      && ("stream" in options && options["stream"] != JNull ==> Index(p, "stream") == options["stream"])
      && (Entry(options, "stream") == JNull ==> Index(p, "stream") == JBool(false))
      && Index(p, "messages") == messages
    ensures Entry(options, "model") == JNull && Entry(options, "maxTokens") == JNull && Entry(options, "stream") == JNull
      ==> x == GenerateText(svc, cfg, messages, options, net)
    ensures x.outcome == Returned(ClaudeCommon.Wrap(net(x.sent[0])))
  {
    var payload := JObj(map[
      "model" := Coalesce(options, "model", Setting(cfg, MisspeltModelKey)),
      "max_tokens" := Coalesce(options, "maxTokens", Setting(cfg, MisspeltMaxTokensKey)),
      "messages" := messages,
      "stream" := Coalesce(options, "stream", JBool(false))]);
    var request := Request("post", svc.baseUrl, CallHeaders(svc), JsonBody(payload));
    Exchange([request], Returned(ClaudeCommon.Wrap(net(request))))
  }

  /** The headers of `analyzeDocumentWithQuery`: the API key is read from the
      undefined `$this->api_key` property and so is null. */
  function DocumentHeaders(svc: Service): (h: Headers)
    ensures h.Keys == svc.clientHeaders.Keys + {"content-type", "x-api-key", "anthropic-version"}
    ensures h["x-api-key"] == JNull && h["anthropic-version"] == svc.version
    ensures h["content-type"] == JStr("application/json")
  {
    ArrayMerge(svc.clientHeaders, map[
      "content-type" := JStr("application/json"),
      "x-api-key" := JNull,
      "anthropic-version" := svc.version])
  }

  /** `analyzeDocumentWithQuery($fileUrl, $options)`: `$option` is read
      instead of `$options`, so the query, model and token limit are the
      defaults whatever is passed. */
  function AnalyzeDocumentWithQuery(svc: Service, cfg: Config, fileUrl: string, options: Fields,
                                    fetched: Option<seq<Base64.Byte>>, net: Net): (x: Exchange<Request>)
    ensures fetched.None? ==> x == Exchange([], Returned(ErrorResult("Unable to fetch the file from " + fileUrl)))
    ensures fetched.Some? ==>
      && |x.sent| == 1 && x.sent[0].url == svc.baseUrl
      && x.sent[0].headers == DocumentHeaders(svc)
      && Payload(x.sent[0]) == ClaudeCommon.DocumentPayload(Setting(cfg, ModelKey), JInt(1024),
           Base64.Encode(fetched.value), "Analyze this document")
      && Base64.Decode(Base64.Encode(fetched.value)) == Some(fetched.value)
    ensures fetched.Some? ==> x.sent[0].verb == "post"
    ensures fetched.Some? && net(x.sent[0]).Answered? && IsArray(net(x.sent[0]).body) ==>
      x.outcome == Returned(net(x.sent[0]).body)
    ensures fetched.Some? && net(x.sent[0]).Answered? && !IsArray(net(x.sent[0]).body) ==>
      x.outcome == Threw(TypeError("return value"))
    ensures fetched.Some? && net(x.sent[0]).Failed? ==>
      x.outcome == Returned(ErrorResult(net(x.sent[0]).message))
  {
    match fetched
    case None =>
      ClaudeCommon.AnalyzeDocument(svc.baseUrl, DocumentHeaders(svc), Setting(cfg, ModelKey), fileUrl, fetched, net)
    case Some(content) =>
      Base64.DecodeEncode(content);
      ClaudeCommon.AnalyzeDocument(svc.baseUrl, DocumentHeaders(svc), Setting(cfg, ModelKey), fileUrl, fetched, net)
  }

  /** The options never change the document request or its result. */
  lemma AnalyzeIgnoresOptions(svc: Service, cfg: Config, fileUrl: string, o1: Fields, o2: Fields,
                              fetched: Option<seq<Base64.Byte>>, net: Net)
    ensures AnalyzeDocumentWithQuery(svc, cfg, fileUrl, o1, fetched, net)
         == AnalyzeDocumentWithQuery(svc, cfg, fileUrl, o2, fetched, net)
  {
  }

  /** `['error' => true, 'message' => $message]`, the failure shape of `useTool`. */
  function ToolError(message: string): Json {
    JObj(map["error" := JBool(true), "message" := JStr(message)])
  }

  /** `useTool($messages, $options)` */
  function UseTool(svc: Service, cfg: Config, messages: Json, options: Fields, net: Net): (x: Exchange<Request>)
    requires IsArray(messages)
    ensures Empty(Entry(options, "tool")) <==> |x.sent| == 0
    ensures Empty(Entry(options, "tool")) ==> x.outcome == Threw(InvalidArgument(ToolRequired))
    ensures !Empty(Entry(options, "tool")) ==>
      && |x.sent| == 1 && x.sent[0].url == svc.baseUrl && x.sent[0].headers == CallHeaders(svc)
      && var p := Payload(x.sent[0]);
      && p.JObj? && p.fields.Keys == {"model", "max_tokens", "tools", "messages", "stream"}
      && Index(p, "tools") == options["tool"]
      && Index(p, "messages") == messages
      && Index(p, "max_tokens") == (if Entry(options, "maxTokens") != JNull then options["maxTokens"] else JInt(1024))
      && Index(p, "stream") == (if Entry(options, "stream") != JNull then options["stream"] else JBool(false))
      && Index(p, "model") == (if Entry(options, "model") != JNull then options["model"] else Setting(cfg, ModelKey))
      && x.outcome == ClaudeCommon.ReturnArray(net(x.sent[0]), ToolError)
  {
    var tool := Entry(options, "tool");
    if Empty(tool) then Exchange([], Threw(InvalidArgument(ToolRequired)))
    else
      var payload := JObj(map[
        "model" := Coalesce(options, "model", Setting(cfg, ModelKey)),
        "max_tokens" := Coalesce(options, "maxTokens", JInt(1024)),
        "tools" := tool,
        "messages" := messages,
        "stream" := Coalesce(options, "stream", JBool(false))]);
      var request := Request("post", svc.baseUrl, CallHeaders(svc), JsonBody(payload));
      Exchange([request], ClaudeCommon.ReturnArray(net(request), ToolError))
  }

  /** A `useTool` failure is reported as `error: true` with the message
      beside it, where the other calls put the message under `error`. */
  lemma ToolFailureShape(svc: Service, cfg: Config, messages: Json, options: Fields, net: Net)
    requires IsArray(messages) && !Empty(Entry(options, "tool"))
    ensures var x := UseTool(svc, cfg, messages, options, net);
      net(x.sent[0]).Failed? ==>
        && x.outcome.Returned?
        && Index(x.outcome.value, "error") == JBool(true)
        && Index(x.outcome.value, "message") == JStr(net(x.sent[0]).message)
  {
  }

  /** `useTool` is the options-aware `generateText` plus the tool: the same
      POST to the base URL with the call headers, the same messages and
      stream flag, and a payload that is the `generateText` one with `tools`
      added once the model and token limit are given as options. Without
      those options the defaults differ: the model comes from
      `ai.providers.claude.model` rather than the `api.` key, and the token
      limit is 1024. The answers are read alike, except that a non-array
      body is the return-type TypeError rather than an error array. */
  lemma UseToolExtendsGenerateText(svc: Service, cfg: Config, messages: Json, options: Fields, net: Net)
    requires IsArray(messages) && !Empty(Entry(options, "tool"))
    ensures var u := UseTool(svc, cfg, messages, options, net).sent[0];
      var g := GenerateTextWithOptions(svc, cfg, messages, options, net).sent[0];
      && u.verb == g.verb && u.url == g.url && u.headers == g.headers
      && Payload(u).JObj? && Payload(g).JObj?
      && Index(Payload(u), "messages") == Index(Payload(g), "messages")
      && Index(Payload(u), "stream") == Index(Payload(g), "stream")
      && (Entry(options, "model") != JNull && Entry(options, "maxTokens") != JNull ==>
            Payload(u) == JObj(Payload(g).fields["tools" := options["tool"]]))
      && (Entry(options, "model") == JNull ==>
            Index(Payload(u), "model") == Setting(cfg, ModelKey) && Index(Payload(g), "model") == Setting(cfg, MisspeltModelKey))
      && (Entry(options, "maxTokens") == JNull ==>
            Index(Payload(u), "max_tokens") == JInt(1024) && Index(Payload(g), "max_tokens") == Setting(cfg, MisspeltMaxTokensKey))
    ensures var xu := UseTool(svc, cfg, messages, options, net);
      var xg := GenerateTextWithOptions(svc, cfg, messages, options, net);
      net(xu.sent[0]) == net(xg.sent[0]) && net(xu.sent[0]).Answered? && IsArray(net(xu.sent[0]).body) ==>
        xu.outcome == xg.outcome
  {
  }

  /** A batch call on a URI taken straight from configuration: a non-string
      URI makes the client raise before anything is sent. */
  function BatchCall(svc: Service, verb: string, uri: Json, net: Net): (x: Exchange<Request>)
    ensures uri.JStr? ==>
      && x.sent == [Request(verb, uri.s, CallHeaders(svc), NoBody)]
      && x.outcome == Returned(ClaudeCommon.Wrap(net(x.sent[0])))
    ensures !uri.JStr? ==> x == Exchange([], Returned(ErrorResult(NotAUri)))
  {
    match UriOf(uri)
    case None => Exchange([], Returned(ErrorResult(NotAUri)))
    case Some(url) =>
      var request := Request(verb, url, CallHeaders(svc), NoBody);
      Exchange([request], Returned(ClaudeCommon.Wrap(net(request))))
  }

  /** `config('api.providers.claude.batch_url') . $token . $suffix` */
  function BatchUrl(cfg: Config, token: string, suffix: string): string {
    ToStr(Setting(cfg, BatchUrlKey)) + token + suffix
  }

  /** `generateBatchMessages($batches, $options)`: the batches are handed to
      the client as an option it does not send, so the request has no body;
      the options are ignored. */
  function GenerateBatchMessages(svc: Service, cfg: Config, batches: Json, options: Fields, net: Net): (x: Exchange<Request>)
    ensures var uri := Setting(cfg, BatchUrlKey);
      && (uri.JStr? ==>
            && x.sent == [Request("post", uri.s, CallHeaders(svc), NoBody)]
            && x.outcome == Returned(ClaudeCommon.Wrap(net(x.sent[0]))))
      && (!uri.JStr? ==> x == Exchange([], Returned(ErrorResult(NotAUri))))
  {
    BatchCall(svc, "post", Setting(cfg, BatchUrlKey), net)
  }

  /** Neither the batches nor the options reach the request: every call of
      `generateBatchMessages` under one configuration sends the same bodiless
      POST and returns the same result. */
  lemma BatchesNotSent(svc: Service, cfg: Config, b1: Json, b2: Json, o1: Fields, o2: Fields, net: Net)
    ensures GenerateBatchMessages(svc, cfg, b1, o1, net) == GenerateBatchMessages(svc, cfg, b2, o2, net)
    ensures forall i :: 0 <= i < |GenerateBatchMessages(svc, cfg, b1, o1, net).sent| ==>
      GenerateBatchMessages(svc, cfg, b1, o1, net).sent[i].body == NoBody
  {
  }

  /** `getBatchMessages($token)` */
  function GetBatchMessages(svc: Service, cfg: Config, token: string, net: Net): (x: Exchange<Request>)
    ensures x.sent == [Request("get", BatchUrl(cfg, token, ""), CallHeaders(svc), NoBody)]
    ensures x.outcome == Returned(ClaudeCommon.Wrap(net(x.sent[0])))
  {
    BatchCall(svc, "get", JStr(BatchUrl(cfg, token, "")), net)
  }

  /** `getBatchMessagesResult($token)`: the status URL with `/results`. */
  function GetBatchMessagesResult(svc: Service, cfg: Config, token: string, net: Net): (x: Exchange<Request>)
    ensures x.sent == [Request("get", BatchUrl(cfg, token, "") + "/results", CallHeaders(svc), NoBody)]
    ensures x.outcome == Returned(ClaudeCommon.Wrap(net(x.sent[0])))
  {
    assert BatchUrl(cfg, token, "") == ToStr(Setting(cfg, BatchUrlKey)) + token;
    BatchCall(svc, "get", JStr(BatchUrl(cfg, token, "/results")), net)
  }

  /** `listBatchMessages()` */
  function ListBatchMessages(svc: Service, cfg: Config, net: Net): (x: Exchange<Request>)
    ensures Setting(cfg, BatchUrlKey).JStr? ==>
      && x.sent == [Request("get", Setting(cfg, BatchUrlKey).s, CallHeaders(svc), NoBody)]
      && x.outcome == Returned(ClaudeCommon.Wrap(net(x.sent[0])))
    ensures !Setting(cfg, BatchUrlKey).JStr? ==> x == Exchange([], Returned(ErrorResult(NotAUri)))
  {
    BatchCall(svc, "get", Setting(cfg, BatchUrlKey), net)
  }

  /** `cancelMessageBatch($token)`: an unconditional GET of the status URL
      with `/cancel`; no batch state is consulted. */
  function CancelMessageBatch(svc: Service, cfg: Config, token: string, net: Net): (x: Exchange<Request>)
    ensures x.sent == [Request("get", BatchUrl(cfg, token, "") + "/cancel", CallHeaders(svc), NoBody)]
    ensures x.outcome == Returned(ClaudeCommon.Wrap(net(x.sent[0])))
  {
    assert BatchUrl(cfg, token, "") == ToStr(Setting(cfg, BatchUrlKey)) + token;
    BatchCall(svc, "get", JStr(BatchUrl(cfg, token, "/cancel")), net)
  }

  /** The batch URLs share one stem, the batch URL followed by the token: the
      results and cancel URLs extend the status URL, and the token can be
      read back from the status URL. */
  lemma BatchUrlsShareStem(svc: Service, cfg: Config, token: string, net: Net)
    ensures var status := GetBatchMessages(svc, cfg, token, net).sent[0].url;
      && GetBatchMessagesResult(svc, cfg, token, net).sent[0].url == status + "/results"
      && CancelMessageBatch(svc, cfg, token, net).sent[0].url == status + "/cancel"
      && status[|ToStr(Setting(cfg, BatchUrlKey))|..] == token
  {
    var stem := ToStr(Setting(cfg, BatchUrlKey));
    assert BatchUrl(cfg, token, "") == stem + token;
    assert (stem + token)[|stem|..] == token;
  }
}
