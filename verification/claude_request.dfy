/** The `ClaudeRequest` trait: `sendRequest` builds a request against the
    configured Claude base URL with the Anthropic headers and returns the
    decoded body. Its error handling names an `Exception` class that does not
    exist in the trait's namespace, so nothing it throws is caught: the model
    lets failures escape instead of wrapping them. */
module ClaudeRequest {
  import opened Php
  import opened Http

  const BaseUrlKey := "ai.providers.claude.base_url"
  const ApiKeyKey := "ai.providers.claude.api_key"
  const VersionKey := "ai.providers.claude.version"

  /** The headers every request starts from. */
  function DefaultHeaders(cfg: Config): (h: Headers)
    ensures h.Keys == {"Content-Type", "x-api-key", "anthropic-version"}
    ensures h["Content-Type"] == JStr("application/json")
    ensures h["x-api-key"] == Setting(cfg, ApiKeyKey)
    ensures h["anthropic-version"] == Setting(cfg, VersionKey)
  {
    map[
      "Content-Type" := JStr("application/json"),
      "x-api-key" := Setting(cfg, ApiKeyKey),
      "anthropic-version" := Setting(cfg, VersionKey)]
  }

  /** `sendRequest($urlSuffix, $data, $method, $headers)` */
  function SendRequest(cfg: Config, urlSuffix: string, data: Json, verb: string,
                       headers: Headers, net: Net): (x: Exchange<Request>)
    requires IsArray(data)
    ensures |x.sent| == 1
    ensures x.sent[0].verb == verb && x.sent[0].body == JsonBody(data)
    ensures var base := ToStr(Setting(cfg, BaseUrlKey));
      |base| <= |x.sent[0].url| && x.sent[0].url[..|base|] == base && x.sent[0].url[|base|..] == urlSuffix
    ensures x.sent[0].headers == ArrayMerge(DefaultHeaders(cfg), headers)
    ensures net(x.sent[0]).Answered? && IsArray(net(x.sent[0]).body) ==>
      x.outcome == Returned(net(x.sent[0]).body)
    ensures net(x.sent[0]).Answered? && !IsArray(net(x.sent[0]).body) ==>
      x.outcome == Threw(ClassNotFound("KwakuofosuAgyeman\\AIAssistant\\Traits\\Exception"))
    ensures net(x.sent[0]).Failed? ==> x.outcome == Threw(ExceptionThrown(net(x.sent[0]).message))
  {
    var request := Request(verb, ToStr(Setting(cfg, BaseUrlKey)) + urlSuffix,
                           ArrayMerge(DefaultHeaders(cfg), headers), JsonBody(data));
    var outcome :=
      match net(request)
      case Answered(_, body) =>
        if IsArray(body) then Returned(body)
        // `throw new Exception(...)` resolves to a class the namespace lacks
        else Threw(ClassNotFound("KwakuofosuAgyeman\\AIAssistant\\Traits\\Exception"))
      case Failed(message) => Threw(ExceptionThrown(message));
    Exchange([request], outcome)
  }

  /** The call with the defaults `$method = 'post'` and `$headers = []`: a
      POST carrying exactly the three default headers. */
  lemma SendRequestDefaults(cfg: Config, urlSuffix: string, data: Json, net: Net)
    requires IsArray(data)
    ensures var r := SendRequest(cfg, urlSuffix, data, "post", map[], net).sent[0];
      && r.verb == "post"
      && r.headers.Keys == {"Content-Type", "x-api-key", "anthropic-version"}
      && r.headers["x-api-key"] == Setting(cfg, ApiKeyKey)
  {
  }

  /** Caller headers override the defaults key by key: a caller's
      `Content-Type` replaces the default, a caller's `content-type` (another
      key) sits beside it, and the other defaults survive. */
  lemma HeaderOverride(cfg: Config, data: Json, net: Net, mime: Json)
    requires IsArray(data)
    ensures var r := SendRequest(cfg, "", data, "post", map["Content-Type" := mime], net).sent[0];
      && r.headers["Content-Type"] == mime
      && r.headers["x-api-key"] == Setting(cfg, ApiKeyKey)
    ensures var r := SendRequest(cfg, "", data, "post", map["content-type" := mime], net).sent[0];
      && r.headers["Content-Type"] == JStr("application/json")
      && r.headers["content-type"] == mime
      && |r.headers| == 4
  {
    var h := ArrayMerge(DefaultHeaders(cfg), map["content-type" := mime]);
    assert h.Keys == {"Content-Type", "x-api-key", "anthropic-version", "content-type"};
  }
}
