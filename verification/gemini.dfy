/** `GeminiService` (src/Services/Gemini.php): untyped properties, a client
    that sends a bearer token on every request, and calls whose model segment
    is the never-assigned `defaultModel` property, read as null and printed
    as the empty string. */
module Gemini {
  import opened Php
  import opened Optional
  import opened Http
  import opened GeminiProtocol

  const ApiKeyKey := "ai.providers.gemini.api_key"
  const BaseUrlKey := "ai.providers.gemini.base_url"
  const DefaultModelKey := "ai.providers.gemini.default_model"

  const Required := "API key and base URL are required in configuration."

  /** The untyped `apiKey` and `baseUrl` properties and the dynamic `model`
      property; `defaultModel`, which the calls read, is never assigned. */
  datatype Service = Service(apiKey: Json, baseUrl: Json, model: Json)

  /** The constructor: no property is typed, so any value is stored and the
      `empty()` check alone decides. The model falls back to an undefined
      variable, null. */
  function New(cfg: Config): (r: Outcome<Service>)
    ensures var k := Setting(cfg, ApiKeyKey); var b := Setting(cfg, BaseUrlKey);
      && (r.Returned? <==> !Empty(k) && !Empty(b))
      && (r.Threw? ==> r == Threw(InvalidArgument(Required)))
      && (r.Returned? ==> r.value == Service(k, b, Setting(cfg, DefaultModelKey)))
  {
    var k := Setting(cfg, ApiKeyKey);
    var b := Setting(cfg, BaseUrlKey);
    if Empty(k) || Empty(b) then Threw(InvalidArgument(Required))
    else Returned(Service(k, b, Setting(cfg, DefaultModelKey)))
  }

  /** Unlike `GeminiAIService`, a null key is refused by the check itself. */
  lemma NullKeyIsInvalidArgument(cfg: Config)
    requires Setting(cfg, ApiKeyKey) == JNull
    ensures New(cfg) == Threw(InvalidArgument(Required))
  {
  }

  /** The client's default headers. */
  function ClientHeaders(svc: Service): (h: Headers)
    ensures h.Keys == {"Authorization", "Accept"}
    ensures h["Authorization"] == JStr("Bearer " + ToStr(svc.apiKey))
    ensures h["Accept"] == JStr("application/json")
  {
    map["Authorization" := JStr("Bearer " + ToStr(svc.apiKey)), "Accept" := JStr("application/json")]
  }

  /** What the calls put into URLs: the base URL and key as strings, and the
      never-assigned `defaultModel`, which reads as null and prints as the
      empty string, as the model segment. */
  function EndpointOf(svc: Service): Endpoint {
    Endpoint(ToStr(svc.baseUrl), ToStr(svc.apiKey), "", ClientHeaders(svc))
  }

  /** `generateText($prompt, $options)`: one POST to the `generateContent`
      URL; the body is returned under `data`, a client exception under `error`. */
  function GenerateText(svc: Service, prompt: string, options: Fields, net: Net): (x: Exchange<Request>)
    ensures x.sent == [Request("post", GenerateUrl(EndpointOf(svc)), ClientHeaders(svc), JsonBody(TextContents(prompt)))]
    ensures net(x.sent[0]).Answered? ==> x.outcome == Returned(DataResult(net(x.sent[0]).body))
    ensures net(x.sent[0]).Failed? ==> x.outcome == Returned(ErrorResult(net(x.sent[0]).message))
  {
    var request := Request("post", GenerateUrl(EndpointOf(svc)), ClientHeaders(svc), JsonBody(TextContents(prompt)));
    var result := match net(request)
      case Answered(_, body) => DataResult(body)
      case Failed(m) => ErrorResult(m);
    Exchange([request], Returned(result))
  }

  /** The URL never names a model: neither the configured model nor the
      options change it, and it is the base URL, `/models/:generateContent`
      and the key. */
  lemma NoModelInUrl(svc: Service, m: Json, prompt: string, o1: Fields, o2: Fields, net: Net)
    ensures GenerateText(svc.(model := m), prompt, o1, net) == GenerateText(svc, prompt, o2, net)
    ensures GenerateText(svc, prompt, o1, net).sent[0].url
         == ToStr(svc.baseUrl) + "/models/" + ":generateContent?key=" + ToStr(svc.apiKey)
  {
    assert EndpointOf(svc.(model := m)) == EndpointOf(svc);
    assert ToStr(svc.baseUrl) + "/models/" + "" == ToStr(svc.baseUrl) + "/models/";
  }

  /** `transcribeAudio($audioPath, $options)`: the shared three-step flow
      with this class's endpoint and headers. */
  function TranscribeAudio(svc: Service, audio: Audio, options: Fields, net: Net): (x: Exchange<Request>)
    ensures x == Direct(EndpointOf(svc), audio, net)
  {
    Transcribe(EndpointOf(svc), audio, net)
  }

  /** Every request of the flow carries the bearer token and the JSON
      `Accept` header. */
  lemma TranscribeSendsToken(svc: Service, audio: Audio, o1: Fields, net: Net)
    ensures var x := TranscribeAudio(svc, audio, o1, net);
      forall i :: 0 <= i < |x.sent| ==>
        && "Authorization" in x.sent[i].headers && "Accept" in x.sent[i].headers
        && x.sent[i].headers["Authorization"] == JStr("Bearer " + ToStr(svc.apiKey))
        && x.sent[i].headers["Accept"] == JStr("application/json")
  {
    var e := EndpointOf(svc);
    var h := ClientHeaders(svc);
    assert e.clientHeaders == h;
    var token := h["Authorization"];
    assert token == JStr("Bearer " + ToStr(svc.apiKey));
    assert "Authorization" !in UploadHeaders && "Accept" !in UploadHeaders by {
      assert forall n :: n in UploadHeaders ==> n[0] == 'X' || n[0] == 'C';
    }
    ClientHeaderKept(e, audio, net, "Authorization");
    ClientHeaderKept(e, audio, net, "Accept");
    var x := TranscribeAudio(svc, audio, o1, net);
    assert x == Transcribe(e, audio, net);
  }
}
