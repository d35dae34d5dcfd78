/** `GeminiAIService` (src/Services/GeminiAIService.php): typed properties
    filled from configuration, a settable model, a prompt call whose URL
    carries the model without an action suffix, and the three-step audio
    transcription. The HTTP client has no default headers. */
module GeminiAIService {
  import opened Php
  import opened Optional
  import opened Http
  import opened GeminiProtocol

  const ApiKeyKey := "ai.providers.gemini.api_key"
  const BaseUrlKey := "ai.providers.gemini.base_url"
  const DefaultModelKey := "ai.providers.gemini.default_model"

  const Required := "API key and base URL are required in configuration."

  /** The typed `apiKey`, `baseUrl` and `defaultModel` properties. */
  datatype Service = Service(apiKey: string, baseUrl: string, defaultModel: string)

  /** The constructor as written: key and URL are stored in `string`
      properties, checked for emptiness, and only then is the default model
      stored, so each null on the way raises a TypeError of its own. */
  function New(cfg: Config): (r: Outcome<Service>)
    ensures var k := Setting(cfg, ApiKeyKey); var b := Setting(cfg, BaseUrlKey); var m := Setting(cfg, DefaultModelKey);
      && (!Scalar(k) ==> r == Threw(TypeError("apiKey")))
      && (Scalar(k) && !Scalar(b) ==> r == Threw(TypeError("baseUrl")))
      && (Scalar(k) && Scalar(b) && (EmptyString(ToStr(k)) || EmptyString(ToStr(b))) ==> r == Threw(InvalidArgument(Required)))
      && (Scalar(k) && Scalar(b) && !EmptyString(ToStr(k)) && !EmptyString(ToStr(b)) && !Scalar(m) ==>
            r == Threw(TypeError("defaultModel")))
      && (r.Returned? <==> Scalar(k) && Scalar(b) && Scalar(m) && !EmptyString(ToStr(k)) && !EmptyString(ToStr(b)))
      && (r.Returned? ==> r.value == Service(ToStr(k), ToStr(b), ToStr(m)))
  {
    match AssignString(Setting(cfg, ApiKeyKey), "apiKey")
    case Threw(t) => Threw(t)
    case Returned(apiKey) =>
      match AssignString(Setting(cfg, BaseUrlKey), "baseUrl")
      case Threw(t) => Threw(t)
      case Returned(baseUrl) =>
        if EmptyString(apiKey) || EmptyString(baseUrl) then Threw(InvalidArgument(Required))
        else
          match AssignString(Setting(cfg, DefaultModelKey), "defaultModel")
          case Threw(t) => Threw(t)
          case Returned(model) => Returned(Service(apiKey, baseUrl, model))
  }

  /** The configuration of the constructor test: key and URL set to null. */
  const NullConfig: Config := map[
    ApiKeyKey := JNull,
    BaseUrlKey := JNull,
    DefaultModelKey := JStr("test-model")]

  /** As written, the null key of the test raises a TypeError, not the
      InvalidArgumentException the constructor's check would raise. */
  lemma NullConfigIsTypeError()
    ensures New(NullConfig) == Threw(TypeError("apiKey"))
    ensures !New(NullConfig).thrown.InvalidArgument?
  {
  }

  /** The constructor as evidently intended: a null key or URL is rejected by
      the required-configuration check, as an empty one is. */
  function NewChecked(cfg: Config): (r: Outcome<Service>)
    ensures Setting(cfg, ApiKeyKey) == JNull || Setting(cfg, BaseUrlKey) == JNull ==> r == Threw(InvalidArgument(Required))
    ensures Setting(cfg, ApiKeyKey) != JNull && Setting(cfg, BaseUrlKey) != JNull ==> r == New(cfg)
  {
    if Setting(cfg, ApiKeyKey) == JNull || Setting(cfg, BaseUrlKey) == JNull then Threw(InvalidArgument(Required))
    else New(cfg)
  }

  /** The corrected constructor raises the documented exception for the
      test's configuration and agrees with the original wherever that builds
      a service. */
  lemma NewCheckedAgrees(cfg: Config)
    ensures NewChecked(NullConfig) == Threw(InvalidArgument(Required))
    ensures New(cfg).Returned? ==> NewChecked(cfg) == New(cfg)
  {
  }

  /** `model($model)`: replaces the default model and returns the object. */
  function Model(svc: Service, model: string): (r: Service)
    ensures r.defaultModel == model && r.apiKey == svc.apiKey && r.baseUrl == svc.baseUrl
  {
    svc.(defaultModel := model)
  }

  /** The `generateText` URL: `sprintf('%smodels/%s?key=%s', ...)`. */
  function TextUrl(svc: Service): string {
    svc.baseUrl + "models/" + svc.defaultModel + "?key=" + svc.apiKey
  }

  /** `generateText($prompt, $options)`: one POST without headers; the decoded
      body is returned under `data`, a client exception under `error`. */
  function GenerateText(svc: Service, prompt: string, options: Fields, net: Net): (x: Exchange<Request>)
    ensures x.sent == [Request("post", TextUrl(svc), map[], JsonBody(TextContents(prompt)))]
    ensures net(x.sent[0]).Answered? ==> x.outcome == Returned(DataResult(net(x.sent[0]).body))
    ensures net(x.sent[0]).Failed? ==> x.outcome == Returned(ErrorResult(net(x.sent[0]).message))
  {
    var request := Request("post", TextUrl(svc), map[], JsonBody(TextContents(prompt)));
    var result := match net(request)
      case Answered(_, body) => DataResult(body)
      case Failed(m) => ErrorResult(m);
    Exchange([request], Returned(result))
  }

  /** The model set by `model()` is the URL segment between `models/` and
      `?key=`, so it can be read back from the URL; the options are unused. */
  lemma ModelReachesUrl(svc: Service, m: string, prompt: string, o1: Fields, o2: Fields, net: Net)
    ensures var url := GenerateText(Model(svc, m), prompt, o1, net).sent[0].url;
      var start := |svc.baseUrl| + |"models/"|;
      && start + |m| <= |url|
      && url[start..start + |m|] == m
      && url[start + |m|..] == "?key=" + svc.apiKey
    ensures GenerateText(svc, prompt, o1, net) == GenerateText(svc, prompt, o2, net)
  {
    var url := TextUrl(Model(svc, m));
    var start := |svc.baseUrl| + |"models/"|;
    assert url == (svc.baseUrl + "models/") + m + ("?key=" + svc.apiKey);
  }

  /** The test configuration gives the URL the test's mock is asked for. */
  lemma TestUrl()
    ensures TextUrl(Service("test-api-key", "https://test-gemini-api.com/", "test-model"))
         == "https://test-gemini-api.com/models/test-model?key=test-api-key"
  {
  }

  /** The endpoint of `transcribeAudio` as written: `$modelToUse` is not
      defined in that method, so the model segment is empty. */
  function TranscribeEndpoint(svc: Service): Endpoint {
    Endpoint(svc.baseUrl, svc.apiKey, "", map[])
  }

  /** `transcribeAudio($audioPath, $options)` as written. */
  function TranscribeAudio(svc: Service, audio: Audio, options: Fields, net: Net): (x: Exchange<Request>)
    ensures x == Direct(Endpoint(svc.baseUrl, svc.apiKey, "", map[]), audio, net)
  {
    Transcribe(TranscribeEndpoint(svc), audio, net)
  }

  /** As written, the model never reaches the transcription: whatever
      `model()` set, the third request goes to `models/:generateContent`. */
  lemma TranscribeIgnoresModel(svc: Service, m: string, audio: Audio, options: Fields, net: Net)
    ensures TranscribeAudio(Model(svc, m), audio, options, net) == TranscribeAudio(svc, audio, options, net)
    ensures var x := TranscribeAudio(svc, audio, options, net);
      |x.sent| == 3 ==> x.sent[2].url == svc.baseUrl + "/models/" + ":generateContent?key=" + svc.apiKey
  {
    assert TranscribeEndpoint(Model(svc, m)) == TranscribeEndpoint(svc);
    var e := TranscribeEndpoint(svc);
    assert svc.baseUrl + "/models/" + "" == svc.baseUrl + "/models/";
    var x := TranscribeAudio(svc, audio, options, net);
    if |x.sent| == 3 {
      TranscribeShape(e, audio, net);
    }
  }

  /** `transcribeAudio` as evidently intended: the third request names the
      service's model. */
  function TranscribeAudioWithModel(svc: Service, audio: Audio, options: Fields, net: Net): (x: Exchange<Request>)
    ensures x == Direct(Endpoint(svc.baseUrl, svc.apiKey, svc.defaultModel, map[]), audio, net)
  {
    Transcribe(Endpoint(svc.baseUrl, svc.apiKey, svc.defaultModel, map[]), audio, net)
  }

  /** The corrected flow sends the model set by `model()` in its third URL,
      issues the same first request as the original, and is the original
      when the model is empty. */
  lemma TranscribeWithModelUsesModel(svc: Service, m: string, audio: Audio, options: Fields, net: Net)
    ensures var x := TranscribeAudioWithModel(Model(svc, m), audio, options, net);
      |x.sent| == 3 ==> x.sent[2].url == svc.baseUrl + "/models/" + m + ":generateContent?key=" + svc.apiKey
    ensures TranscribeAudioWithModel(svc, audio, options, net).sent[0] == TranscribeAudio(svc, audio, options, net).sent[0]
    ensures svc.defaultModel == "" ==> TranscribeAudioWithModel(svc, audio, options, net) == TranscribeAudio(svc, audio, options, net)
  {
    TranscribeShape(Endpoint(svc.baseUrl, svc.apiKey, m, map[]), audio, net);
    TranscribeShape(Endpoint(svc.baseUrl, svc.apiKey, svc.defaultModel, map[]), audio, net);
    TranscribeShape(TranscribeEndpoint(svc), audio, net);
  }
}
