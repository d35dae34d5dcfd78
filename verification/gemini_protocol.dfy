/** The request shapes both Gemini classes send, and the three-step resumable
    upload of `transcribeAudio`: start an upload, send the bytes to the URL
    the first answer names, then ask the model about the uploaded file. The
    flow is a step function over phases driven by an abstract transport;
    the first failure ends it with `['error' => message]`. */
module GeminiProtocol {
  import opened Php
  import opened Optional
  import opened Http

  /** What a Gemini class puts into its URLs and headers: the base URL, the
      API key, the model segment and the client's default headers. */
  datatype Endpoint = Endpoint(baseUrl: string, apiKey: string, model: string, clientHeaders: Headers)

  /** The audio file as `transcribeAudio` sees it: its path, and what
      `mime_content_type` and `filesize` returned (false for a missing file). */
  datatype Audio = Audio(path: string, mimeType: Json, size: Json)

  const DisplayName := "AUDIO"
  const AudioPrompt := "Describe this audio clip"
  /** The response header naming the upload URL, lower-cased as PSR-7 looks it up. */
  const UploadUrlHeader := "x-goog-upload-url"

  /** `['contents' => [['parts' => $parts]]]` */
  function Contents(parts: seq<Json>): (c: Json)
    ensures Index(c, "contents").JArr? && |Index(c, "contents").items| == 1
    ensures Index(At(Index(c, "contents"), 0), "parts") == JArr(parts)
  {
    JObj(map["contents" := JArr([JObj(map["parts" := JArr(parts)])])])
  }

  /** The body of `generateText`: one part holding the prompt. */
  function TextContents(prompt: string): Json {
    Contents([JObj(map["text" := JStr(prompt)])])
  }

  /** The names the two upload steps set on top of the client's headers. */
  const UploadHeaders: set<string> := {
    "X-Goog-Upload-Protocol", "X-Goog-Upload-Command", "X-Goog-Upload-Header-Content-Length",
    "X-Goog-Upload-Header-Content-Type", "Content-Length", "X-Goog-Upload-Offset"}

  /** Step 1: start a resumable upload. */
  function StartRequest(e: Endpoint, a: Audio): (r: Request)
    ensures r.verb == "post" && r.url == e.baseUrl + "/upload/v1beta/files?key=" + e.apiKey
    ensures r.body == JsonBody(JObj(map["file" := JObj(map["display_name" := JStr(DisplayName)])]))
    ensures r.headers.Keys == e.clientHeaders.Keys + {"X-Goog-Upload-Protocol", "X-Goog-Upload-Command",
      "X-Goog-Upload-Header-Content-Length", "X-Goog-Upload-Header-Content-Type"}
    ensures r.headers["X-Goog-Upload-Protocol"] == JStr("resumable")
    ensures r.headers["X-Goog-Upload-Command"] == JStr("start")
    ensures r.headers["X-Goog-Upload-Header-Content-Length"] == a.size
    ensures r.headers["X-Goog-Upload-Header-Content-Type"] == a.mimeType
    ensures forall k :: k in e.clientHeaders && k !in UploadHeaders ==> r.headers[k] == e.clientHeaders[k]
  {
    Request("post", e.baseUrl + "/upload/v1beta/files?key=" + e.apiKey,
      ArrayMerge(e.clientHeaders, map[
        "X-Goog-Upload-Protocol" := JStr("resumable"),
        "X-Goog-Upload-Command" := JStr("start"),
        "X-Goog-Upload-Header-Content-Length" := a.size,
        "X-Goog-Upload-Header-Content-Type" := a.mimeType]),
      JsonBody(JObj(map["file" := JObj(map["display_name" := JStr(DisplayName)])])))
  }

  /** Step 2: send the file's bytes to the upload URL. */
  function UploadRequest(e: Endpoint, a: Audio, uploadUrl: string): (r: Request)
    ensures r.verb == "post" && r.url == uploadUrl && r.body == FileStream(a.path)
    ensures r.headers.Keys == e.clientHeaders.Keys + {"Content-Length", "X-Goog-Upload-Offset", "X-Goog-Upload-Command"}
    ensures r.headers["Content-Length"] == a.size
    ensures r.headers["X-Goog-Upload-Offset"] == JInt(0)
    ensures r.headers["X-Goog-Upload-Command"] == JStr("upload, finalize")
    ensures forall k :: k in e.clientHeaders && k !in UploadHeaders ==> r.headers[k] == e.clientHeaders[k]
  {
    Request("post", uploadUrl,
      ArrayMerge(e.clientHeaders, map[
        "Content-Length" := a.size,
        "X-Goog-Upload-Offset" := JInt(0),
        "X-Goog-Upload-Command" := JStr("upload, finalize")]),
      FileStream(a.path))
  }

  /** The `generateContent` URL of the model segment `model`. */
  function GenerateUrl(e: Endpoint): string {
    e.baseUrl + "/models/" + e.model + ":generateContent?key=" + e.apiKey
  }

  /** Step 3: ask about the uploaded file, named by the upload URL. */
  function GenerateRequest(e: Endpoint, a: Audio, fileUri: string): (r: Request)
    ensures r.verb == "post" && r.url == GenerateUrl(e) && r.headers == e.clientHeaders
    ensures r.body.JsonBody?
    ensures var parts := Index(At(Index(r.body.json, "contents"), 0), "parts");
      && parts.JArr? && |parts.items| == 2
      && parts.items[0] == JObj(map["text" := JStr(AudioPrompt)])
      && parts.items[1] == JObj(map["file_data" := JObj(map["mime_type" := a.mimeType, "file_uri" := JStr(fileUri)])])
  {
    Request("post", GenerateUrl(e), e.clientHeaders,
      JsonBody(Contents([
        JObj(map["text" := JStr(AudioPrompt)]),
        JObj(map["file_data" := JObj(map["mime_type" := a.mimeType, "file_uri" := JStr(fileUri)])])])))
  }

  /** Where the upload flow stands: the next step to take, or its result. */
  datatype Phase =
    | Starting
    | Uploading(uploadUrl: string)
    | Generating(fileUri: string)
    | Finished(result: Json)

  /** A phase and the requests issued so far. */
  datatype State = State(phase: Phase, sent: seq<Request>)

  /** Steps still to take. */
  function Rank(p: Phase): nat {
    match p
    case Starting => 3
    case Uploading(_) => 2
    case Generating(_) => 1
    case Finished(_) => 0
  }

  /** One step: issue the phase's request and move on, or finish with the
      error of the exception that ended the `try` block. A missing upload-URL
      header reads as null, which the client refuses as a URI before
      sending anything. */
  function Step(e: Endpoint, a: Audio, net: Net, s: State): (t: State)
    requires !s.phase.Finished?
    ensures Rank(t.phase) < Rank(s.phase)
    ensures |t.sent| == |s.sent| + 1 && t.sent[..|s.sent|] == s.sent
  {
    match s.phase
    case Starting =>
      var q := StartRequest(e, a);
      var next :=
        match net(q)
        case Failed(m) => Finished(ErrorResult(m))
        case Answered(h, _) =>
          match FirstHeader(h, UploadUrlHeader)
          case None => Finished(ErrorResult(NotAUri))
          case Some(u) => Uploading(u);
      State(next, s.sent + [q])
    case Uploading(u) =>
      var q := UploadRequest(e, a, u);
      var next := if net(q).Failed? then Finished(ErrorResult(net(q).message)) else Generating(u);
      State(next, s.sent + [q])
    case Generating(u) =>
      var q := GenerateRequest(e, a, u);
      var next := if net(q).Failed? then Finished(ErrorResult(net(q).message)) else Finished(DataResult(net(q).body));
      State(next, s.sent + [q])
  }

  /** Steps until the flow finishes. */
  function Run(e: Endpoint, a: Audio, net: Net, s: State): (t: State)
    ensures t.phase.Finished?
    ensures |s.sent| <= |t.sent| <= |s.sent| + Rank(s.phase) && t.sent[..|s.sent|] == s.sent
    decreases Rank(s.phase)
  {
    if s.phase.Finished? then s else Run(e, a, net, Step(e, a, net, s))
  }

  /** The same flow written as the straight-line `try` block it models. */
  function Direct(e: Endpoint, a: Audio, net: Net): Exchange<Request> {
    var q1 := StartRequest(e, a);
    match net(q1)
    case Failed(m) => Exchange([q1], Returned(ErrorResult(m)))
    case Answered(h, _) =>
      match FirstHeader(h, UploadUrlHeader)
      case None => Exchange([q1], Returned(ErrorResult(NotAUri)))
      case Some(u) =>
        var q2 := UploadRequest(e, a, u);
        match net(q2)
        case Failed(m) => Exchange([q1, q2], Returned(ErrorResult(m)))
        case Answered(_, _) =>
          var q3 := GenerateRequest(e, a, u);
          match net(q3)
          case Failed(m) => Exchange([q1, q2, q3], Returned(ErrorResult(m)))
          case Answered(_, body) => Exchange([q1, q2, q3], Returned(DataResult(body)))
  }

  /** `transcribeAudio` once the endpoint is fixed: the phase machine run
      from the start, which issues the same requests and ends the same way as
      the straight-line flow. */
  function Transcribe(e: Endpoint, a: Audio, net: Net): (x: Exchange<Request>)
    ensures x == Direct(e, a, net)
  {
    var s0 := State(Starting, []);
    RunFromStart(e, a, net);
    var t := Run(e, a, net, s0);
    Exchange(t.sent, Returned(t.phase.result))
  }

  lemma RunFromGenerating(e: Endpoint, a: Audio, net: Net, sent: seq<Request>, u: string)
    ensures var q := GenerateRequest(e, a, u);
      Run(e, a, net, State(Generating(u), sent))
      == State(Finished(if net(q).Failed? then ErrorResult(net(q).message) else DataResult(net(q).body)), sent + [q])
  {
    var s := State(Generating(u), sent);
    assert Run(e, a, net, s) == Run(e, a, net, Step(e, a, net, s));
  }

  lemma RunFromUploading(e: Endpoint, a: Audio, net: Net, sent: seq<Request>, u: string)
    ensures var q := UploadRequest(e, a, u);
      Run(e, a, net, State(Uploading(u), sent))
      == if net(q).Failed? then State(Finished(ErrorResult(net(q).message)), sent + [q])
         else Run(e, a, net, State(Generating(u), sent + [q]))
  {
    var s := State(Uploading(u), sent);
    assert Run(e, a, net, s) == Run(e, a, net, Step(e, a, net, s));
  }

  lemma RunFromStart(e: Endpoint, a: Audio, net: Net)
    ensures var t := Run(e, a, net, State(Starting, []));
      Exchange(t.sent, Returned(t.phase.result)) == Direct(e, a, net)
  {
    var s := State(Starting, []);
    var q1 := StartRequest(e, a);
    assert Run(e, a, net, s) == Run(e, a, net, Step(e, a, net, s));
    if net(q1).Answered? && FirstHeader(net(q1).headers, UploadUrlHeader).Some? {
      var u := FirstHeader(net(q1).headers, UploadUrlHeader).value;
      assert Step(e, a, net, s) == State(Uploading(u), [q1]);
      RunFromUploaded(e, a, net, q1, u);
    }
  }

  lemma RunFromUploaded(e: Endpoint, a: Audio, net: Net, q1: Request, u: string)
    requires q1 == StartRequest(e, a)
    requires net(q1).Answered? && FirstHeader(net(q1).headers, UploadUrlHeader) == Some(u)
    ensures var t := Run(e, a, net, State(Uploading(u), [q1]));
      Exchange(t.sent, Returned(t.phase.result)) == Direct(e, a, net)
  {
    RunFromUploading(e, a, net, [q1], u);
    var q2 := UploadRequest(e, a, u);
    if net(q2).Answered? {
      var q3 := GenerateRequest(e, a, u);
      RunFromGenerating(e, a, net, [q1, q2], u);
      assert [q1] + [q2] == [q1, q2];
      assert [q1, q2] + [q3] == [q1, q2, q3];
    }
  }

  /** The flow's contract: the order of the three requests, the abort at the
      first failure, the missing upload URL, and the result of each ending. */
  lemma TranscribeShape(e: Endpoint, a: Audio, net: Net)
    ensures var x := Transcribe(e, a, net);
      && 1 <= |x.sent| <= 3 && x.sent[0] == StartRequest(e, a)
      && x.outcome.Returned?
      && (forall i :: 0 <= i < |x.sent| - 1 ==> net(x.sent[i]).Answered?)
      && (net(x.sent[0]).Failed? ==> x == Exchange([x.sent[0]], Returned(ErrorResult(net(x.sent[0]).message))))
      && (net(x.sent[0]).Answered? && FirstHeader(net(x.sent[0]).headers, UploadUrlHeader).None? ==>
            x == Exchange([x.sent[0]], Returned(ErrorResult(NotAUri))))
      && (|x.sent| >= 2 ==>
            && net(x.sent[0]).Answered?
            && FirstHeader(net(x.sent[0]).headers, UploadUrlHeader).Some?
            && x.sent[1] == UploadRequest(e, a, FirstHeader(net(x.sent[0]).headers, UploadUrlHeader).value))
      && (|x.sent| == 3 ==>
            x.sent[2] == GenerateRequest(e, a, FirstHeader(net(x.sent[0]).headers, UploadUrlHeader).value))
      && (|x.sent| == 2 ==> x.outcome == Returned(ErrorResult(net(x.sent[1]).message)))
      && (|x.sent| == 3 && net(x.sent[2]).Failed? ==> x.outcome == Returned(ErrorResult(net(x.sent[2]).message)))
      && (|x.sent| == 3 && net(x.sent[2]).Answered? ==> x.outcome == Returned(DataResult(net(x.sent[2]).body)))
  {
    var x := Transcribe(e, a, net);
    assert x == Direct(e, a, net);
    var q1 := StartRequest(e, a);
    match net(q1)
    case Failed(m) =>
      assert x == Exchange([q1], Returned(ErrorResult(m)));
    case Answered(h, _) =>
      match FirstHeader(h, UploadUrlHeader)
      case None =>
        assert x == Exchange([q1], Returned(ErrorResult(NotAUri)));
      case Some(u) =>
        var q2 := UploadRequest(e, a, u);
        if net(q2).Failed? {
          assert x == Exchange([q1, q2], Returned(ErrorResult(net(q2).message)));
        } else {
          var q3 := GenerateRequest(e, a, u);
          assert x.sent == [q1, q2, q3];
        }
  }

  /** Every request of the flow carries each of the client's default
      headers that the upload steps do not set themselves. */
  lemma ClientHeaderKept(e: Endpoint, a: Audio, net: Net, k: string)
    requires k in e.clientHeaders && k !in UploadHeaders
    ensures var x := Transcribe(e, a, net);
      forall i :: 0 <= i < |x.sent| ==> k in x.sent[i].headers && x.sent[i].headers[k] == e.clientHeaders[k]
  {
    var x := Transcribe(e, a, net);
    TranscribeShape(e, a, net);
    forall i | 0 <= i < |x.sent|
      ensures k in x.sent[i].headers && x.sent[i].headers[k] == e.clientHeaders[k]
    {
      if i == 0 {
        assert x.sent[i] == StartRequest(e, a);
      } else if i == 1 {
        assert x.sent[i] == UploadRequest(e, a, FirstHeader(net(x.sent[0]).headers, UploadUrlHeader).value);
      } else {
        assert x.sent[i] == GenerateRequest(e, a, FirstHeader(net(x.sent[0]).headers, UploadUrlHeader).value);
      }
    }
  }

  /** The upload URL of step 1 is where step 2 sends the bytes and what step 3
      names as the file: a different header value changes both requests. */
  lemma UploadUrlFlows(e: Endpoint, a: Audio, net: Net, u: string)
    requires net(StartRequest(e, a)).Answered?
    requires FirstHeader(net(StartRequest(e, a)).headers, UploadUrlHeader) == Some(u)
    requires net(UploadRequest(e, a, u)).Answered?
    ensures var x := Transcribe(e, a, net);
      && |x.sent| == 3
      && x.sent[1].url == u
      && Index(At(Index(At(Index(x.sent[2].body.json, "contents"), 0), "parts"), 1), "file_data")
         == JObj(map["mime_type" := a.mimeType, "file_uri" := JStr(u)])
  {
    var x := Transcribe(e, a, net);
    assert x == Direct(e, a, net);
    var q3 := GenerateRequest(e, a, u);
    var parts := Index(At(Index(q3.body.json, "contents"), 0), "parts");
    assert x.sent == [StartRequest(e, a), UploadRequest(e, a, u), q3];
    assert At(parts, 1) == JObj(map["file_data" := JObj(map["mime_type" := a.mimeType, "file_uri" := JStr(u)])]);
  }
}
