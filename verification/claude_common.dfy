/** Shapes the two Claude service classes have in common: the rule that turns
    a decoded response into a result, the document-analysis payload, and the
    document-analysis call itself (which differs between the classes only in
    the headers and configuration keys it is given). */
module ClaudeCommon {
  import opened Php
  import opened Optional
  import opened Http
  import Base64

  const UnexpectedFormat := "Unexpected response format from Claude AI service."
  const DefaultQuery := "Analyze this document"

  /** The response rule of the Claude calls that check `is_array`: an array
      body is the result, anything else becomes an "unexpected format" error,
      and an exception raised by the client becomes `['error' => message]`. */
  function Wrap(a: Answer): (r: Json)
    ensures IsArray(r)
    ensures a.Answered? && IsArray(a.body) ==> r == a.body
    ensures !(a.Answered? && IsArray(a.body)) ==> r.JObj? && r.fields.Keys == {"error"}
    ensures a.Answered? && !IsArray(a.body) ==> Index(r, "error") == JStr(UnexpectedFormat)
    ensures a.Failed? ==> Index(r, "error") == JStr(a.message)
  {
    match a
    case Answered(_, body) => if IsArray(body) then body else ErrorResult(UnexpectedFormat)
    case Failed(message) => ErrorResult(message)
  }

  /** Returning a decoded body from a method declared `: array` without an
      `is_array` check: a non-array body is refused by the return type. */
  function ReturnArray(a: Answer, onFailure: string -> Json): (r: Outcome<Json>)
    ensures a.Answered? && IsArray(a.body) ==> r == Returned(a.body)
    ensures a.Answered? && !IsArray(a.body) ==> r == Threw(TypeError("return value"))
    ensures a.Failed? ==> r == Returned(onFailure(a.message))
  {
    match a
    case Answered(_, body) => if IsArray(body) then Returned(body) else Threw(TypeError("return value"))
    case Failed(message) => Returned(onFailure(message))
  }

  /** The `document` content block of a document-analysis request. */
  function DocumentBlock(data: string): Json {
    JObj(map[
      "type" := JStr("document"),
      "source" := JObj(map[
        "type" := JStr("base64"),
        "media_type" := JStr("application/pdf"),
        "data" := JStr(data)]),
      "cache_control" := JObj(map["type" := JStr("ephemeral")])])
  }

  /** The document-analysis payload. */
  function DocumentPayload(model: Json, maxTokens: Json, data: string, query: string): (p: Json)
    ensures p.JObj? && p.fields.Keys == {"model", "max_tokens", "messages"}
    ensures Index(p, "model") == model && Index(p, "max_tokens") == maxTokens
    ensures Index(p, "messages").JArr? && |Index(p, "messages").items| == 1
    ensures var message := At(Index(p, "messages"), 0);
      && Index(message, "role") == JStr("user")
      && Index(message, "content").JArr? && |Index(message, "content").items| == 2
      && At(Index(message, "content"), 0) == DocumentBlock(data)
      && At(Index(message, "content"), 1) == JObj(map["type" := JStr("text"), "text" := JStr(query)])
  {
    JObj(map[
      "model" := model,
      "max_tokens" := maxTokens,
      "messages" := JArr([
        JObj(map[
          "role" := JStr("user"),
          "content" := JArr([
            DocumentBlock(data),
            JObj(map["type" := JStr("text"), "text" := JStr(query)])])])])])
  }

  const FetchFailed := "Unable to fetch the file from "

  /** `analyzeDocumentWithQuery` once its model, token limit and headers are
      known: fetch, Base64-encode, post one request, return the decoded body.
      A failed fetch is caught and returned as an error, and nothing is sent. */
  function AnalyzeDocument(baseUrl: string, headers: Headers, model: Json, fileUrl: string,
                           fetched: Option<seq<Base64.Byte>>, net: Net): (x: Exchange<Request>)
    ensures fetched.None? ==> x == Exchange([], Returned(ErrorResult(FetchFailed + fileUrl)))
    ensures fetched.Some? ==>
      && |x.sent| == 1
      && x.sent[0] == Request("post", baseUrl, headers,
           JsonBody(DocumentPayload(model, JInt(1024), Base64.Encode(fetched.value), DefaultQuery)))
      && x.outcome == ReturnArray(net(x.sent[0]), ErrorResult)
  {
    match fetched
    case None => Exchange([], Returned(ErrorResult(FetchFailed + fileUrl)))
    case Some(content) =>
      var payload := DocumentPayload(model, JInt(1024), Base64.Encode(content), DefaultQuery);
      var request := Request("post", baseUrl, headers, JsonBody(payload));
      Exchange([request], ReturnArray(net(request), ErrorResult))
  }
}
