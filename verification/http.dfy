/** The HTTP boundary of the services, abstracted away from Guzzle: the
    requests the services build, the answers a transport gives back, and the
    record of which requests one operation issued. */
module Http {
  import opened Php
  import opened Optional

  /** A header array as the services write it; values are PHP values
      (a file size is an int, an undefined property is null). */
  type Headers = Fields

  datatype Body =
    | NoBody
    | JsonBody(json: Json)     // Guzzle's `json` request option
    | FileStream(path: string) // `body => fopen($path, 'rb')`

  /** One request handed to the HTTP client. `headers` are the effective ones:
      the client's default headers overlaid with the request's own. */
  datatype Request = Request(verb: string, url: string, headers: Headers, body: Body)

  /** What the transport gives back for one request: the response headers,
      keyed by lower-cased name because PSR-7 header lookups ignore case,
      and the body after `json_decode($body, true)` (null when it is not
      JSON), or the message of the exception the client raised. */
  datatype Answer =
    | Answered(headers: map<string, seq<string>>, body: Json)
    | Failed(message: string)

  /** An abstract transport: the answer it gives to each request. */
  type Net = Request -> Answer

  /** The requests one operation issued, in order, and how it ended. */
  datatype Exchange<Q> = Exchange(sent: seq<Q>, outcome: Outcome<Json>)

  /** The message of the InvalidArgumentException the HTTP client raises,
      before sending anything, when the URI it is given is not a string. */
  const NotAUri := "URI must be a string or UriInterface"

  /** A value used as a request URI: only strings are accepted. */
  function UriOf(v: Json): Option<string> {
    if v.JStr? then Some(v.s) else None
  }

  /** `$response->getHeader($name)[0]`, with `name` lower-cased; a missing
      header reads as null. */
  function FirstHeader(headers: map<string, seq<string>>, name: string): Option<string> {
    if name in headers && |headers[name]| > 0 then Some(headers[name][0]) else None
  }

  /** `['data' => $decoded]` */
  function DataResult(decoded: Json): Json {
    JObj(map["data" := decoded])
  }
}
