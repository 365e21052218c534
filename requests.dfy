/** Construction of the HTTP request that every API call sends: method, URL,
    the three fixed headers and the optional JSON body. */
module Requests {
  import opened Values
  import Base64

  datatype Method = GET | PATCH | POST

  /** The three headers set on every request, under the names
      `Authorization`, `Content-Type` and `Content-Length`. */
  datatype Headers = Headers(authorization: string, contentType: string, contentLength: nat)

  /** A request as handed to the HTTP transport; `body` is what the request is
      ended with (`None` ends it without a body). */
  datatype Request = Request(httpMethod: Method, url: string, headers: Headers, body: Option<string>)

  const JsonContentType: string := "application/json"

  /** The request body: an empty payload array is not encoded at all; a
      non-empty one is passed to json_encode, and the text is used only when
      PHP reads it as true (json_encode's `false`, "" and "0" all send
      nothing). */
  function Body(json: JsonCodec, payload: Payload): (b: Option<string>)
    ensures payload == [] ==> b == None
    ensures b.Some? ==> json.encode(Arr(payload)) == b && Truthy(b.value)
    ensures payload != [] && json.encode(Arr(payload)).Some? && Truthy(json.encode(Arr(payload)).value)
            ==> b == json.encode(Arr(payload))
  {
    if payload == [] then None
    else
      match json.encode(Arr(payload))
      case None => None
      case Some(text) => if Truthy(text) then Some(text) else None
  }

  /** The request for `method endpoint` with the given payload, as it goes on
      the wire: the URL is the API URL followed directly by the endpoint, the
      Authorization value decodes back to the password, and Content-Length is
      the length of the body that is sent, 0 when none is. */
  function BuildRequest(apiUrl: string, password: seq<byte>, json: JsonCodec,
                        httpMethod: Method, endpoint: string, payload: Payload): (r: Request)
    ensures r.httpMethod == httpMethod
    ensures |r.url| == |apiUrl| + |endpoint|
    ensures r.url[..|apiUrl|] == apiUrl && r.url[|apiUrl|..] == endpoint
    ensures Base64.Decode(r.headers.authorization) == Some(password)
    ensures r.headers.contentType == "application/json"
    ensures r.headers.contentLength == |r.body.GetOr("")|
    ensures r.body == Body(json, payload)
    ensures payload == [] ==> r.body == None && r.headers.contentLength == 0
  {
    var body := Body(json, payload);
    var url := apiUrl + endpoint;
    assert url[..|apiUrl|] == apiUrl && url[|apiUrl|..] == endpoint;
    Base64.DecodeEncode(password);
    Request(httpMethod, url,
            Headers(Base64.Encode(password), JsonContentType, if body.Some? then |body.value| else 0),
            body)
  }

  /** A non-empty payload that json_encode turns into text is sent as exactly
      that text, and Content-Length is its length. */
  lemma EncodedPayloadIsSent(apiUrl: string, password: seq<byte>, json: JsonCodec,
                             httpMethod: Method, endpoint: string, payload: Payload, text: string)
    requires payload != [] && json.encode(Arr(payload)) == Some(text) && Truthy(text)
    ensures var r := BuildRequest(apiUrl, password, json, httpMethod, endpoint, payload);
            r.body == Some(text) && r.headers.contentLength == |text|
  {
  }
}
