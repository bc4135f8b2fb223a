/** The REST transport's request factory (`HttpRequest`): one factory per HTTP
    method, each attaching an optional JSON body. JSON serialisation is kept
    symbolic: a serialised body records the object it was produced from. */
module HttpRequest {
  import opened Common

  /** The request methods of section 9.3 of RFC 9110, and PATCH of RFC 5789. */
  datatype HttpMethod = Get | Post | Put | Patch | Delete {
    /** The method token sent on the request line. */
    function Method(): (m: string)
      ensures |m| >= 3
    {
      match this
      case Get => "GET"
      case Post => "POST"
      case Put => "PUT"
      case Patch => "PATCH"
      case Delete => "DELETE"
    }
  }

  /** The `object payload` argument: null, a string, or any other object. C# tells a
      string apart at run time (`payload is string`); here the caller's choice of
      constructor decides, so an `Object` is always serialised. */
  datatype Payload<T> = NoPayload | Text(text: string) | Object(value: T)

  /** The text of a body: a string used as given, or `JsonSerializer.Serialize(value)`. */
  datatype Body<T> = Verbatim(text: string) | Serialized(value: T)

  datatype Encoding = Utf8

  /** `StringContent(text, encoding, mediaType)`. */
  datatype StringContent<T> = StringContent(body: Body<T>, encoding: Encoding, mediaType: string)

  /** `HttpRequestMessage(method, url) { Content = ... }`; null content is `None`. */
  datatype HttpRequestMessage<T> = HttpRequestMessage(verb: HttpMethod, url: string, content: Option<StringContent<T>>)

  const JsonMediaType := "application/json"

  /** The body of a request: none for a null payload, the string itself for a
      string payload, the JSON serialisation for any other object; every body
      is UTF-8 JSON. */
  function GetJsonContent<T>(payload: Payload<T>): (c: Option<StringContent<T>>)
    ensures c.None? <==> payload.NoPayload?
    ensures c.Some? ==> c.value.mediaType == JsonMediaType && c.value.encoding == Utf8
    ensures payload.Text? ==> c == Some(StringContent(Verbatim(payload.text), Utf8, JsonMediaType))
    ensures payload.Object? ==> c == Some(StringContent(Serialized(payload.value), Utf8, JsonMediaType))
  {
    match payload
    case NoPayload => None
    case Text(s) => Some(StringContent(Verbatim(s), Utf8, JsonMediaType))
    case Object(v) => Some(StringContent(Serialized(v), Utf8, JsonMediaType))
  }

  /** The payload a body was made from: undoes `GetJsonContent`. */
  function PayloadOf<T>(c: Option<StringContent<T>>): Payload<T>
  {
    match c
    case None => NoPayload
    case Some(StringContent(Verbatim(s), _, _)) => Text(s)
    case Some(StringContent(Serialized(v), _, _)) => Object(v)
  }

  /** Nothing of the payload is lost: a string is not re-serialised and an
      object is serialised, never confused with a string. */
  lemma ContentKeepsPayload<T>(payload: Payload<T>)
    ensures PayloadOf(GetJsonContent(payload)) == payload
  {
  }

  function CreateGetRequest<T>(url: string, payload: Payload<T>): (r: HttpRequestMessage<T>)
    ensures r.verb.Method() == "GET" && r.url == url
    ensures PayloadOf(r.content) == payload
    ensures r.content == GetJsonContent(payload)
  {
    HttpRequestMessage(Get, url, GetJsonContent(payload))
  }

  function CreatePostRequest<T>(url: string, payload: Payload<T>): (r: HttpRequestMessage<T>)
    ensures r.verb.Method() == "POST" && r.url == url
    ensures PayloadOf(r.content) == payload
    ensures r.content == GetJsonContent(payload)
  {
    HttpRequestMessage(Post, url, GetJsonContent(payload))
  }

  function CreatePutRequest<T>(url: string, payload: Payload<T>): (r: HttpRequestMessage<T>)
    ensures r.verb.Method() == "PUT" && r.url == url
    ensures PayloadOf(r.content) == payload
    ensures r.content == GetJsonContent(payload)
  {
    HttpRequestMessage(Put, url, GetJsonContent(payload))
  }

  function CreatePatchRequest<T>(url: string, payload: Payload<T>): (r: HttpRequestMessage<T>)
    ensures r.verb.Method() == "PATCH" && r.url == url
    ensures PayloadOf(r.content) == payload
    ensures r.content == GetJsonContent(payload)
  {
    HttpRequestMessage(Patch, url, GetJsonContent(payload))
  }

  function CreateDeleteRequest<T>(url: string, payload: Payload<T>): (r: HttpRequestMessage<T>)
    ensures r.verb.Method() == "DELETE" && r.url == url
    ensures PayloadOf(r.content) == payload
    ensures r.content == GetJsonContent(payload)
  {
    HttpRequestMessage(Delete, url, GetJsonContent(payload))
  }

  /** The five factories send five different method tokens. */
  lemma MethodTokensDistinct(m1: HttpMethod, m2: HttpMethod)
    ensures m1.Method() == m2.Method() <==> m1 == m2
  {
  }
}
