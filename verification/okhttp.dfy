/** The OkHttp values the utility builds and consumes, kept abstract: a URL is
    a base plus the query pairs added to it, bodies are the parts they are
    built from, and a response body is either still streaming from the
    connection or already buffered in memory. Wire encodings are not modelled. */
module OkHttp {
  import opened JavaLang
  import opened TimeoutConfig

  /** One `addQueryParameter(name, value)`; a null value gives a name-only pair. */
  datatype QueryParameter = QueryParameter(name: string, value: Nullable<string>)

  /** `HttpUrl`: the URL as given, followed by the query pairs added to it, in order. */
  datatype HttpUrl = HttpUrl(base: string, query: seq<QueryParameter>)

  /** One `addHeader(name, value)`; duplicates are kept side by side. */
  datatype Header = Header(name: string, value: string)

  /** One field of a `FormBody`. */
  datatype FormField = FormField(name: string, value: string)

  /** One part of a `multipart/form-data` body: a file part (content type left
      to the receiver) or a plain field part. */
  datatype Part =
    | FilePart(name: string, fileName: string, data: seq<byte>)
    | FieldPart(name: string, value: string)

  /** The request bodies the builder can assign. */
  datatype RequestBody =
    | FormBody(fields: seq<FormField>)
    | MultipartBody(parts: seq<Part>)
    | RawBody(contentType: string, content: string)

  /** The content type `body(String)` declares. */
  const JsonMediaType: string := "application/json; charset=utf-8"

  /** `Request`: verb, URL, headers, body, and the `HttpConfig` tag. */
  datatype Request = Request(
    verb: string,
    url: HttpUrl,
    headers: seq<Header>,
    body: Nullable<RequestBody>,
    configTag: Nullable<HttpConfig>)

  /** What `ResponseBody.bytes()` yields when it reads a streaming body. */
  datatype ReadOutcome = Bytes(bytes: seq<byte>) | ReadError(message: string)

  /** A `ResponseBody`: still tied to the connection, or held in memory. */
  datatype ResponseBody =
    | Streaming(contentType: Nullable<string>, read: ReadOutcome)
    | Buffered(contentType: Nullable<string>, bytes: seq<byte>)

  /** `Response`: status code, headers and a possibly-null body. */
  datatype Response = Response(code: int, headers: seq<Header>, body: Nullable<ResponseBody>)

  /** What the network does with one dispatched call: it fails with an
      `IOException` (refused, unresolved, timed out) or delivers a response. */
  datatype Exchange = CallFailed(message: string) | Received(response: Response)
}
