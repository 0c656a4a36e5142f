/**
 * Types the request-processing layer receives from, or hands to, the HTTP layer
 * below it (actix-http and request.rs). Only what the service envelope and the
 * form extractor read of them is modelled.
 */
module Http {
  import opened Wrappers

  type byte = b: int | 0 <= b < 256

  /** The identity of a Rust type (`TypeId`), written as the type's name. */
  type TypeTag = string

  /** An error the transport reports while a chunk of the body is read. */
  datatype PayloadError = PayloadError(reason: string)

  /** One item a body stream yields: a chunk of bytes or a read error. */
  datatype StreamItem = Chunk(data: seq<byte>) | Failed(err: PayloadError)

  /**
   * The request body (`actix_http::Payload`). `Empty` is `Payload::None`; a
   * stream is the finite sequence of items it yields before it ends.
   */
  datatype Payload = Empty | Stream(items: seq<StreamItem>)
  {
    /** The items the payload yields when polled until it ends. */
    function Items(): seq<StreamItem>
    {
      if Empty? then [] else items
    }
  }

  /** A header value as the bytes it was received as. */
  datatype HeaderValue = HeaderValue(bytes: seq<byte>)

  /** A character encoding resolved from a charset label. */
  datatype Encoding = Utf8 | OtherEncoding(name: string)

  datatype Uri = Uri(path: string, query: Option<string>)

  /**
   * The request head. `contentType` and `encoding` are what
   * `HttpMessage::content_type` and `HttpMessage::encoding` report for it
   * (`None` when the charset label cannot be resolved); that code is not part
   * of this model, so their results are inputs.
   */
  datatype RequestHead = RequestHead(
    httpMethod: string,
    uri: Uri,
    version: string,
    headers: map<string, HeaderValue>,
    peerAddr: Option<string>,
    contentType: string,
    encoding: Option<Encoding>)

  /**
   * The shared request handle (`HttpRequest`): its head, the matched path
   * parameters, and the app data containers from outermost to innermost.
   * `uniquelyOwned` stands for `Rc::get_mut` succeeding on the handle.
   */
  datatype HttpRequest<V> = HttpRequest(
    head: RequestHead,
    matchInfo: seq<(string, string)>,
    appData: seq<map<TypeTag, V>>,
    uniquelyOwned: bool)

  /** An actix `Error`: the status its `ResponseError` reports and its display text. */
  datatype Error = Error(status: nat, display: string)

  /** The boxed body type `actix_http::body::Body`. */
  datatype Body = NoBody | Text(text: string)

  /** `ResponseBody<B>`: the typed body, or a boxed `Body` (`ResponseBody::Other`). */
  datatype ResponseBody<B> = Primary(body: B) | Other(other: Body)

  datatype ResponseHead = ResponseHead(status: nat, headers: map<string, HeaderValue>)

  datatype Response<B> = Response(head: ResponseHead, error: Option<Error>, body: ResponseBody<B>)

  /** `impl From<Error> for Response`: the error's status and text, with the error attached. */
  function ResponseFromError(e: Error): Response<Body>
  {
    Response(ResponseHead(e.status, map[]), Some(e), Primary(Text(e.display)))
  }

  /** `Response::into_body`: head and error are kept, the body becomes `ResponseBody::Other`. */
  function IntoBody<B>(r: Response<Body>): Response<B>
  {
    Response(r.head, r.error, Other(match r.body case Primary(b) => b case Other(b) => b))
  }

  /** `Response::map_body`: `f` may rewrite the head and converts the body; the error is kept. */
  function MapResponseBody<B, B2>(r: Response<B>, f: (ResponseHead, ResponseBody<B>) -> (ResponseHead, ResponseBody<B2>)): Response<B2>
  {
    var (head, body) := f(r.head, r.body);
    Response(head, r.error, body)
  }
}
