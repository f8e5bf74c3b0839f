/**
 * Values that travel between the pool, its endpoints, the per-request state and the
 * request set: the request options object, request payloads, responses, errors and the
 * arguments a completion callback receives.
 */
module Exchange {
  import opened Js

  /** Response bytes, and chunks of them. */
  type Body = seq<bv8>

  /** A request payload (`options.data`): absent, a string, a Buffer, or a readable Stream. */
  datatype Payload = NoPayload | Text(text: string) | Buffer(bytes: Body) | StreamSource

  /** `!options.data`: no payload or the empty string. */
  predicate PayloadFalsy(p: Payload)
  {
    p.NoPayload? || (p.Text? && p.text == "")
  }

  /**
   * What the core reads of a transport response: the status code and the reuse counter of
   * the socket it arrived on (`res.socket.request_count`, None when either is missing).
   */
  datatype Response = Response(statusCode: int, socketRequestCount: Option<int>)

  /** An error handed to a callback: its machine-readable reason, its message and its `delay`. */
  datatype Error = Error(reason: string, message: string, delay: Value)

  /** The arguments of one call of a completion callback: `(err, response, body)`. */
  datatype Completion = Completion(err: Option<Error>, response: Option<Response>, body: Option<Body>)

  /**
   * What a retry filter is shown of the request's options: the endpoint's host and port, set
   * by the request's constructor, and the request's path, method, timeout and headers.
   */
  datatype FilterOptions = FilterOptions(
    host: string,
    port: nat,
    path: Option<string>,
    httpMethod: Option<string>,
    timeout: int,
    headers: map<string, string>)

  /**
   * A caller-supplied retry filter: given the options, the response and the buffered body it
   * returns `false` to accept the response, anything else (a delay, possibly 0) to reject it.
   */
  type Filter = (FilterOptions, Option<Response>, Option<Body>) -> Value

  /** The request options object, with every field the core reads; None stands for `undefined`. */
  datatype ReqOptions = ReqOptions(
    path: Option<string>,
    httpMethod: Option<string>,
    data: Payload,
    end: Value,
    endpoint: Option<string>,
    retryDelay: Option<int>,
    retryDelayCamel: Option<int>,
    retryFilter: Option<Filter>,
    retryFilterCamel: Option<Filter>,
    maxAttempts: Option<int>,
    maxHangups: Option<int>,
    maxAborts: Option<int>,
    timeout: Option<int>,
    headers: Option<map<string, string>>,
    bufferBody: Value)

  /** `{}` */
  function EmptyOptions(): ReqOptions
  {
    ReqOptions(None, None, NoPayload, Undefined, None, None, None, None, None, None, None, None, None, None, Undefined)
  }

  /** `{path: s}` */
  function PathOptions(s: string): ReqOptions
  {
    EmptyOptions().(path := Some(s))
  }

  /** The summed length of buffered chunks. */
  function TotalLength(chunks: seq<Body>): nat
  {
    if chunks == [] then 0 else TotalLength(chunks[..|chunks| - 1]) + |chunks[|chunks| - 1]|
  }

  /** `Buffer.concat(chunks)` */
  function Concat(chunks: seq<Body>): (b: Body)
    ensures |b| == TotalLength(chunks)
  {
    if chunks == [] then [] else Concat(chunks[..|chunks| - 1]) + chunks[|chunks| - 1]
  }
}
