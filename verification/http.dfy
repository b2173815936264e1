/**
 * The slice of HTTP the tool relies on: the request methods it sends, response
 * header fields, and the abstract outcome of one request/response exchange.
 * The exchange itself is performed by the Go standard library and is not modelled;
 * it enters the model as a function from request to outcome.
 */
module Http {
  import opened Wrappers

  /** The seven request methods the tool sends (section 9.3 of RFC 9110). */
  datatype Method = OPTIONS | HEAD | GET | POST | PUT | TRACE | CONNECT

  /** The method token, as sent on the request line and written in log messages. */
  function Name(m: Method): string
  {
    match m
    case OPTIONS => "OPTIONS"
    case HEAD => "HEAD"
    case GET => "GET"
    case POST => "POST"
    case PUT => "PUT"
    case TRACE => "TRACE"
    case CONNECT => "CONNECT"
  }

  /** Distinct methods have distinct tokens, so comparing tokens tells the methods apart. */
  lemma NamesDistinct(m: Method, n: Method)
    requires m != n
    ensures Name(m) != Name(n)
  {
  }

  newtype byte = b: int | 0 <= b < 256

  /**
   * Response header fields, keyed by canonical field name (field names are
   * case-insensitive, section 5.1 of RFC 9110); each name maps to the values of
   * its field lines in the order received.
   */
  type Header = map<string, seq<string>>

  /**
   * The first value of field `name`, or "" when the field is absent or has no
   * value.  A present field whose first value is empty also reads as "".
   */
  function Get(h: Header, name: string): (v: string)
    ensures v == "" <==> name !in h || h[name] == [] || h[name][0] == ""
    ensures v != "" ==> name in h && h[name] != [] && v == h[name][0]
  {
    if name in h && h[name] != [] then h[name][0] else ""
  }

  /** A completed response: status code, header fields and the body as read. */
  datatype Response = Response(status: int, header: Header, body: seq<byte>)

  /** One request as handed to the HTTP layer. */
  datatype Request = Request(verb: Method, target: string, timeout: int, body: Option<string>)

  /** Where an exchange failed: building the request, executing it, or reading the body. */
  datatype Stage = Construct | Execute | ReadBody

  /** The outcome of one exchange, as far as the tool can observe it. */
  datatype Exchange = Failed(stage: Stage, reason: string) | Received(resp: Response)
}
