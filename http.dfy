/**
  The HTTP requests the remote drivers build, the responses they read, and the
  translation of a failed response into an error. The transport itself (Guzzle,
  created with `http_errors => false` so that every status comes back as a
  response) is the function `send` of an `Env`.
 */
module Http {

  import opened Wrappers
  import opened Primitives
  import Strings

  datatype Part =
    | Field(name: string, contents: string)
    | FilePart(name: string, contents: string, filename: string, contentType: string)

  datatype Body =
    | NoBody
    | Raw(content: string)
    | Multipart(parts: seq<Part>)

  datatype Request = Request(verb: string, url: string, headers: seq<(string, string)>, body: Body)

  datatype Response = Response(status: int, body: string)

  /**
    What an operation gets from outside: the foreign functions, one reading of
    the clock (`time()`), one formatted date (`gmdate('D, d M Y H:i:s T')`) and
    the transport.
   */
  datatype Env = Env(prims: Primitives, now: int, date: string, send: Request -> Response)

  /** Value of the first header called `name`. */
  function HeaderValue(headers: seq<(string, string)>, name: string): (r: Option<string>)
    ensures r.None? <==> forall i :: 0 <= i < |headers| ==> headers[i].0 != name
    ensures r.Some? ==> exists i :: 0 <= i < |headers| && headers[i] == (name, r.value)
  {
    if headers == [] then None
    else if headers[0].0 == name then Some(headers[0].1)
    else HeaderValue(headers[1..], name)
  }

  /**
    The content type an upload is sent with: the caller's, or else the MIME type
    of the remote path. The local path never enters into it.
   */
  function ContentTypeFor(p: Primitives, savePath: string, contentType: Option<string>): (r: string)
    ensures contentType.Some? ==> r == contentType.value
    ensures contentType.None? ==> r == p.mimeType(savePath)
  {
    match contentType
    case Some(t) => t
    case None => p.mimeType(savePath)
  }

  // ---------------------------------------------------------------------------
  // Error translation

  /** The message `throwFsException` builds from an XML error body's Code and Message. */
  function BracketMessage(code: string, message: string): string
  {
    "[" + code + "]" + message
  }

  /** Reads a `[Code]Message` text back into its two parts. */
  function ParseBracketMessage(s: string): Option<(string, string)>
  {
    if |s| == 0 || s[0] != '[' then None
    else match Strings.IndexOf(s[1..], ']')
      case None => None
      case Some(k) => Some((s[1..][..k], s[1..][k + 1..]))
  }

  /** A code without `]` and any message are both recovered from the error text. */
  lemma BracketMessageRoundTrip(code: string, message: string)
    requires ']' !in code
    ensures ParseBracketMessage(BracketMessage(code, message)) == Some((code, message))
  {
    var s := BracketMessage(code, message);
    var t := code + [']'] + message;
    assert s[0] == '[' && s[1..] == t;
    Strings.IndexOfAfter(code, ']', message);
    assert t[..|code|] == code && t[|code| + 1..] == message;
  }

  datatype ErrorFormat = XmlCodeMessage | JsonErrorField

  /** The error a failed response turns into: `[Code]Message` from XML, or the JSON `error` field. */
  function Translate(p: Primitives, format: ErrorFormat, body: string): Error
  {
    match format
    case XmlCodeMessage => FsException(BracketMessage(p.xmlCode(body), p.xmlMessage(body)))
    case JsonErrorField => FsException(p.jsonErrorField(body))
  }

  /** Outcome of a request that returns nothing: success on exactly one status. */
  function Expect(p: Primitives, format: ErrorFormat, success: int, resp: Response): (r: Result<()>)
    ensures r.Ok? <==> resp.status == success
    ensures r.Err? ==> r.error == Translate(p, format, resp.body)
  {
    if resp.status != success then Err(Translate(p, format, resp.body)) else Ok(())
  }

  /** Outcome of a read: on the success status the body, unchanged. */
  function ExpectBody(p: Primitives, format: ErrorFormat, success: int, resp: Response): (r: Result<string>)
    ensures r.Ok? <==> resp.status == success
    ensures r.Ok? ==> r.value == resp.body
    ensures r.Err? ==> r.error == Translate(p, format, resp.body)
  {
    if resp.status != success then Err(Translate(p, format, resp.body)) else Ok(resp.body)
  }
}
