/** The request and response objects the pipeline works on. The request is
    a value; the response is an object whose status, headers and body the
    pipeline sets step by step, as Node's `http.ServerResponse` is. */
module Http {
  import opened Wrappers
  import opened JsNumbers

  /** An incoming request: the `pathname` of its URL and its headers, keyed
      by lower-case name as Node delivers them. */
  datatype IncomingMessage = IncomingMessage(pathname: string, headers: map<string, string>)

  /** `req.headers[name]`: absent headers are `undefined`. */
  function Header(req: IncomingMessage, name: string): (h: Option<string>)
    ensures h.Some? <==> name in req.headers
    ensures h.Some? ==> h.value == req.headers[name]
  {
    if name in req.headers then Some(req.headers[name]) else None
  }

  /** JavaScript truthiness of a header value: present and not empty. */
  predicate Truthy(h: Option<string>) {
    h.Some? && h.value != ""
  }

  /** One line of a directory listing, as handed to the listing template. */
  datatype Entry = Entry(name: string, url: string)

  /** The compressors `compression` can choose. */
  datatype Encoding = Gzip | Deflate

  /** The inclusive byte window `{start, end}` given to `fs.createReadStream`. */
  datatype Window = Window(start: JsNum, end: JsNum)

  /** What a response's body is made of:
      - `Empty`: `res.end()` with nothing;
      - `Text`: `res.end(text)`;
      - `Listing`: the directory template rendered from a title and entries;
      - `FileStream`: the file at `path`, read over `window`, piped through the
        chosen compressor if there is one. */
  datatype Body =
    | Empty
    | Text(text: string)
    | Listing(title: string, entries: seq<Entry>)
    | FileStream(path: string, window: Window, encoding: Option<Encoding>)

  /** A response as a value: status, headers, and the body once it is ended. */
  datatype Reply = Reply(status: int, headers: map<string, string>, body: Option<Body>)

  /** The response object. `body` is `None` until the response is ended. */
  class ServerResponse {
    var statusCode: int
    var headers: map<string, string>
    var body: Option<Body>

    /** A response as Node hands it to the request listener. */
    constructor ()
      ensures statusCode == 200 && headers == map[] && body == None
    {
      statusCode := 200;
      headers := map[];
      body := None;
    }

    function Snapshot(): (r: Reply)
      reads this
      ensures r.status == statusCode && r.headers == headers && r.body == body
    {
      Reply(statusCode, headers, body)
    }

    /** No header may be set once the response has been sent. */
    predicate Open()
      reads this
    {
      body.None?
    }

    /** `res.setHeader(name, value)`: a later value replaces an earlier one. */
    method SetHeader(name: string, value: string)
      requires Open()
      modifies this
      ensures headers == old(headers)[name := value]
      ensures statusCode == old(statusCode) && body == old(body)
    {
      headers := headers[name := value];
    }

    /** `res.statusCode = code`, and `res.writeHead(code)` with no headers of its own. */
    method SetStatus(code: int)
      requires Open()
      modifies this
      ensures statusCode == code
      ensures headers == old(headers) && body == old(body)
    {
      statusCode := code;
    }

    /** `res.end(...)`, or a stream piped into the response, which ends it. */
    method End(b: Body)
      requires Open()
      modifies this
      ensures body == Some(b)
      ensures statusCode == old(statusCode) && headers == old(headers)
    {
      body := Some(b);
    }
  }
}
