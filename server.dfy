/** The request pipeline of the static file server (class `Server` of
    src/app.js): what each step decides, as functions, and the steps
    themselves, as methods of `Server` that update a `ServerResponse`. */
module StaticServer {
  import opened Wrappers
  import opened JsNumbers
  import opened Patterns
  import opened Http

  // ----- What the filesystem reports -----

  /** The `stat` of a regular file: its size, and its change time already
      formatted by `ctime.toGMTString()`. */
  datatype FileInfo = FileInfo(size: nat, ctime: string)

  /** What `readdir` gives for a directory: its children in enumeration
      order, or the string of the error it failed with. */
  datatype DirRead = Children(names: seq<string>) | ReadFailed(error: string)

  /** What `stat` gives for the resolved path: the string of its error, a
      directory, or a file. */
  datatype Stat = StatFailed(error: string) | Directory(read: DirRead) | File(info: FileInfo)

  // ----- Constants of the pipeline -----

  const FaviconPath: string := "/favicon.ico"
  const FaviconError: string := "not favicon.ico"
  const CacheControl: string := "private,max-age=10"
  const HtmlType: string := "text/html"
  const Charset: string := ";charset=utf-8"

  /** What `String(e)` gives for the TypeError raised by `result[1]` when
      `result` is null (the V8 wording of the Node releases of the time). */
  const NullMatchError: string := "TypeError: Cannot read property '1' of null"

  /** What `String(e)` gives for the Error `fs.createReadStream` throws from
      its constructor when the start of the window lies past its end (the
      wording of the Node 8 releases, which the rest of the source targets). */
  const ReversedWindowError: string := "Error: \"start\" option must be <= \"end\" option"

  // ----- Cache revalidation -----

  /** The headers `isCache` always sets: Cache-Control, the Etag (the file
      size, as `String` writes it) and Last-Modified. */
  function CachingHeaders(info: FileInfo): (h: map<string, string>)
    ensures h.Keys == {"Cache-Control", "Etag", "Last-Modified"}
    ensures h["Cache-Control"] == CacheControl
    ensures StringToNumber(h["Etag"]) == Num(info.size) && Canonical(h["Etag"])
    ensures h["Last-Modified"] == info.ctime
  {
    DecimalStringToNumber(info.size);
    map["Cache-Control" := CacheControl, "Etag" := DecimalString(info.size),
        "Last-Modified" := info.ctime]
  }

  /** `ifNoneMatch != etag` with JavaScript's loose equality between a string
      and a number: the string is converted to a number. It differs from the
      Etag unless it is the Etag text behind some zeros (or empty, for an
      empty file). */
  function EtagDiffers(ifNoneMatch: string, size: nat): (differs: bool)
    ensures !differs <==>
      (exists k :: ifNoneMatch == Zeros(k) + DecimalString(size)) || (size == 0 && ifNoneMatch == "")
  {
    DenotesExactly(ifNoneMatch, size);
    StringToNumber(ifNoneMatch) != Num(size)
  }

  /** The decision of `isCache`: whether the response is a 304. It is one
      exactly when at least one validator is sent and every validator sent
      agrees with the file. A differing If-None-Match therefore forces a full
      transfer even when If-Modified-Since agrees. */
  function IsFresh(ifNoneMatch: Option<string>, ifModifiedSince: Option<string>, info: FileInfo): (notModified: bool)
    ensures notModified <==>
      && (Truthy(ifNoneMatch) || Truthy(ifModifiedSince))
      && (Truthy(ifNoneMatch) ==> StringToNumber(ifNoneMatch.value) == Num(info.size))
      && (Truthy(ifModifiedSince) ==> ifModifiedSince.value == info.ctime)
  {
    if Truthy(ifNoneMatch) && EtagDiffers(ifNoneMatch.value, info.size) then false
    else if Truthy(ifModifiedSince) && ifModifiedSince.value != info.ctime then false
    else Truthy(ifNoneMatch) || Truthy(ifModifiedSince)
  }

  // ----- Encoding selection -----

  function EncodingName(e: Encoding): string {
    match e
    case Gzip => "gzip"
    case Deflate => "deflate"
  }

  /** The compressor `compression` chooses for an Accept-Encoding value:
      gzip when the word `gzip` occurs, otherwise deflate when the word
      `deflate` occurs, otherwise none, and none when the header is absent
      or empty. q-values play no part. */
  function SelectEncoding(acceptEncoding: Option<string>): (r: Option<Encoding>)
    ensures r == Some(Gzip) <==> Truthy(acceptEncoding) && ContainsWord(acceptEncoding.value, "gzip")
    ensures r == Some(Deflate) <==>
      && Truthy(acceptEncoding)
      && !ContainsWord(acceptEncoding.value, "gzip")
      && ContainsWord(acceptEncoding.value, "deflate")
    ensures r == None <==>
      !Truthy(acceptEncoding) ||
      (!ContainsWord(acceptEncoding.value, "gzip") && !ContainsWord(acceptEncoding.value, "deflate"))
  {
    if Truthy(acceptEncoding) then
      if TestWord(acceptEncoding.value, "gzip") then Some(Gzip)
      else if TestWord(acceptEncoding.value, "deflate") then Some(Deflate)
      else None
    else None
  }

  // ----- Range window -----

  /** The window `rangeTransfer` reads from the groups of a match, through
      its `isNaN` guards. A group of digits is never NaN to `isNaN` (the
      empty one is 0), so the guards never keep the default: both bounds
      come from `parseInt`, and an empty group gives NaN. */
  function MatchWindow(size: nat, m: RangeMatch): (w: Window)
    requires AllDigits(m.first) && AllDigits(m.last)
    ensures w.start == ParseDigits(m.first)
    ensures w.end == MinusOne(ParseDigits(m.last))
  {
    var start := Num(0);
    var end := Num(size - 1);
    var start' := if StringToNumber(m.first).NaN? then start else ParseDigits(m.first);
    var end' := if StringToNumber(m.last).NaN? then end else MinusOne(ParseDigits(m.last));
    Window(start', end')
  }

  /** The read window `rangeTransfer` computes for a file of `size` bytes,
      or the exception it throws. Without a Range header the window is the
      whole file. With one, the window comes from the leftmost match of
      `bytes=(\d*)-(\d*)`, and when nothing matches the access to the null
      match throws. */
  function PlanRange(size: nat, range: Option<string>): (r: Result<Window, string>)
    ensures !Truthy(range) ==> r == Success(Window(Num(0), Num(size - 1)))
    ensures Truthy(range) ==> (r.Failure? <==> NoRangeMatch(range.value))
    ensures r.Failure? ==> r.error == NullMatchError
  {
    if !Truthy(range) then Success(Window(Num(0), Num(size - 1)))
    else
      match ExecRange(range.value)
      case None => Failure(NullMatchError)
      case Some(m) => Success(MatchWindow(size, m))
  }

  /** A window whose start lies past its end, both being numbers: the read
      stream refuses it. With no Range header this is the window `[0, -1]`
      of an empty file; with one, a header like `bytes=5-3` or `bytes=0-0`. */
  predicate Reversed(w: Window) {
    w.start.Num? && w.end.Num? && w.start.value > w.end.value
  }

  /** What `rangeTransfer` ends in: the stream on the window `PlanRange`
      computes, or the exception thrown on the way, either the null match
      or the read stream refusing a reversed window. */
  function TransferWindow(size: nat, range: Option<string>): (r: Result<Window, string>)
    ensures r.Success? ==> r == PlanRange(size, range) && !Reversed(r.value)
    ensures r.Failure? ==> PlanRange(size, range).Failure? || Reversed(PlanRange(size, range).value)
    ensures r.Failure? ==> r.error == NullMatchError || r.error == ReversedWindowError
  {
    match PlanRange(size, range)
    case Failure(e) => Failure(e)
    case Success(w) => if Reversed(w) then Failure(ReversedWindowError) else Success(w)
  }

  // ----- Directory listing -----

  /** `path.join(dir, name)`, reduced to joining with a single `/` at the seam. */
  function Join(dir: string, name: string): (p: string)
    ensures var dirSlash := |dir| > 0 && dir[|dir| - 1] == '/';
      var nameSlash := |name| > 0 && name[0] == '/';
      p == if dirSlash && nameSlash then dir + name[1..]
           else if dirSlash || nameSlash then dir + name
           else dir + "/" + name
  {
    var d := if |dir| > 0 && dir[|dir| - 1] == '/' then dir[..|dir| - 1] else dir;
    var n := if |name| > 0 && name[0] == '/' then name[1..] else name;
    d + "/" + n
  }

  /** The entries `request` builds for a directory: one per child, in
      `readdir` order, each named after the child and linking to the child
      joined to the requested path. */
  function Entries(pathname: string, children: seq<string>): (r: seq<Entry>)
    ensures |r| == |children|
    ensures forall k :: 0 <= k < |r| ==> r[k].name == children[k] && r[k].url == Join(pathname, children[k])
  {
    if children == [] then []
    else [Entry(children[0], Join(pathname, children[0]))] + Entries(pathname, children[1..])
  }

  // ----- Whole responses -----

  /** `mime.getType(path) + ';charset=utf-8'`, where a null type reads "null". */
  function ContentType(mimeType: Option<string>): (c: string)
    ensures |c| >= |Charset| && c[|c| - |Charset|..] == Charset
    ensures c[..|c| - |Charset|] == if mimeType.Some? then mimeType.value else "null"
  {
    (match mimeType case Some(t) => t case None => "null") + Charset
  }

  /** The headers of a full (non-304) file transfer: the caching headers,
      then Content-Type, then Content-Encoding when a compressor is chosen,
      then Accept-range when a Range header is sent. */
  function TransferHeaders(req: IncomingMessage, contentType: string, info: FileInfo): (h: map<string, string>)
    ensures forall k :: k in CachingHeaders(info) ==> k in h && h[k] == CachingHeaders(info)[k]
    ensures "Content-Type" in h && h["Content-Type"] == contentType
    ensures var chosen := SelectEncoding(Header(req, "accept-encoding"));
      && ("Content-Encoding" in h <==> chosen.Some?)
      && (chosen.Some? ==> h["Content-Encoding"] == EncodingName(chosen.value))
    ensures "Accept-range" in h <==> Truthy(Header(req, "range"))
    ensures "Accept-range" in h ==> h["Accept-range"] == "bytes"
    ensures forall k :: k in h ==> k in CachingHeaders(info) || k == "Content-Type" || k == "Content-Encoding" || k == "Accept-range"
  {
    var encoding := SelectEncoding(Header(req, "accept-encoding"));
    var typed := CachingHeaders(info)["Content-Type" := contentType];
    var encoded := if encoding.Some? then typed["Content-Encoding" := EncodingName(encoding.value)] else typed;
    if Truthy(Header(req, "range")) then encoded["Accept-range" := "bytes"] else encoded
  }

  /** What `sendFile` leaves behind: the response as it then stands, and the
      string of the exception that escapes it, if one does. */
  datatype Outcome = Outcome(reply: Reply, thrown: Option<string>)

  /** What `sendFile` leaves on a response that had no headers: a 304 with
      the caching headers only; or the transfer headers, 206 when a Range
      header is sent and 200 otherwise, and the file stream as the body.
      When `rangeTransfer` throws, the response is left open and the
      exception escapes. */
  function FileReply(req: IncomingMessage, path: string, contentType: string, info: FileInfo): (o: Outcome)
    ensures o.thrown.Some? <==> o.reply.body.None?
    ensures o.reply.status == 304 <==> IsFresh(Header(req, "if-none-match"), Header(req, "if-modified-since"), info)
    ensures o.reply.status in {200, 206, 304}
    ensures o.reply.body.Some? && o.reply.status != 304 ==>
      o.reply.body.value.FileStream? && !Reversed(o.reply.body.value.window)
  {
    if IsFresh(Header(req, "if-none-match"), Header(req, "if-modified-since"), info) then
      Outcome(Reply(304, CachingHeaders(info), Some(Empty)), None)
    else
      var range := Header(req, "range");
      var status := if Truthy(range) then 206 else 200;
      match TransferWindow(info.size, range)
      case Failure(e) => Outcome(Reply(status, TransferHeaders(req, contentType, info), None), Some(e))
      case Success(w) =>
        Outcome(Reply(status, TransferHeaders(req, contentType, info),
                      Some(FileStream(path, w, SelectEncoding(Header(req, "accept-encoding"))))), None)
  }

  /** The response `request` produces for `req`, given what `stat` and
      `readdir` report for the path it resolves to, the server root and the
      MIME lookup. Every request is answered, and every 500 carries a text. */
  function Respond(root: string, getType: string -> Option<string>, req: IncomingMessage, stat: Stat): (r: Reply)
    ensures r.body.Some?
    ensures r.status in {200, 206, 304, 500}
    ensures r.status == 500 <==> r.body.value.Text?
    ensures r.status == 500 && req.pathname != FaviconPath ==> !stat.Directory? || stat.read.ReadFailed?
  {
    if req.pathname == FaviconPath then Reply(500, map[], Some(Text(FaviconError)))
    else
      match stat
      case StatFailed(e) => Reply(500, map[], Some(Text(e)))
      case Directory(ReadFailed(e)) => Reply(500, map[], Some(Text(e)))
      case Directory(Children(names)) =>
        Reply(200, map["Content-Type" := HtmlType],
              Some(Listing(req.pathname, Entries(req.pathname, names))))
      case File(info) =>
        var path := Join(root, req.pathname);
        var o := FileReply(req, path, ContentType(getType(path)), info);
        if o.thrown.Some? then Reply(500, o.reply.headers, Some(Text(o.thrown.value))) else o.reply
  }

  /** Setting a header after a union is setting it in the right operand. */
  lemma UnionUpdate(a: map<string, string>, b: map<string, string>, k: string, v: string)
    ensures (a + b)[k := v] == a + b[k := v]
  {
  }

  // ----- The server -----

  class Server {
    /** The configured root directory. */
    const root: string
    /** `mime.getType`, which is not part of this model. */
    const getType: string -> Option<string>

    constructor (root: string, getType: string -> Option<string>)
      ensures this.root == root && this.getType == getType
    {
      this.root := root;
      this.getType := getType;
    }

    /** `request`: rejects the favicon, lists a directory, or sends a file,
        and turns every error thrown synchronously inside its `try` into a
        500 carrying the error's string. */
    method Request(req: IncomingMessage, res: ServerResponse, stat: Stat)
      requires res.statusCode == 200 && res.headers == map[] && res.Open()
      modifies res
      ensures res.Snapshot() == Respond(root, getType, req, stat)
    {
      var pathname := req.pathname;
      if pathname == FaviconPath {
        SendError(FaviconError, res);
        return;
      }
      var filePath := Join(root, pathname);
      match stat
      case StatFailed(e) =>
        SendError(e, res);
      case Directory(ReadFailed(e)) =>
        SendError(e, res);
      case Directory(Children(names)) =>
        var files := Entries(pathname, names);
        res.SetHeader("Content-Type", HtmlType);
        res.End(Listing(pathname, files));
      case File(info) =>
        var thrown := SendFile(req, res, filePath, info);
        if thrown.Some? {
          SendError(thrown.value, res);
        }
    }

    /** `sendFile`: cache check, then content type, encoding and range, in
        that order. An exception from the range step or from opening the
        read stream escapes as `thrown`, with the response still open. */
    method SendFile(req: IncomingMessage, res: ServerResponse, filePath: string, info: FileInfo)
      returns (thrown: Option<string>)
      requires res.Open()
      modifies res
      ensures var o := FileReply(req, filePath, ContentType(getType(filePath)), info);
        && res.statusCode == o.reply.status
        && res.headers == old(res.headers) + o.reply.headers
        && res.body == o.reply.body
        && thrown == o.thrown
    {
      ghost var start := res.headers;
      var hit := IsCache(req, res, info);
      if hit {
        return None;
      }
      var contentType := ContentType(getType(filePath));
      ghost var h := CachingHeaders(info);
      res.SetStatus(200);
      res.SetHeader("Content-Type", contentType);
      UnionUpdate(start, h, "Content-Type", contentType);
      h := h["Content-Type" := contentType];
      var encoding := Compression(req, res);
      if encoding.Some? {
        UnionUpdate(start, h, "Content-Encoding", EncodingName(encoding.value));
        h := h["Content-Encoding" := EncodingName(encoding.value)];
      }
      var window := RangeTransfer(req, res, info);
      if Truthy(Header(req, "range")) {
        UnionUpdate(start, h, "Accept-range", "bytes");
        h := h["Accept-range" := "bytes"];
      }
      assert res.headers == start + h;
      match window
      case Failure(e) =>
        thrown := Some(e);
      case Success(w) =>
        res.End(FileStream(filePath, w, encoding));
        thrown := None;
    }

    /** `sendError`: status 500 and the error's string as the body. */
    method SendError(error: string, res: ServerResponse)
      requires res.Open()
      modifies res
      ensures res.statusCode == 500 && res.body == Some(Text(error))
      ensures res.headers == old(res.headers)
    {
      res.SetStatus(500);
      res.End(Text(error));
    }

    /** `isCache`: sets the caching headers, then answers 304 and ends the
        response when the validators agree with the file. */
    method IsCache(req: IncomingMessage, res: ServerResponse, info: FileInfo) returns (hit: bool)
      requires res.Open()
      modifies res
      ensures hit == IsFresh(Header(req, "if-none-match"), Header(req, "if-modified-since"), info)
      ensures res.headers == old(res.headers) + CachingHeaders(info)
      ensures hit ==> res.statusCode == 304 && res.body == Some(Empty)
      ensures !hit ==> res.statusCode == old(res.statusCode) && res.Open()
    {
      var ifNoneMatch := Header(req, "if-none-match");
      var ifModifiedSince := Header(req, "if-modified-since");
      res.SetHeader("Cache-Control", CacheControl);
      var etag := info.size;
      var lastModified := info.ctime;
      res.SetHeader("Etag", DecimalString(etag));
      res.SetHeader("Last-Modified", lastModified);
      if Truthy(ifNoneMatch) && EtagDiffers(ifNoneMatch.value, etag) {
        return false;
      }
      if Truthy(ifModifiedSince) && ifModifiedSince.value != lastModified {
        return false;
      }
      if Truthy(ifNoneMatch) || Truthy(ifModifiedSince) {
        res.SetStatus(304);
        res.End(Empty);
        return true;
      } else {
        return false;
      }
    }

    /** `rangeTransfer`: with a Range header it marks the response 206 and
        sets Accept-range before parsing the header; then it opens the read
        stream on the window, which throws when the window is reversed. */
    method RangeTransfer(req: IncomingMessage, res: ServerResponse, info: FileInfo)
      returns (window: Result<Window, string>)
      requires res.Open()
      modifies res
      ensures window == TransferWindow(info.size, Header(req, "range"))
      ensures Truthy(Header(req, "range")) ==>
        res.statusCode == 206 && res.headers == old(res.headers)["Accept-range" := "bytes"]
      ensures !Truthy(Header(req, "range")) ==>
        res.statusCode == old(res.statusCode) && res.headers == old(res.headers)
      ensures res.Open()
    {
      var start := Num(0);
      var end := Num(info.size - 1);
      var range := Header(req, "range");
      if Truthy(range) {
        res.SetHeader("Accept-range", "bytes");
        res.SetStatus(206);
        var result := ExecRange(range.value);
        if result.None? {
          return Failure(NullMatchError);
        }
        start := if StringToNumber(result.value.first).NaN? then start else ParseDigits(result.value.first);
        end := if StringToNumber(result.value.last).NaN? then end else MinusOne(ParseDigits(result.value.last));
      }
      if Reversed(Window(start, end)) {
        return Failure(ReversedWindowError);
      }
      window := Success(Window(start, end));
    }

    /** `compression`: the chosen compressor, and Content-Encoding naming it
        when there is one. */
    method Compression(req: IncomingMessage, res: ServerResponse) returns (encoding: Option<Encoding>)
      requires res.Open()
      modifies res
      ensures encoding == SelectEncoding(Header(req, "accept-encoding"))
      ensures encoding.Some? ==> res.headers == old(res.headers)["Content-Encoding" := EncodingName(encoding.value)]
      ensures encoding.None? ==> res.headers == old(res.headers)
      ensures res.statusCode == old(res.statusCode) && res.Open()
    {
      var acceptEncoding := Header(req, "accept-encoding");
      encoding := None;
      if Truthy(acceptEncoding) {
        if TestWord(acceptEncoding.value, "gzip") {
          res.SetHeader("Content-Encoding", "gzip");
          encoding := Some(Gzip);
        } else if TestWord(acceptEncoding.value, "deflate") {
          res.SetHeader("Content-Encoding", "deflate");
          encoding := Some(Deflate);
        }
      }
    }
  }
}
