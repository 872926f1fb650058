/** What the whole pipeline promises, stated on `Respond`, the function the
    `Server.Request` method is proved to implement. */
module ServerProperties {
  import opened Wrappers
  import opened JsNumbers
  import opened Patterns
  import opened Http
  import opened StaticServer

  /** Shorthand for the validators of a request. */
  predicate Revalidates(req: IncomingMessage, info: FileInfo) {
    IsFresh(Header(req, "if-none-match"), Header(req, "if-modified-since"), info)
  }

  // ----- Dispatch -----

  /** `/favicon.ico` is answered with a 500 whatever the filesystem holds. */
  lemma FaviconRejected(root: string, getType: string -> Option<string>, req: IncomingMessage, stat: Stat)
    requires req.pathname == FaviconPath
    ensures Respond(root, getType, req, stat) == Reply(500, map[], Some(Text("not favicon.ico")))
  {
  }

  /** A failing `stat` or `readdir` gives a 500 whose body is the error's
      string, and no headers. */
  lemma FilesystemFailureIs500(root: string, getType: string -> Option<string>, req: IncomingMessage, stat: Stat, e: string)
    requires req.pathname != FaviconPath
    requires stat == StatFailed(e) || stat == Directory(ReadFailed(e))
    ensures Respond(root, getType, req, stat) == Reply(500, map[], Some(Text(e)))
  {
  }

  /** A directory is answered 200 with an HTML listing titled with the
      requested path, one entry per child in enumeration order, and no
      header but Content-Type: no caching, range or encoding headers. */
  lemma DirectoryListing(root: string, getType: string -> Option<string>, req: IncomingMessage, names: seq<string>)
    requires req.pathname != FaviconPath
    ensures var r := Respond(root, getType, req, Directory(Children(names)));
      && r.status == 200
      && r.headers == map["Content-Type" := "text/html"]
      && r.body.Some? && r.body.value.Listing?
      && r.body.value.title == req.pathname
      && |r.body.value.entries| == |names|
      && forall k :: 0 <= k < |names| ==>
           r.body.value.entries[k] == Entry(names[k], Join(req.pathname, names[k]))
  {
  }

  // ----- Cache revalidation -----

  /** Every file response carries the caching headers, whatever else happens. */
  lemma FileHasCachingHeaders(root: string, getType: string -> Option<string>, req: IncomingMessage, info: FileInfo)
    requires req.pathname != FaviconPath
    ensures var r := Respond(root, getType, req, File(info));
      && "Cache-Control" in r.headers && r.headers["Cache-Control"] == "private,max-age=10"
      && "Etag" in r.headers && r.headers["Etag"] == DecimalString(info.size)
      && "Last-Modified" in r.headers && r.headers["Last-Modified"] == info.ctime
  {
  }

  /** A file response is a 304 exactly when the validators agree; a 304 has
      an empty body and only the caching headers, so no Content-Type,
      Content-Encoding or Accept-range. */
  lemma NotModifiedExactly(root: string, getType: string -> Option<string>, req: IncomingMessage, info: FileInfo)
    requires req.pathname != FaviconPath
    ensures var r := Respond(root, getType, req, File(info));
      && (r.status == 304 <==> Revalidates(req, info))
      && (r.status == 304 ==> r.headers == CachingHeaders(info) && r.body == Some(Empty))
  {
    var path := Join(root, req.pathname);
    var f := FileReply(req, path, ContentType(getType(path)), info);
    if !Revalidates(req, info) {
      assert f.reply.status == 200 || f.reply.status == 206;
    }
  }

  /** A client that sends back the Etag it was given, and nothing else to
      revalidate with, gets a 304. */
  lemma EtagRevalidates(root: string, getType: string -> Option<string>, req: IncomingMessage, info: FileInfo)
    requires req.pathname != FaviconPath
    requires "if-none-match" in req.headers && req.headers["if-none-match"] == DecimalString(info.size)
    requires "if-modified-since" !in req.headers
    ensures Respond(root, getType, req, File(info)).status == 304
  {
    DecimalStringToNumber(info.size);
    NotModifiedExactly(root, getType, req, info);
  }

  /** A differing If-None-Match forces a full transfer even when
      If-Modified-Since agrees. */
  lemma EtagMismatchWins(ifNoneMatch: string, ifModifiedSince: string, info: FileInfo)
    requires ifNoneMatch != "" && StringToNumber(ifNoneMatch) != Num(info.size)
    requires ifModifiedSince == info.ctime
    ensures !IsFresh(Some(ifNoneMatch), Some(ifModifiedSince), info)
  {
  }

  /** Without any validator there is never a 304. */
  lemma NoValidatorNoShortCircuit(info: FileInfo, ifNoneMatch: Option<string>, ifModifiedSince: Option<string>)
    requires !Truthy(ifNoneMatch) && !Truthy(ifModifiedSince)
    ensures !IsFresh(ifNoneMatch, ifModifiedSince, info)
  {
  }

  /** Alone, an If-None-Match revalidates exactly when it is the Etag
      numeral, possibly with leading zeros: what loose equality with the
      size accepts. */
  lemma IfNoneMatchExactly(ifNoneMatch: string, info: FileInfo)
    ensures IsFresh(Some(ifNoneMatch), None, info) <==>
      exists k :: ifNoneMatch == Zeros(k) + DecimalString(info.size)
  {
    DenotesExactly(ifNoneMatch, info.size);
  }

  /** An If-None-Match written with leading zeros still denotes the size, as
      JavaScript's loose comparison has it. */
  lemma LeadingZerosMatch(info: FileInfo)
    ensures IsFresh(Some("0" + DecimalString(info.size)), None, info)
  {
    var s := DecimalString(info.size);
    DecimalStringValue(info.size);
    var z := "0" + s;
    assert AllDigits(z);
    DigitValueLeadingZero(s);
  }

  // ----- The file transfer -----

  /** The body of a successful, non-304 file response. */
  predicate Streams(r: Reply) {
    r.body.Some? && r.body.value.FileStream?
  }

  /** Past the cache check, the Content-Type is the MIME type of the path
      with the charset suffix. */
  lemma FileContentType(root: string, getType: string -> Option<string>, req: IncomingMessage, info: FileInfo)
    requires req.pathname != FaviconPath && !Revalidates(req, info)
    ensures var r := Respond(root, getType, req, File(info));
      "Content-Type" in r.headers &&
      r.headers["Content-Type"] == ContentType(getType(Join(root, req.pathname)))
  {
  }

  /** Without a Range header a non-empty file is sent whole, with status
      200 and no Accept-range header: the window is `[0, size - 1]`. */
  lemma NoRangeWholeFile(root: string, getType: string -> Option<string>, req: IncomingMessage, info: FileInfo)
    requires req.pathname != FaviconPath && !Revalidates(req, info)
    requires !Truthy(Header(req, "range")) && info.size > 0
    ensures var r := Respond(root, getType, req, File(info));
      && r.status == 200
      && "Accept-range" !in r.headers
      && Streams(r)
      && r.body.value.path == Join(root, req.pathname)
      && r.body.value.window == Window(Num(0), Num(info.size - 1))
  {
  }

  /** An empty file without a Range header gets the window `[0, -1]`, which
      the read stream refuses: the answer is a 500, with the caching and
      Content-Type headers already set. */
  lemma EmptyFileIs500(root: string, getType: string -> Option<string>, req: IncomingMessage, info: FileInfo)
    requires req.pathname != FaviconPath && !Revalidates(req, info)
    requires !Truthy(Header(req, "range")) && info.size == 0
    ensures var r := Respond(root, getType, req, File(info));
      && r.status == 500
      && r.body == Some(Text(ReversedWindowError))
      && "Etag" in r.headers && "Content-Type" in r.headers && "Accept-range" !in r.headers
  {
  }

  /** The `isNaN` guards of `rangeTransfer` never take their default: both
      groups are converted by `parseInt`, so an empty group gives NaN. */
  lemma RangeGuardsNeverFire(size: nat, s: string)
    ensures s != "" && ExecRange(s).Some? ==>
      var m := ExecRange(s).value;
      && PlanRange(size, Some(s)) == Success(Window(ParseDigits(m.first), MinusOne(ParseDigits(m.last))))
      && (m.first == "" ==> PlanRange(size, Some(s)).value.start == NaN)
      && (m.last == "" ==> PlanRange(size, Some(s)).value.end == NaN)
  {
  }

  /** A match whose two groups are both non-empty gives the window
      `[first, last - 1]`. */
  lemma PlanRangeOfMatch(size: nat, s: string, m: RangeMatch)
    requires s != "" && ExecRange(s) == Some(m) && m.first != "" && m.last != ""
    ensures AllDigits(m.first) && AllDigits(m.last)
    ensures PlanRange(size, Some(s)) == Success(Window(Num(DigitsValue(m.first)), Num(DigitsValue(m.last) - 1)))
  {
    PlanRangeOfExec(size, s, m);
    MatchWindowOfDigits(size, m);
  }

  /** Once the regex has matched, the window is read off the two groups. */
  lemma PlanRangeOfExec(size: nat, s: string, m: RangeMatch)
    requires s != "" && ExecRange(s) == Some(m)
    ensures AllDigits(m.first) && AllDigits(m.last)
    ensures PlanRange(size, Some(s)) == Success(MatchWindow(size, m))
  {
  }

  /** Two non-empty groups give the window `[first, last - 1]`. */
  lemma MatchWindowOfDigits(size: nat, m: RangeMatch)
    requires AllDigits(m.first) && AllDigits(m.last) && m.first != "" && m.last != ""
    ensures MatchWindow(size, m) == Window(Num(DigitsValue(m.first)), Num(DigitsValue(m.last) - 1))
  {
  }

  /** A match with two non-empty groups `first < last` opens the stream on
      `[first, last - 1]`. */
  lemma TransferOfMatch(size: nat, s: string, m: RangeMatch)
    requires s != "" && ExecRange(s) == Some(m) && m.first != "" && m.last != ""
    requires AllDigits(m.first) && AllDigits(m.last) && DigitsValue(m.first) < DigitsValue(m.last)
    ensures TransferWindow(size, Some(s)) == Success(Window(Num(DigitsValue(m.first)), Num(DigitsValue(m.last) - 1)))
  {
    PlanRangeOfMatch(size, s, m);
    TransferOfWindow(size, s, Window(Num(DigitsValue(m.first)), Num(DigitsValue(m.last) - 1)));
  }

  /** With `first >= last` that window is reversed, and opening the stream throws. */
  lemma ReversedOfMatch(size: nat, s: string, m: RangeMatch)
    requires s != "" && ExecRange(s) == Some(m) && m.first != "" && m.last != ""
    requires AllDigits(m.first) && AllDigits(m.last) && DigitsValue(m.first) >= DigitsValue(m.last)
    ensures TransferWindow(size, Some(s)) == Failure(ReversedWindowError)
  {
    PlanRangeOfMatch(size, s, m);
    TransferOfWindow(size, s, Window(Num(DigitsValue(m.first)), Num(DigitsValue(m.last) - 1)));
  }

  /** The read stream opens on the computed window unless it is reversed. */
  lemma TransferOfWindow(size: nat, s: string, w: Window)
    requires PlanRange(size, Some(s)) == Success(w)
    ensures TransferWindow(size, Some(s)) == if Reversed(w) then Failure(ReversedWindowError) else Success(w)
  {
  }

  /** Past the cache check, a window the stream accepts is streamed, with
      the transfer headers and status 206 or 200. */
  lemma FileStreamed(root: string, getType: string -> Option<string>, req: IncomingMessage, info: FileInfo,
                     range: Option<string>, w: Window)
    requires req.pathname != FaviconPath && !Revalidates(req, info)
    requires Header(req, "range") == range && TransferWindow(info.size, range) == Success(w)
    ensures var r := Respond(root, getType, req, File(info));
      var path := Join(root, req.pathname);
      && r.status == (if Truthy(Header(req, "range")) then 206 else 200)
      && r.headers == TransferHeaders(req, ContentType(getType(path)), info)
      && r.body == Some(FileStream(path, w, SelectEncoding(Header(req, "accept-encoding"))))
  {
  }

  /** Past the cache check, an exception from `rangeTransfer` becomes a 500
      carrying its string, with the transfer headers already set. */
  lemma FileThrew(root: string, getType: string -> Option<string>, req: IncomingMessage, info: FileInfo,
                  range: Option<string>, e: string)
    requires req.pathname != FaviconPath && !Revalidates(req, info)
    requires Header(req, "range") == range && TransferWindow(info.size, range) == Failure(e)
    ensures var r := Respond(root, getType, req, File(info));
      && r == Reply(500, TransferHeaders(req, ContentType(getType(Join(root, req.pathname))), info), Some(Text(e)))
  {
  }

  /** A Range header the pattern does not match ends in a 500 carrying the
      TypeError, after the 206 and every header up to Accept-range were set. */
  lemma UnmatchedRangeIs500(root: string, getType: string -> Option<string>, req: IncomingMessage, info: FileInfo)
    requires req.pathname != FaviconPath && !Revalidates(req, info)
    requires Truthy(Header(req, "range")) && NoRangeMatch(req.headers["range"])
    ensures var r := Respond(root, getType, req, File(info));
      && r.status == 500
      && r.body == Some(Text(NullMatchError))
      && "Accept-range" in r.headers && "Content-Type" in r.headers && "Etag" in r.headers
  {
  }

  /** Content-Encoding is set exactly when a compressor is chosen, names it,
      and the body is piped through that same compressor. */
  lemma EncodingMatchesHeader(root: string, getType: string -> Option<string>, req: IncomingMessage, info: FileInfo)
    requires req.pathname != FaviconPath && !Revalidates(req, info)
    ensures var r := Respond(root, getType, req, File(info));
      var chosen := SelectEncoding(Header(req, "accept-encoding"));
      && ("Content-Encoding" in r.headers <==> chosen.Some?)
      && (chosen.Some? ==> r.headers["Content-Encoding"] == EncodingName(chosen.value))
      && (Streams(r) ==> r.body.value.encoding == chosen)
  {
  }

  // ----- Concrete cases -----

  /** `gzip, deflate` chooses gzip; `deflate` alone chooses deflate. */
  lemma EncodingExamples()
    ensures SelectEncoding(Some("gzip, deflate")) == Some(Gzip)
    ensures SelectEncoding(Some("deflate")) == Some(Deflate)
  {
    assert WordAt("gzip, deflate", "gzip", 0);
    assert WordAt("deflate", "deflate", 0);
  }

  /** `br` chooses nothing, `gzipped` is not the word `gzip`, and an empty
      header value chooses nothing either. */
  lemma NoEncodingExamples()
    ensures SelectEncoding(Some("br")) == None
    ensures SelectEncoding(Some("gzipped")) == None
    ensures SelectEncoding(Some("")) == None
  {
  }

  /** `bytes=0-4` on a 10-byte file reads bytes 0 to 3, not the five bytes
      0 to 4 that section 2.1 of RFC 7233 means by it. */
  lemma RangeExampleBothBounds(s: string)
    requires s == BytesPrefix + "0" + "-" + "4"
    ensures PlanRange(10, Some(s)) == Success(Window(Num(0), Num(3)))
  {
    assert DigitsValue("0") == 0 && DigitsValue("4") == 4;
    ExecRangeOfBounds("0", "4");
    PlanRangeOfMatch(10, s, RangeMatch(0, "0", "4"));
  }

  /** `bytes=5-` leaves the end NaN rather than the last byte. */
  lemma RangeExampleOpenEnd(s: string)
    requires s == BytesPrefix + "5" + "-" + ""
    ensures PlanRange(10, Some(s)) == Success(Window(Num(5), NaN))
  {
    assert DigitsValue("5") == 5;
    ExecRangeOfBounds("5", "");
    RangeGuardsNeverFire(10, s);
  }

  /** A Range header in another unit does not match at all. */
  lemma RangeExampleOtherUnit()
    ensures PlanRange(10, Some("items=0-4")).Failure?
  {
    var s := "items=0-4";
    assert 'b' !in s;
    forall q | 0 <= q <= |s| ensures MatchAt(s, q).None? {
      if q + |BytesPrefix| <= |s| {
        assert s[q] in s;
        assert s[q..q + |BytesPrefix|][0] == s[q];
      }
    }
    assert NoRangeMatch(s);
  }
}
