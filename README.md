# Static file server: the request pipeline

This project models the request pipeline of a small Node.js static file
server (class `Server` in `src/app.js`) and proves what it does. For each
request the server:

- rejects `/favicon.ico`;
- answers a directory with an HTML listing;
- answers a file through four steps, in this order: cache revalidation,
  content type, encoding selection and the byte range.

Every error thrown synchronously inside the `try` of `request` becomes a
500 whose body is the error's string. This includes the read stream
refusing a reversed window.

The response is an object, `Http.ServerResponse`. It has a status, a header
map and a body, and the pipeline's methods update them one step at a time,
as the source updates Node's response. The filesystem is an input value
(`StaticServer.Stat`): a failed `stat`, a directory whose `readdir` failed
or gave an ordered list of children, or a file with its size and its
already formatted change time.

Modules:

- `Wrappers`: `Option` and `Result`.
- `JsNumbers`: the JavaScript number conversions the pipeline relies on.
  These are `String(n)` for the Etag, `ToNumber` behind `isNaN` and behind
  the loose `!=`, and `parseInt` of a group of digits.
- `Patterns`: the two regular expressions, `/bytes=(\d*)-(\d*)/` and
  `/\bgzip\b/` / `/\bdeflate\b/`. Each is a scanning function, proved
  against a declarative statement of what the regex matches.
- `Http`: the request value, the response class, and the body
  descriptions. A body is one of: empty, a text, a listing (the template's
  title and entries), or a file stream (path, read window and compressor).
- `StaticServer`: the decisions as functions (`IsFresh`, `SelectEncoding`,
  `PlanRange`, `Entries`, `FileReply`, `Respond`) and class `Server`, whose
  methods mirror the source's methods. `Server.Request` is proved to leave
  the response equal to `Respond(...)`.
- `ServerProperties`: lemmas about `Respond` and the decision functions.

The code departs from RFC 7233 and from common expectation in these ways:

- With `Range: bytes=0-4` the window is bytes 0 to 3, not 0 to 4, because
  the code subtracts 1 from the end.
- An empty bound such as `bytes=5-` gives NaN, not the file's first or last
  byte. The `isNaN` guards never fire on a group of digits.
- `Accept-range` is set only when a Range header is sent, not on every file
  response.
- `/favicon.ico` is answered with status 500, not "not found".
- A window whose start lies past its end makes `fs.createReadStream` throw,
  and the response is a 500. An empty file without a Range header gets the
  window `[0, -1]`, and so does `bytes=0-0`; `bytes=5-3` gives `[5, 2]`.

## Model

| member | source | states |
|---|---|---|
| `JsNumbers.DecimalString` | src/app.js:90-92 | the Etag text `String(size)` is a decimal numeral without superfluous leading zeros |
| `JsNumbers.DecimalStringValue` | src/app.js:90-92 | the numeral written for the Etag reads back as the size |
| `JsNumbers.DecimalStringToNumber` | src/app.js:92-94 | converting the Etag text back to a number, as the loose `!=` does, gives the size |
| `JsNumbers.CanonicalIsDecimalString` | src/app.js:92-94 | a numeral without leading zeros is exactly the Etag text of its value, so the text is unique |
| `JsNumbers.Zeros` | src/app.js:94 | a run of `k` zero digits, the padding loose equality ignores |
| `JsNumbers.LeadingZeros` | src/app.js:94 | the count of zeros a string starts with; the character after them, if any, is not a zero |
| `JsNumbers.DigitValueLeadingZero` | src/app.js:94 | a leading zero does not change the value of a numeral |
| `JsNumbers.ZerosPrefixValue` | src/app.js:94 | any number of leading zeros leaves a numeral's value unchanged |
| `JsNumbers.DenotesExactly` | src/app.js:94 | `ToNumber` of a string is the size exactly when the string is the size's numeral behind some zeros, or, for size 0 only, the empty string |
| `Patterns.DigitRunEnd` | src/app.js:117 | a greedy `\d*` from a position takes only digits and stops only at a non-digit or the end |
| `Patterns.GroupIsDigitRun` | src/app.js:117 | any group of digits followed by a non-digit or the end is exactly what the greedy run takes |
| `Patterns.MatchAt` | src/app.js:117 | a match found at a position starts there and both groups are digits only |
| `Patterns.MatchAtSound` | src/app.js:117 | a match found at a position is `bytes=`, digits, `-`, digits, with the second group taking every following digit |
| `Patterns.MatchAtComplete` | src/app.js:117 | every such match is found, and is the only one at its position |
| `Patterns.ExecRangeFrom` | src/app.js:117 | the scan returns the leftmost match at or after the start position, or reports none anywhere |
| `Patterns.ExecRange` | src/app.js:117 | `range.match(...)` is null exactly when the pattern matches nowhere, and otherwise gives the leftmost match, which `MatchAtSound` describes |
| `Patterns.ExecRangeOfBounds` | src/app.js:117 | a header that is exactly `bytes=a-b` matches at its start with groups `a` and `b` |
| `Patterns.SearchWordFrom` | src/app.js:130-133 | the search succeeds exactly when the word occurs between word boundaries at or after the start position |
| `Patterns.TestWord` | src/app.js:130-133 | `/\bw\b/.test(s)` holds exactly when `w` occurs in `s` between word boundaries |
| `StaticServer.CachingHeaders` | src/app.js:88-93 | Cache-Control is `private,max-age=10`, Etag is a numeral denoting the size, Last-Modified is the ctime string, and nothing else is set |
| `StaticServer.EtagDiffers` | src/app.js:94 | `ifNoneMatch != etag` is false exactly when the header is the Etag numeral behind some zeros, or empty for an empty file |
| `StaticServer.IsFresh` | src/app.js:94-107 | 304 exactly when at least one validator is sent and each one sent agrees with the file: If-None-Match denotes the size, If-Modified-Since equals the ctime string |
| `StaticServer.SelectEncoding` | src/app.js:128-139 | gzip exactly when the header holds the word gzip; deflate exactly when it holds deflate and not gzip; none when it holds neither, or when the header is absent or empty |
| `StaticServer.MatchWindow` | src/app.js:118-119 | on a match, the start is `parseInt` of the first group and the end `parseInt` of the second minus one: the `isNaN` guards never keep the defaults |
| `StaticServer.PlanRange` | src/app.js:110-120 | no Range header gives the window `[0, size-1]`; with one, the computation throws the null-match TypeError exactly when the pattern matches nowhere |
| `StaticServer.TransferWindow` | src/app.js:110-124 | the read stream opens on `PlanRange`'s window unless that window is reversed; it fails only with the null-match TypeError or the reversed-window error |
| `StaticServer.Join` | src/app.js:41 | exactly one `/` at the seam: a slash on both sides is collapsed, a slash on one side is kept, none is added between (the rest of `path.join` is under Left out) |
| `StaticServer.Entries` | src/app.js:47-50 | one entry per child and in the same order; each entry is named for its child and its url is the child joined to the request path |
| `StaticServer.ContentType` | src/app.js:71 | the MIME type, or `null` when there is none, followed by `;charset=utf-8` |
| `StaticServer.TransferHeaders` | src/app.js:66-76 | a full transfer carries the caching headers, Content-Type, Content-Encoding exactly when a compressor is chosen, naming it, `Accept-range: bytes` exactly when a Range header is sent, and nothing else |
| `StaticServer.FileReply` | src/app.js:66-78 | 304 exactly when the validators agree; otherwise 200 or 206 with the file streamed on a window that is not reversed, or an exception and no body |
| `StaticServer.Respond` | src/app.js:35-64 | every request is answered with a body and status 200, 206, 304 or 500; a 500 and only a 500 has a text body, and apart from the favicon it never answers a directory whose `readdir` succeeded |
| `StaticServer.Server.Request` | src/app.js:35-64 | the response left behind is `Respond(...)`: favicon, then stat, then a directory listing or `sendFile`, with failures caught as 500 |
| `StaticServer.Server.SendFile` | src/app.js:66-78 | status, headers added and body are `FileReply(...)`; an exception from the range step is passed back to the caller, with the response left open |
| `StaticServer.Server.SendError` | src/app.js:80-83 | status 500 and the error's string as the body; headers untouched |
| `StaticServer.Server.IsCache` | src/app.js:85-108 | adds exactly the caching headers; answers `IsFresh`; on 304 it ends the response empty, otherwise it changes neither status nor body |
| `StaticServer.Server.RangeTransfer` | src/app.js:110-125 | the window is `TransferWindow(...)`; a Range header sets 206 and `Accept-range: bytes`; without one, status and headers stay unchanged |
| `StaticServer.Server.Compression` | src/app.js:127-140 | the compressor is `SelectEncoding(...)`; Content-Encoding names it and is set only when one is chosen |
| `ServerProperties.FaviconRejected` | src/app.js:38-40 | `/favicon.ico` gives 500 with body `not favicon.ico` and no headers, whatever the filesystem holds |
| `ServerProperties.FilesystemFailureIs500` | src/app.js:42-63 | a failed stat or readdir gives 500 with the error's string, and no headers |
| `ServerProperties.DirectoryListing` | src/app.js:45-56 | a directory gives 200, only `Content-Type: text/html`, a title equal to the path, and one entry per child in order |
| `ServerProperties.FileHasCachingHeaders` | src/app.js:88-93 | every file response carries Cache-Control, Etag = `String(size)` and Last-Modified = ctime |
| `ServerProperties.NotModifiedExactly` | src/app.js:67-69 | a file response is 304 exactly when the validators agree; a 304 has an empty body and only the caching headers |
| `ServerProperties.EtagRevalidates` | src/app.js:92-104 | sending back the Etag received, with no If-Modified-Since, gives 304 |
| `ServerProperties.EtagMismatchWins` | src/app.js:94-96 | a differing If-None-Match forces a full transfer even when If-Modified-Since agrees |
| `ServerProperties.NoValidatorNoShortCircuit` | src/app.js:101-107 | without any validator there is no 304 |
| `ServerProperties.IfNoneMatchExactly` | src/app.js:94-104 | an If-None-Match alone revalidates exactly when it is the Etag numeral behind some zeros |
| `ServerProperties.LeadingZerosMatch` | src/app.js:94 | If-None-Match `0` followed by the Etag still denotes the size under loose equality |
| `ServerProperties.FileContentType` | src/app.js:70-71 | past the cache check, Content-Type is the MIME type of the path followed by `;charset=utf-8` |
| `ServerProperties.NoRangeWholeFile` | src/app.js:111-124 | no Range header and a non-empty file: status 200, no Accept-range, and the file is streamed over `[0, size-1]` |
| `ServerProperties.EmptyFileIs500` | src/app.js:111-124 | no Range header and an empty file: the window `[0, -1]` makes the read stream throw, so the answer is a 500 with that error, after the Etag and Content-Type were set and without Accept-range |
| `ServerProperties.RangeGuardsNeverFire` | src/app.js:117-119 | both groups go through `parseInt`, so an empty start or end gives NaN, not the default |
| `ServerProperties.PlanRangeOfExec` | src/app.js:117-119 | once the pattern has matched, the window is read off the two groups |
| `ServerProperties.PlanRangeOfMatch` | src/app.js:117-119 | a match with two non-empty groups gives the window `[first, last-1]` |
| `ServerProperties.TransferOfMatch` | src/app.js:117-124 | a match with groups `a < b` opens the stream on `[a, b-1]` |
| `ServerProperties.ReversedOfMatch` | src/app.js:117-124 | a match with groups `a >= b` gives a reversed window, and opening the stream throws |
| `ServerProperties.TransferOfWindow` | src/app.js:117-124 | the stream opens on the computed window exactly when it is not reversed |
| `ServerProperties.FileStreamed` | src/app.js:66-124 | past the cache check, a window the stream accepts is streamed through the chosen compressor, with the full transfer headers and status 206 when a Range header is sent, 200 otherwise |
| `ServerProperties.FileThrew` | src/app.js:42-78 | past the cache check, an exception from `rangeTransfer` (thrown at line 121) becomes a 500 with its string, the transfer headers already set kept |
| `ServerProperties.UnmatchedRangeIs500` | src/app.js:117-118 | a Range header that the pattern does not match ends in 500 with the TypeError text; the headers set before it remain |
| `ServerProperties.EncodingMatchesHeader` | src/app.js:72-76 | Content-Encoding is present exactly when a compressor is chosen, names it, and the stream goes through that compressor |
| `ServerProperties.EncodingExamples` | src/app.js:129-138 | `gzip, deflate` gives gzip and `deflate` gives deflate |
| `ServerProperties.NoEncodingExamples` | src/app.js:128-138 | `br`, `gzipped` and the empty value give no compressor |
| `ServerProperties.MatchWindowOfDigits` | src/app.js:118-119 | two non-empty groups give the window `[first, last-1]` |
| `ServerProperties.RangeExampleBothBounds` | src/app.js:117-119 | `bytes=0-4` on a 10-byte file reads bytes 0 to 3 |
| `ServerProperties.RangeExampleOpenEnd` | src/app.js:117-119 | `bytes=5-` gives start 5 and end NaN |
| `ServerProperties.RangeExampleOtherUnit` | src/app.js:117 | `items=0-4` does not match, so the range computation throws |

## Left out

- Server creation, `listen`, the merge of the configuration with `Object.assign`, and the logging. These are process start-up and I/O. The root is a field of `Server`.
- `fs.stat` and `fs.readdir` are asynchronous. Their outcome is the input `Stat`, and nothing runs concurrently.
- `fs.createReadStream`, the zlib gzip and deflate transforms, and piping. The model records the path, the read window and the chosen compressor, not the bytes. Of the checks the stream constructor makes (src/app.js:121-124), only the one that always applies is modelled: a window whose start lies past its end throws. Node 12 and later also throw on a NaN or negative end, and Node 8 accepts those; the model follows Node 8 here, so `bytes=5-` is streamed with a NaN end.
- ReversedWindowError: the message of the reversed-window error is Node 8's wording. Node 10 and later throw a RangeError (`ERR_OUT_OF_RANGE`) worded differently.
- Errors raised after `rangeTransfer` returns, while the stream is piped, happen outside the `try` and are not modelled.
- The Handlebars template. A listing body is the template's input: a title and entries.
- `mime.getType` is an opaque function parameter of `Server`. A null result becomes the text `null` when concatenated.
- `url.parse`: the request carries its pathname directly.
- `path.join` normalisation of `.`, `..` and repeated slashes. `Join` only collapses the slashes where the two parts meet.
- The Expires header. The source passes the uncalled method `toGMTString` as its value, and the model does not set it.
- The clock and date formatting. The Last-Modified text is an input.
- StringToNumber: JavaScript's `ToNumber` also accepts surrounding whitespace, a sign, fractions, exponents, `0x`/`0o`/`0b` prefixes and `Infinity`. The model treats all such strings as NaN. So an If-None-Match like ` 10` or `1e1` counts as differing from size 10 here, while the original treats it as equal. `DenotesExactly`, `EtagDiffers` and `IfNoneMatchExactly` describe this restricted conversion.
- ParseDigits: `parseInt` loses precision on very long digit strings. The model's integers are exact.
- NullMatchError: the wording of the TypeError message depends on the JavaScript engine. The model uses V8's wording from the Node releases of the time.
- Case-insensitive lookup of response header names. The names are kept as the source writes them, and they do not clash.
