# Posterer request execution core in Dafny

This project models the core of Posterer's request execution. Posterer is a desktop tool
for composing HTTP requests, firing them and inspecting the responses. The model has two parts.

- **`RequestBean`**: the mutable request record. It holds seven request fields: endpoint,
  payload, method, content type, base64 flag, HTTP user and HTTP password. It also holds
  two session fields: the URI derived from the endpoint, and a timeout.
  `request_bean.dfy` models it as a class with the same fields and setters. The static
  helpers become pure functions over `Fields`, a value that holds the seven request values.
- **`AbstractResponseModelTask`**: the task that runs one request. `response_task.dfy`
  models it as a class. Its `Call` method prepares the client, reads the clock, calls
  `getReponse` and records the elapsed milliseconds in the `finally` step. Each of the
  four subclass hooks is a method that takes, as a parameter, how that call ends. The
  three hooks that run while the clock may be read (`prepareClient`, `getReponse`,
  `closeClient`) also take how many nanoseconds they run; `processResponse` takes no
  time on the clock. `System.nanoTime` is a `NanoClock` object whose reading only
  moves forward. A ghost `trace` records each hook call and clock reading in order.

Three files support them:

- `java_lang.dfy` holds the Java pieces the bean uses: nullable strings, 32-bit `int`
  wrap-around, `String.hashCode`, `Arrays.hashCode`, `Objects.toString`,
  `Character.isWhitespace`, `Character.isSpaceChar` and `StringUtils.isBlank`.
- `xml_escape.dfy` escapes and unescapes the five predefined entities of section 4.6 of
  XML 1.0 (Fifth Edition). It also removes NUL, U+FFFE and U+FFFF, as `escapeXml11` does,
  and decodes numeric character references, as `unescapeXml` does.
- `uri.dfy` holds `ValidUri`, a lexical approximation of what `java.net.URI` accepts
  under RFC 2396, and `constructUri`.

The code falls short of its own evident intent in three places. The model follows the
code and adds a corrected member for each; see Findings below.

- `copy()` is documented as "a copy of the current bean" (`RequestBean.java:346`), and
  both request controllers fire such a copy (`AbstractRequestController.java:628`,
  `RequestController.java:427`). The copy's payload is decoded a second time, so it can
  differ from the original.
- `equals` overrides `Object.equals` for a bean of seven values, but it compares only
  the 32-bit hash of those values, so two different requests can be equal.
- `isComplete()` returns the private `completed` flag (`AbstractResponseModelTask.java:46`,
  `:221`), and nothing assigns it, so a task never reports itself complete.

Two other facts of the code are modelled as they stand. `call()` never calls the
`closeClient` hook. The task keeps the very bean it was given
(`AbstractResponseModelTask.java:59-64`) and runs `processResponse` again on every
`getHeaders`, `getBody` and `isComplete` call.

## Model

| member | source | states |
|---|---|---|
| `JavaLang.IsNotBlank` | src/main/java/com/github/technosf/posterer/modules/RequestBean.java:379-381 | a string is non-blank iff it is not null and has a character that is not Java whitespace |
| `JavaLang.IsBlank` | src/main/java/com/github/technosf/posterer/modules/RequestBean.java:379-381 | null is blank; a string is blank iff every character is Java whitespace |
| `JavaLang.ObjectsToString` | src/main/java/com/github/technosf/posterer/modules/RequestBean.java:426-432 | `Objects.toString` gives the text itself, or "null" for a null reference |
| `JavaLang.BooleanToString` | src/main/java/com/github/technosf/posterer/modules/RequestBean.java:430 | the base64 flag stringifies to "true" exactly when it is set, and to "false" otherwise |
| `JavaLang.IsJavaWhitespace` | src/main/java/com/github/technosf/posterer/modules/RequestBean.java:379-381 | `Character.isWhitespace` by code point equals its documented definition: a space character other than U+00A0, U+2007 and U+202F, or one of U+0009-U+000D and U+001C-U+001F |
| `JavaLang.StringHashCode` | src/main/java/com/github/technosf/posterer/modules/RequestBean.java:425-432 | the hash of a text is `s[0]*31^(n-1) + ... + s[n-1]` over its UTF-16 code units, wrapped to 32 bits; the empty text hashes to 0 |
| `JavaLang.ArraysHashCode` | src/main/java/com/github/technosf/posterer/modules/RequestBean.java:425-432 | `Objects.hash` of n values is `31^n + h[0]*31^(n-1) + ... + h[n-1]` over their hash codes, wrapped to 32 bits |
| `XmlEscape.EscapeChars` | src/main/java/com/github/technosf/posterer/modules/RequestBean.java:200-203 | escaped text has no bare `<`, `>`, `"` or `'`, and each `&` in it starts one of the five entity references |
| `XmlEscape.Escape` | src/main/java/com/github/technosf/posterer/modules/RequestBean.java:200-203 | `escapeXml11` on a nullable string: null stays null |
| `XmlEscape.UnescapeChars` | src/main/java/com/github/technosf/posterer/modules/RequestBean.java:180-183 | unescaping never makes a text longer: each reference it decodes becomes one character |
| `XmlEscape.Unescape` | src/main/java/com/github/technosf/posterer/modules/RequestBean.java:180-183 | `unescapeXml` on a nullable string: null stays null |
| `XmlEscape.DecimalReferenceDecoded` | src/main/java/com/github/technosf/posterer/modules/RequestBean.java:180-183 | the decimal reference "&#60;" unescapes to "<" |
| `XmlEscape.HexReferenceDecoded` | src/main/java/com/github/technosf/posterer/modules/RequestBean.java:180-183 | the hexadecimal reference "&#x3c;" unescapes to "<" |
| `XmlEscape.DecimalReferenceWithLetterKept` | src/main/java/com/github/technosf/posterer/modules/RequestBean.java:180-183 | "&#6a;" is not a reference, because a decimal reference may not hold a letter |
| `XmlEscape.UnescapeEscapeChars` | src/main/java/com/github/technosf/posterer/modules/RequestBean.java:180-203 | unescaping undoes escaping for every text without NUL, U+FFFE or U+FFFF |
| `XmlEscape.UnescapeEscape` | src/main/java/com/github/technosf/posterer/modules/RequestBean.java:180-203 | the same round trip on nullable strings: null stays null |
| `XmlEscape.NulIsLost` | src/main/java/com/github/technosf/posterer/modules/RequestBean.java:200-203 | a NUL character does not survive escaping and unescaping, so the round trip needs its precondition |
| `Uris.ValidUri` | src/main/java/com/github/technosf/posterer/modules/RequestBean.java:444-458 | whether `new URI(endpoint)` succeeds; a valid URI never holds a space or control character, and the empty text is valid |
| `Uris.ConstructUri` | src/main/java/com/github/technosf/posterer/modules/RequestBean.java:444-458 | `constructUri` never fails: it gives a URI iff the endpoint is not null and parses, and that URI carries the endpoint's text |
| `Uris.EmptyEndpointParses` | src/main/java/com/github/technosf/posterer/modules/RequestBean.java:444-458 | the empty endpoint parses, so `constructUri("")` gives a URI |
| `Uris.HttpUrlParses` | src/main/java/com/github/technosf/posterer/modules/RequestBean.java:444-458 | an absolute http URL gives a URI |
| `Uris.SpaceDoesNotParse` | src/main/java/com/github/technosf/posterer/modules/RequestBean.java:444-458 | an endpoint with a space in it gives no URI |
| `Uris.EmptySchemeDoesNotParse` | src/main/java/com/github/technosf/posterer/modules/RequestBean.java:444-458 | an endpoint that starts with `:` has an empty scheme and gives no URI |
| `Uris.BracketInQueryParses` | src/main/java/com/github/technosf/posterer/modules/RequestBean.java:444-458 | brackets are allowed in a query |
| `Uris.BracketInPathDoesNotParse` | src/main/java/com/github/technosf/posterer/modules/RequestBean.java:444-458 | brackets are not allowed in a path |
| `Uris.FigureSpaceDoesNotParse` | src/main/java/com/github/technosf/posterer/modules/RequestBean.java:444-458 | an endpoint holding the space character U+2007 gives no URI |
| `Uris.EmptyOpaquePartDoesNotParse` | src/main/java/com/github/technosf/posterer/modules/RequestBean.java:444-458 | "x:#f" gives no URI, because its scheme-specific part is empty |
| `Requests.IsActionableRequest` | src/main/java/com/github/technosf/posterer/modules/RequestBean.java:372-382 | a request is actionable iff it is not null and its endpoint, method and content type each have a non-whitespace character |
| `Requests.HashOf` | src/main/java/com/github/technosf/posterer/modules/RequestBean.java:418-433 | the static hash of a null request is 0 |
| `Requests.FormatRequest` | src/main/java/com/github/technosf/posterer/modules/RequestBean.java:393-409 | the early return of the empty string happens iff the format or the request is null; otherwise the result is `String.format` applied to the format and the seven getter values |
| `Requests.RequestBean.View` | src/main/java/com/github/technosf/posterer/modules/RequestBean.java:155-309 | the seven getters return the stored fields, except `getPayload`, which returns the stored payload unescaped |
| `Requests.RequestBean.constructor` | src/main/java/com/github/technosf/posterer/modules/RequestBean.java:68-77 | the default bean has six empty strings, base64 false, no URI and timeout 0 |
| `Requests.RequestBean.FromFields` | src/main/java/com/github/technosf/posterer/modules/RequestBean.java:108-120 | the seven-argument constructor stores every argument verbatim, the unescaped payload included, and derives the URI from the endpoint |
| `Requests.RequestBean.FromRequest` | src/main/java/com/github/technosf/posterer/modules/RequestBean.java:87-96 | the copy constructor stores the other request's getter values, so the decoded payload becomes the stored one |
| `Requests.RequestBean.GetPayload` | src/main/java/com/github/technosf/posterer/modules/RequestBean.java:180-183 | `getPayload` is the unescaped stored payload, and it is null iff the stored payload is null |
| `Requests.RequestBean.GetPayloadRaw` | src/main/java/com/github/technosf/posterer/modules/RequestBean.java:189-192 | `getPayloadRaw` is the stored payload, with no change |
| `Requests.RequestBean.SetEndpoint` | src/main/java/com/github/technosf/posterer/modules/RequestBean.java:166-170 | sets the endpoint and the URI derived from it; every other field keeps its value |
| `Requests.RequestBean.SetPayload` | src/main/java/com/github/technosf/posterer/modules/RequestBean.java:200-203 | stores the escaped payload; `getPayload` then returns the text that was set, unless that text contains a character the escaper drops; the URI stays tied to the endpoint |
| `Requests.RequestBean.SetMethod` | src/main/java/com/github/technosf/posterer/modules/RequestBean.java:210-213 | sets the method and changes no other field; the URI stays tied to the endpoint |
| `Requests.RequestBean.SetContentType` | src/main/java/com/github/technosf/posterer/modules/RequestBean.java:244-247 | sets the content type and changes no other field; the URI stays tied to the endpoint |
| `Requests.RequestBean.SetBase64` | src/main/java/com/github/technosf/posterer/modules/RequestBean.java:266-269 | sets the base64 flag and changes no other field; the URI stays tied to the endpoint |
| `Requests.RequestBean.SetHttpPassword` | src/main/java/com/github/technosf/posterer/modules/RequestBean.java:286-289 | sets the password and changes no other field; the URI stays tied to the endpoint |
| `Requests.RequestBean.SetHttpUser` | src/main/java/com/github/technosf/posterer/modules/RequestBean.java:306-309 | sets the user and changes no other field; the URI stays tied to the endpoint |
| `Requests.UriFollowsEndpoint` | src/main/java/com/github/technosf/posterer/modules/RequestBean.java:131-134 | a bean whose URI stays tied to its endpoint has as its URI the parse of the endpoint, except for the blank default bean, and a URI it has always carries the endpoint text |
| `Requests.RequestBean.HashCode` | src/main/java/com/github/technosf/posterer/modules/RequestBean.java:319-323 | `hashCode()` is the static hash of the bean's own getter values |
| `Requests.RequestBean.Equals` | src/main/java/com/github/technosf/posterer/modules/RequestBean.java:332-340 | `equals` is false for null and for non-requests; otherwise it holds iff the two hash codes agree |
| `Requests.RequestBean.IsActionable` | src/main/java/com/github/technosf/posterer/modules/RequestBean.java:361-364 | the instance test is the static test applied to this bean |
| `Requests.RequestBean.Copy` | src/main/java/com/github/technosf/posterer/modules/RequestBean.java:350-353 | `copy` gives a fresh bean with the same endpoint, method, content type, base64, user and password. Its stored payload is the original's decoded payload, its URI is derived again and its timeout is 0 |
| `Requests.RequestBean.CopyKeepingPayload` | src/main/java/com/github/technosf/posterer/modules/RequestBean.java:350-353 | corrected copy: it stores the same seven fields, reads back the same values, and equals the original in both directions |
| `Requests.RequestBean.EqualsByFields` | src/main/java/com/github/technosf/posterer/modules/RequestBean.java:332-340 | corrected equality: it holds iff the other object is a request with the same seven getter values, and it implies `equals` |
| `Requests.HashCollision` | src/main/java/com/github/technosf/posterer/modules/RequestBean.java:425-432 | "Aa" and "BB" have the same `String.hashCode`, 2112 |
| `Requests.SameTextsSameHash` | src/main/java/com/github/technosf/posterer/modules/RequestBean.java:418-433 | requests whose seven stringified values agree have the same hash |
| `Requests.CollidingMethodsHashAlike` | src/main/java/com/github/technosf/posterer/modules/RequestBean.java:332-340 | two requests that differ only in method, "Aa" against "BB", have the same hash, so `equals` holds between them |
| `Requests.NullMatchesNullText` | src/main/java/com/github/technosf/posterer/modules/RequestBean.java:425-432 | a null endpoint and the endpoint "null" give the same hash |
| `Requests.SessionFieldsIgnored` | src/main/java/com/github/technosf/posterer/modules/RequestBean.java:319-340 | beans that store the same seven fields have the same `hashCode` and are equal both ways, whatever their URI and timeout |
| `Requests.CopyEqualWhenPayloadStable` | src/main/java/com/github/technosf/posterer/modules/RequestBean.java:87-96 | if unescaping the decoded payload leaves it unchanged, the copy's getter values and hash are the original's |
| `Requests.CopyDecodesTwice` | src/main/java/com/github/technosf/posterer/modules/RequestBean.java:87-96 | after `setPayload("&lt;")` the bean reads back "&lt;", but its copy reads back "<" |
| `Requests.CopyDecodesNumericReference` | src/main/java/com/github/technosf/posterer/modules/RequestBean.java:87-96 | after `setPayload("&#60;")` the bean reads back "&#60;", but its copy reads back "<" |
| `Requests.BlankNotActionable` | src/main/java/com/github/technosf/posterer/modules/RequestBean.java:372-382 | the blank default request is not actionable |
| `Requests.WhitespaceMethodNotActionable` | src/main/java/com/github/technosf/posterer/modules/RequestBean.java:379-381 | a method made only of whitespace makes a request not actionable |
| `Requests.GetIsActionable` | src/main/java/com/github/technosf/posterer/modules/RequestBean.java:379-381 | a GET of an http endpoint with content type text/plain is actionable |
| `ResponseTasks.NanosToMillis` | src/main/java/com/github/technosf/posterer/models/base/AbstractResponseModelTask.java:121-123 | a non-negative duration gives the whole milliseconds it contains; a negative one truncates toward zero |
| `ResponseTasks.NanosToMillisMonotone` | src/main/java/com/github/technosf/posterer/models/base/AbstractResponseModelTask.java:121-123 | a longer duration never gives fewer milliseconds |
| `ResponseTasks.HundredMillisecondCall` | src/main/java/com/github/technosf/posterer/models/base/AbstractResponseModelTask.java:106-127 | a task whose client takes 5 ms to prepare and whose response takes 100.5 ms is timed at 100 ms and returns that response |
| `ResponseTasks.NanoClock.NanoTime` | src/main/java/com/github/technosf/posterer/models/base/AbstractResponseModelTask.java:112 | a clock reading is the clock's current value |
| `ResponseTasks.ResponseModelTask.constructor` | src/main/java/com/github/technosf/posterer/models/base/AbstractResponseModelTask.java:39-64 | keeps the request id and the very bean it was given; headers, body and response start null, elapsed time 0, not completed |
| `ResponseTasks.ResponseModelTask.PrepareClient` | src/main/java/com/github/technosf/posterer/models/base/AbstractResponseModelTask.java:74 | the hook is recorded, takes its time on the clock, and ends as its outcome says |
| `ResponseTasks.ResponseModelTask.GetReponse` | src/main/java/com/github/technosf/posterer/models/base/AbstractResponseModelTask.java:81 | the hook is recorded, takes its time, and returns a response (possibly null) or throws |
| `ResponseTasks.ResponseModelTask.ProcessResponse` | src/main/java/com/github/technosf/posterer/models/base/AbstractResponseModelTask.java:87 | the hook is recorded; it either leaves new headers and body in the protected fields or throws and leaves them unchanged |
| `ResponseTasks.ResponseModelTask.CloseClient` | src/main/java/com/github/technosf/posterer/models/base/AbstractResponseModelTask.java:93 | the hook is recorded when called; nothing in the class calls it |
| `ResponseTasks.ResponseModelTask.ReadClock` | src/main/java/com/github/technosf/posterer/models/base/AbstractResponseModelTask.java:112 | a `System.nanoTime` reading is recorded and returns the clock's value |
| `ResponseTasks.ResponseModelTask.Call` | src/main/java/com/github/technosf/posterer/models/base/AbstractResponseModelTask.java:106-127 | if `prepareClient` throws, the exception propagates, `getReponse` is not called, and the elapsed time is unchanged. Otherwise the steps are prepare, clock, `getReponse`, clock, and the elapsed time is that call's duration in milliseconds (≥ 0) whether it returned or threw. The result is what `getReponse` gave. `closeClient` is never called, and `response` and `completed` are left unchanged |
| `ResponseTasks.ResponseModelTask.CallAsIntended` | src/main/java/com/github/technosf/posterer/models/base/AbstractResponseModelTask.java:106-127 | corrected `call`: the same steps and timing, and once the client is prepared, `completed` is set in the `finally` step |
| `ResponseTasks.ResponseModelTask.GetReferenceId` | src/main/java/com/github/technosf/posterer/models/base/AbstractResponseModelTask.java:140-143 | returns the request id given to the constructor |
| `ResponseTasks.ResponseModelTask.GetElaspedTimeMili` | src/main/java/com/github/technosf/posterer/models/base/AbstractResponseModelTask.java:152-155 | returns the recorded elapsed time: 0 until `call` reaches its `finally` step |
| `ResponseTasks.ResponseModelTask.GetResponse` | src/main/java/com/github/technosf/posterer/models/base/AbstractResponseModelTask.java:164-167 | "null" while the `response` field is null, otherwise the response's own text |
| `ResponseTasks.ResponseModelTask.GetRequestBean` | src/main/java/com/github/technosf/posterer/models/base/AbstractResponseModelTask.java:176-179 | returns the very bean given to the constructor |
| `ResponseTasks.ResponseModelTask.GetHeaders` | src/main/java/com/github/technosf/posterer/models/base/AbstractResponseModelTask.java:192-196 | runs `processResponse` first, then returns the headers it left, or propagates its exception |
| `ResponseTasks.ResponseModelTask.GetBody` | src/main/java/com/github/technosf/posterer/models/base/AbstractResponseModelTask.java:205-209 | runs `processResponse` first, then returns the body it left, or propagates its exception |
| `ResponseTasks.ResponseModelTask.IsComplete` | src/main/java/com/github/technosf/posterer/models/base/AbstractResponseModelTask.java:218-222 | runs `processResponse` first, then returns the `completed` flag, or propagates its exception |
| `ResponseTasks.RunOnce` | src/main/java/com/github/technosf/posterer/models/base/AbstractResponseModelTask.java:106-222 | across a task's whole life (create, `call`, `isComplete`), `isComplete` is false whenever `processResponse` succeeds. The response text is "null", the elapsed time is 0 if preparation threw, and the trace is the fixed step order |
| `ResponseTasks.RunOnceAsIntended` | src/main/java/com/github/technosf/posterer/models/base/AbstractResponseModelTask.java:218-222 | with the corrected `call`, a task whose client was prepared reports itself complete |

## Left out

- The JavaFX `Task` superclass is not modelled: scheduling on a worker, state notifications and cross-thread visibility. `call` is an ordinary sequential method.
- The subclass hooks are not modelled: the HTTP client, proxy, keystore and response decoding. Each hook is a method whose outcome and duration are parameters. The model assumes the hooks change only the clock and, for `processResponse`, the `headers` and `body` fields.
- A subclass that assigns the protected `response` field from inside a hook is not modelled.
- The `Request` interface declares `getSecurity` and proxy getters that `RequestBean` does not implement. They come from a different revision, so only the seven fields `RequestBean` has are modelled. The bean is the only implementer of `Request` in the model.
- The seven-argument constructor takes a boxed `Boolean`. The model takes a `bool`, so the `NullPointerException` a null flag would cause is not modelled.
- The instance `toString()` (`RequestBean.java:466-476`) is not modelled: it only formats the fields for display.
- `Requests.FormatRequest`: the non-null case of `toString(format, request)` is kept as a record of the `String.format` call (`Formatted`), not as the formatted text, so a format that yields "" is not told apart from the early return.
- `XmlEscape.EscapeChars`: `escapeXml11` writes most control characters as numeric character references, where the model passes them through unchanged. The round trip is the same either way, but the stored text differs.
- `XmlEscape.UnescapeChars`: a numeric reference to a surrogate code point, where `unescapeXml` writes a lone surrogate, and one above U+10FFFF, where it throws, are copied as text. A Dafny string cannot hold a lone surrogate, and the model's getters do not throw. The contract states only the length bound; what the unescaper decodes is stated by `XmlEscape.UnescapeEscapeChars`, `XmlEscape.DecimalReferenceDecoded`, `XmlEscape.HexReferenceDecoded` and `XmlEscape.DecimalReferenceWithLetterKept`.
- Unpaired UTF-16 surrogates cannot occur in a Dafny string, so the escaper's removal of them is not modelled.
- `Uris.ValidUri` checks characters, escapes, the fragment mark, the scheme, the non-empty opaque part and where brackets may appear. It does not check the authority, host, port or IPv6 rules of `java.net.URI`, so a bracket in an IPv6 host is rejected.
- `JavaLang.IsJavaWhitespace` and `JavaLang.IsSpaceChar` follow the Unicode tables of Java 9 and later, where U+180E is not a space. Under Java 8 it is one.
- `ResponseTasks.NanosToMillis`: `elapsedTime` is a Java `long` and `nanoTime` differences can wrap at 64 bits. The model's clock and durations are unbounded integers.
- `LOG.debug` in `constructUri` (logging) is not modelled.
- The task's bean is `com.github.technosf.posterer.models.RequestBean` (`AbstractResponseModelTask.java:20`). That class is not part of this model, so `modules.RequestBean` stands in for it.
- `ResponseTasks.ResponseModelTask.GetBody`: `getBody()` is not `final` (`AbstractResponseModelTask.java:205`), so a subclass may override it and skip `processResponse`. The model states only the base-class body.
- The UI controllers are not modelled: `AbstractRequestController` and `RequestController`, including the endpoint filter, the endpoint set and the guard in `fire`. They are JavaFX glue.
- The `RequestModel` interface and the properties persistence test are not modelled. They have no request-execution behaviour.

## Findings

| source | as written | input that shows it | evidently intended | confidence | as-written member | corrected member |
|---|---|---|---|---|---|---|
| src/main/java/com/github/technosf/posterer/modules/RequestBean.java:87-96 | `copy()` passes the decoded `getPayload()` to the seven-argument constructor, which stores it as the raw, escaped payload, so the copy decodes it again | `setPayload("&lt;")`, then `copy()`: the original reads back "&lt;", the copy reads back "<" | the copy keeps the stored payload, so it reads back the same text and equals the original | medium (not executed) | `Requests.CopyDecodesTwice` | `Requests.RequestBean.CopyKeepingPayload` |
| src/main/java/com/github/technosf/posterer/modules/RequestBean.java:332-340 | `equals` compares only the 32-bit `Objects.hash` of the seven stringified values | two beans that differ only in method, "Aa" against "BB" (both hash to 2112) | two requests are equal iff their seven values are equal | medium (not executed) | `Requests.CollidingMethodsHashAlike` | `Requests.RequestBean.EqualsByFields` |
| src/main/java/com/github/technosf/posterer/models/base/AbstractResponseModelTask.java:46 | the private `completed` flag is never assigned, so `isComplete()` is always false | any task after `call()` returns normally: `isComplete()` is false | `call()` records completion, so `isComplete()` is true after a run | medium (not executed) | `ResponseTasks.RunOnce` | `ResponseTasks.ResponseModelTask.CallAsIntended` |
