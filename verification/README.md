# HttpUtil request pipeline, modelled in Dafny

`HttpUtil` is a fluent HTTP client over OkHttp. A caller gets a
`RequestBuilder` bound to a method and a URL (`get`, `post`, `put`,
`delete`, `uploadFile`), accumulates headers, query parameters, one body and
per-call timeouts, and finishes with `execute` (blocking) or `executeAsync`
(a `CompletableFuture`). One shared OkHttp client serves every call; its
timeout interceptor reads the `HttpConfig` tagged on each request and applies
those bounds to that call only. `setLogLevel` maps a level name to a logger
level.

This project models the decisions the file itself makes:

- `java_lang.dfy` (`JavaLang`): null references, Java exceptions, `int`,
  `byte`, maps as their iteration order, and `String.valueOf`.
- `seqs.dfy` (`Seqs`): the "append one item per entry" loop shared by all
  the builder's for-each loops, and its relation to plain concatenation.
- `timeout_config.dfy` (`TimeoutConfig`): `HttpConfig` and its `Builder`.
- `okhttp.dfy` (`OkHttp`): OkHttp's URL, header, body, request and response
  values as abstract datatypes.
- `timeout_interceptor.dfy` (`TimeoutInterceptor`): the timeout stage of
  the chain.
- `builder.dfy` (`Builder`): the builder state, each fluent call as a pure
  function, chains of calls (`Run`), and `buildRequest`.
- `http_util.dfy` (`HttpUtil`): the static entry points.
- `log_level.dfy` (`LogLevel`): `setLogLevel` as a parser.
- `execution.dfy` (`Execution`): `execute`, and `executeAsync` as a small
  state machine of callback effects over a future.
- `scenarios.dfy` (`Scenarios`): the situations the repository's tests
  drive over a socket, with the server as a parameter.

The network is a parameter of both terminal operations: a function from the
request and the bounds chosen by the timeout stage to either a transport
failure or one delivered response. Because the Java `HttpConfig` is tagged on
the request by reference at construction, the model keeps that one config in
the builder state and tags the request with it at `buildRequest`. This is
why timeout setters called before the terminal call are what the interceptor
sees.

Some consequences of the code that the model keeps:

- `buildRequest`'s `default` branch (HttpUtil.java:344-345) cannot run,
  because `HttpMethod` has exactly four values.
- `onResponse`'s `catch (Exception e)` (HttpUtil.java:401-402) turns every
  failure while buffering, including a failed read, into
  `IOException("Response body is null")`. `Execution.CallbackEffects` does
  the same.
- A null map given to `header` or `params` is ignored. A null map given to
  `form` or `formData`, a null file list given to `formData`, and a null
  argument to `setLogLevel` all throw `NullPointerException`.
- `formData` with no files and no fields throws `IllegalStateException`,
  because `MultipartBody.Builder.build()` refuses a body without parts.

## Model

| member | source | states |
|---|---|---|
| Builder.NewRequestBuilder | src/main/java/com/xmzhou/util/HttpUtil.java:131-142 | A null or empty URL throws `IllegalArgumentException("request url is null")`, and every other URL succeeds. The new builder is bound to the given method and URL and has no query pairs, no headers and no body. Its config is 60 seconds in every phase. |
| HttpUtil.Get | src/main/java/com/xmzhou/util/HttpUtil.java:50-52 | Succeeds exactly for a non-null, non-empty URL, giving a GET builder on that URL. |
| HttpUtil.Post | src/main/java/com/xmzhou/util/HttpUtil.java:60-62 | Succeeds exactly for a non-null, non-empty URL, giving a POST builder on that URL. |
| HttpUtil.Put | src/main/java/com/xmzhou/util/HttpUtil.java:70-72 | Succeeds exactly for a non-null, non-empty URL, giving a PUT builder on that URL. |
| HttpUtil.Delete | src/main/java/com/xmzhou/util/HttpUtil.java:80-82 | Succeeds exactly for a non-null, non-empty URL, giving a DELETE builder on that URL. |
| HttpUtil.UploadFile | src/main/java/com/xmzhou/util/HttpUtil.java:90-92 | `uploadFile` is an alias: it gives exactly the builder `post` gives. |
| Builder.WithHeaders | src/main/java/com/xmzhou/util/HttpUtil.java:200-208 | A null map changes nothing. Otherwise each entry is appended after the existing headers, in iteration order, with its value stringified. Earlier headers, including ones with the same name, are kept, and no other field changes. |
| Builder.WithParam | src/main/java/com/xmzhou/util/HttpUtil.java:217-224 | Exactly one query pair (key, value) is appended after the existing ones; a null value stays null. The base URL and every other field are unchanged. |
| Builder.WithParams | src/main/java/com/xmzhou/util/HttpUtil.java:233-244 | A null or empty map changes nothing. Otherwise each entry is appended as a query pair with its value stringified, in iteration order and without deduplication. Nothing else changes. |
| Builder.WithForm | src/main/java/com/xmzhou/util/HttpUtil.java:252-259 | A null map throws `NullPointerException`. Otherwise the body slot becomes a form body with one stringified field per entry, in order. Nothing else changes. |
| Builder.WithFormData | src/main/java/com/xmzhou/util/HttpUtil.java:268-282 | A null map or null file list throws `NullPointerException`. No files and no fields throws `IllegalStateException("Multipart body must have at least one part.")`. Otherwise the body slot becomes a multipart body with exactly one part per file plus one per field. The file parts come first, in list order, carrying name, file name and data. The stringified field parts follow. Empty names and empty data are accepted. Nothing else changes. |
| Builder.WithBody | src/main/java/com/xmzhou/util/HttpUtil.java:290-294 | The body slot becomes the given text, declared `application/json; charset=utf-8`. Nothing else changes. |
| Builder.WithTimeout | src/main/java/com/xmzhou/util/HttpUtil.java:302-327 | Each timeout setter sets its own phase of the call's config. The other two phases and the rest of the builder are unchanged. |
| Builder.BuildRequest | src/main/java/com/xmzhou/util/HttpUtil.java:329-348 | The verb is the builder's method. A body is attached exactly when the method is not GET and the slot holds one, and then it is that slot. URL and headers carry over, and the request is tagged with the builder's config. |
| Builder.ApplyStep | src/main/java/com/xmzhou/util/HttpUtil.java:200-327 | A fluent call throws exactly in the cases above, with the exception named there. Any other call only adds its own headers or query pairs, assigns its own body, or sets its own timeout phase. |
| Builder.RunSucceedsIff | src/main/java/com/xmzhou/util/HttpUtil.java:252-282 | A chain of fluent calls succeeds exactly when none of its calls throws. Otherwise it ends with the exception of the first call that does. |
| Builder.RunAccumulates | src/main/java/com/xmzhou/util/HttpUtil.java:200-244 | Over a successful chain, the method and base URL never change. The final headers and query pairs are the earlier ones followed by every call's additions, in call order. |
| Builder.RunBodyIsLastAssigned | src/main/java/com/xmzhou/util/HttpUtil.java:252-294 | The body is a single slot: after a chain it holds what the last `form`/`formData`/`body` call assigned, or its earlier content if no call assigned one. |
| Builder.RunTimeoutIsLastSet | src/main/java/com/xmzhou/util/HttpUtil.java:302-327 | Each phase's timeout is the value of the last setter for that phase, whatever came after it. A phase no call set keeps its earlier value. |
| TimeoutConfig.NewHttpConfig | src/main/java/com/xmzhou/util/HttpUtil.java:417-419 | A fresh config is 60 seconds in every phase. |
| TimeoutConfig.SetTimeout | src/main/java/com/xmzhou/util/HttpUtil.java:425-443 | A setter gives its phase the new value and leaves the other two phases as they were. |
| TimeoutConfig.SettersIndependent | src/main/java/com/xmzhou/util/HttpUtil.java:425-443 | Setters of different phases commute. A second setter of the same phase overrides the first. |
| TimeoutConfig.NewConfigBuilder | src/main/java/com/xmzhou/util/HttpUtil.java:445-455 | `HttpConfig.builder()` wraps a config that is 60 seconds in every phase. |
| TimeoutConfig.BuilderSetTimeout | src/main/java/com/xmzhou/util/HttpUtil.java:457-470 | A builder setter gives its phase the new value and leaves the other two phases as they were. |
| TimeoutConfig.Build | src/main/java/com/xmzhou/util/HttpUtil.java:472-474 | `build()` hands out the config the builder's setters have been changing, every phase as set. |
| TimeoutConfig.BuilderSetsOnlyItsPhase | src/main/java/com/xmzhou/util/HttpUtil.java:445-475 | `HttpConfig.builder().build()` is the default config. A builder setter sets only its phase and leaves the others at 60. |
| TimeoutInterceptor.TimeoutStage | src/main/java/com/xmzhou/util/HttpUtil.java:154-165 | The stage applies exactly the three values of the config tagged on the request, or 60/60/60 when none is tagged. The `orElse(60)` fallback never takes effect. |
| TimeoutInterceptor.Proceed | src/main/java/com/xmzhou/util/HttpUtil.java:155-164 | The network receives the request itself, unchanged, under the tagged config's connect, read and write values, or under 60/60/60 when no config is tagged. |
| Execution.DispatchUsesLatestTimeouts | src/main/java/com/xmzhou/util/HttpUtil.java:140-163 | For each phase, the bound the network sees is the value of the builder's last setter for it, or 60 when no setter was called. |
| LogLevel.SetLogLevel | src/main/java/com/xmzhou/util/HttpUtil.java:94-118 | A null argument throws `NullPointerException`. Otherwise the call succeeds exactly when the upper-cased text is TRACE, DEBUG, INFO, WARN, ERROR or OFF, and the level chosen is the one with that name. Any other text throws `IllegalArgumentException("Unsupported log level: " + level)`. |
| LogLevel.NamesSelectTheirLevel | src/main/java/com/xmzhou/util/HttpUtil.java:96-114 | Each level is selected by its name in upper case and in lower case. |
| LogLevel.CaseInsensitive | src/main/java/com/xmzhou/util/HttpUtil.java:96-117 | Texts that upper-case alike get the same answer. |
| Execution.ReadAll | src/main/java/com/xmzhou/util/HttpUtil.java:363 | `bytes()` on a buffered body returns its bytes. On a streaming body it succeeds exactly when the read succeeds, returning what was read, and otherwise throws that read's `IOException`. |
| Execution.Buffer | src/main/java/com/xmzhou/util/HttpUtil.java:359-366 | A null body is an `IllegalStateException("Response body is null")` and a failed read is that read's `IOException`. Otherwise the copy has the same code and headers and an in-memory body with the same content type and bytes. |
| Execution.BufferIsFinal | src/main/java/com/xmzhou/util/HttpUtil.java:363-366 | The buffered copy reads back to the same bytes, and buffering it again changes nothing. |
| Execution.Execute | src/main/java/com/xmzhou/util/HttpUtil.java:356-371 | A transport failure is rethrown as the same `IOException`, with nothing to close. A delivered response is always closed. The call succeeds exactly when the body is present and readable, and then returns the buffered copy with the same code and bytes. A null body gives `IllegalStateException`. |
| Execution.CallbackResolvesOnce | src/main/java/com/xmzhou/util/HttpUtil.java:384-406 | Each callback path resolves the future exactly once. `onResponse` closes the response exactly once, as its last act, and `onFailure` closes nothing. |
| Execution.CallbackEffects | src/main/java/com/xmzhou/util/HttpUtil.java:384-406 | `onFailure` only fails the future with the transport's `IOException`. `onResponse` first resolves the future, then closes the response. It completes the future with the buffered copy when buffering succeeds. Otherwise it fails the future with `IOException("Response body is null")`. |
| Execution.ExecuteAsync | src/main/java/com/xmzhou/util/HttpUtil.java:379-410 | The future is never left pending. A transport failure fails it with that `IOException`. A delivered response completes it with the buffered copy exactly when buffering succeeds, and otherwise fails it with `IOException("Response body is null")`. |
| Execution.ResolvedFutureIsFinal | src/main/java/com/xmzhou/util/HttpUtil.java:385-402 | Once the future is resolved, no further completion changes it. |
| Execution.FirstResolutionWins | src/main/java/com/xmzhou/util/HttpUtil.java:385-402 | A pending future takes the outcome of the first effect that resolves it. |
| Execution.PendingUntilResolved | src/main/java/com/xmzhou/util/HttpUtil.java:385-405 | A future that no `complete` or `completeExceptionally` reaches stays pending; closing the response in `finally` does not resolve it. |
| Execution.AsyncAgreesWithBlocking | src/main/java/com/xmzhou/util/HttpUtil.java:379-410 | `executeAsync` never leaves the future pending. It completes normally with exactly the copy `execute` returns. A transport failure fails it with the same `IOException`. Every other failure of `execute` (null body, failed read) becomes `IOException("Response body is null")`. |
| Scenarios.ReadTimeoutDecidesOutcome | src/test/java/com/xmzhou/HttpUtilTest.java:178-205 | Against a server that needs 3 seconds, a 2-second read timeout fails with the transport error. A 4-second read timeout returns the whole body, buffered. |
| Scenarios.UploadPutsFileBeforeField | src/test/java/com/xmzhou/HttpUtilTest.java:103-133 | The test's upload is a POST whose multipart body is the file part ("file", "test.txt") followed by the "description" field. |
| Scenarios.EmptyFileIsAccepted | src/test/java/com/xmzhou/HttpUtilTest.java:135-150 | A file with an empty name and no data is accepted and placed in the body with no local error. |

## Left out

- The lazy, double-checked construction of the shared `OkHttpClient` (lines 170-192): its point is concurrency. The model has no client object; the chain is the `Proceed` function.
- The logging interceptor, the curl interceptor and the Logback level change. `SetLogLevel` returns the chosen level instead of setting it. The logging interceptor runs at `Level.BODY` (line 150), so it reads the whole response body inside the chain, and a failed read can surface there as a transport failure. The network parameter covers that: it may answer any call with `CallFailed`.
- LogLevel.SetLogLevel: Java's `toUpperCase()` is locale-sensitive and Unicode-aware, but the model upper-cases ASCII letters only. So the model refuses texts such as "ınfo" that Java would map to "INFO". It also accepts "info", which Java refuses under a Turkish default locale.
- URL parsing and encoding: `HttpUrl` is abstract (the URL as given plus the query pairs added to it). OkHttp's own refusal of a non-empty malformed URL in the constructor is not modelled, nor the null `HttpUrl.parse` returns for one in `param`/`params`. The model accepts every non-empty URL.
- Form and multipart wire encoding, boundaries, and the content type of file parts: bodies are kept as their fields and parts.
- OkHttp's refusal, inside `Request.Builder`, of a POST or PUT with a null body: `BuildRequest` records the slot as handed to OkHttp, null included.
- OkHttp's validation of header names and values, and of negative timeouts.
- Null map keys, null fields of an `UploadFile`, and a null `body(String)` argument: what happens to them is decided inside OkHttp, not in this file.
- Builder.WithFormData: a null element of the file list cannot be represented (`seq<UploadFile>` has no null). Java throws `NullPointerException` on it at line 272, when `getName()` is called.
- Builder.WithParam: a null key cannot be represented. OkHttp's `addQueryParameter` throws `NullPointerException` for one.
- TimeoutConfig.Build: Java's `build()` returns the builder's live `HttpConfig` object, so a builder setter called after `build()` still changes the config already built. The model returns a value, so later builder setters do not reach it. `RequestBuilder` calls `build()` once, right after `builder()` (line 140), so the difference never arises there.
- The default branch of `buildRequest` ("http method not support"): `HttpMethod` has exactly four values, so that branch is unreachable and the model's match has no such case.
- Real network I/O, timeout expiry, and the dispatcher that runs `enqueue`. The network is a function parameter, and `ExecuteAsync` is observed after OkHttp delivers its one callback.
- Execution.ExecuteAsync: the request's tag is the builder's live `HttpConfig` object (line 141), and `buildRequest` copies only that reference (lines 329-348). The interceptor reads the getters (lines 157-162) when the dispatcher runs the chain, so in Java a timeout setter called after `executeAsync()` returns can still change the bounds of the queued call. The model fixes the config when `buildRequest` runs, so no later setter reaches a dispatched request. Likewise, Java's fluent calls return `this`, so an older reference to a builder sees later calls. The model's builder is a value, and each call returns a new one.
- `UploadFile`'s `Serializable` marker and its setters: the model builds the value directly.
