# gitreleases download handler, in Dafny

gitreleases is a small HTTP redirector. A request `GET /gh/{owner}/{repo}/{tag}/{assetName}`
is handled by `DownloadRelease`. The handler passes the four path variables to the GitHub
client's `FetchReleaseURL` under a two-second deadline (`requestTimeout`). It then answers with
exactly one status, chosen by a fixed precedence where the first match wins:

1. the deadline context reports an error: 502, body `Bad Gateway`;
2. a `GitHubError` of type `TypeNotFound`: 404, body = the wrapped error's message;
3. any other `GitHubError`: 500, body = the fixed text `Internal Server Error`;
4. any other error: 500, body = that error's own message;
5. success: 301 with `Location` set to the returned URL and no body.

Error bodies go through `writeHTTPError`. It writes the status, then the message with
`fmt.Fprintln`, so every error body ends in a newline. A failed body write is only logged.

The project has three modules:

- `Wrappers` (wrappers.dfy): `Option`.
- `Http` (http.dfy): the parts of Go's `http.ResponseWriter` that the handler uses. A handler's
  effect is the sequence of calls it makes (`Call`). `Run` replays the calls into the response
  the handler commits to the writer, following net/http's rules:
  - the first `WriteHeader` wins and a later one is ignored;
  - a `Write` before any status implies 200;
  - headers set after the status is out are not sent;
  - a failed `Write` delivers nothing.

  Lemmas prove that `Run` agrees with three independent reference definitions: the first status
  (`FirstStatus`), the headers set before it (`HeadersBeforeStatus`) and the delivered writes
  (`Delivered`). The class `ResponseWriter` holds the mutable `status`, `headers` and `body`. A
  ghost field records the calls made on it, and `Valid()` ties the fields to `Run` of those
  calls.
- `Api` (api.dfy): the classification (`Classify`), the calls the handler makes
  (`ErrorCalls`, `HandlerCalls`), and the response a fresh writer ends up with (`Handle`). It
  also holds one lemma per outcome and the imperative `WriteHttpError` and `DownloadRelease`
  methods over a `ResponseWriter`.

Inputs the model cannot see are parameters:
- `FetchReleaseURL` is the function `fetch: AssetRef -> FetchResult`. `FetchResult` is one of:
  - `Found(url)`: a nil error;
  - `GitHubFailure(kind, wrapped)`: a `GitHubError`;
  - `OtherFailure(message)`: any other error.
- `ctx.Err() != nil` is the boolean `ctxErr`. `ContextErr` relates it to the parent request's
  cancellation and to the time elapsed against `RequestTimeoutMs` = 2000.
- Whether `fmt.Fprintln`'s write fails is the boolean `writeFails`.

Where descriptions of this handler and the code differ, the model follows the code:
- A `GitHubError` whose type is not `TypeNotFound` gets the fixed body `Internal Server Error`.
  It does not get the upstream detail (api.go:53).
- A non-`GitHubError` error forwards its own message even when that message is empty. There is
  no fallback text in that case (api.go:58).
- Every error body carries the newline that `fmt.Fprintln` appends.
- A timeout is not a resolver result. It is `ctx.Err()`, checked after the resolver returns, so
  it overrides success and every error alike (api.go:39).

## Model

| member | source | states |
|---|---|---|
| `Http.RunAppend` | api.go:64-65 | Making two call sequences one after the other on a writer is the same as making their concatenation. |
| `Http.StatusFrozen` | api.go:64-65 | Once a status has been written, no later call changes the committed status or header block. |
| `Http.RunStatus` | api.go:64-65 | The committed status is the one carried by the first status-bearing call (an explicit `WriteHeader`, or the 200 implied by an early `Write`). |
| `Http.RunHeaders` | api.go:64-65 | The committed headers are exactly those set before the status was written. |
| `Http.RunBody` | api.go:69-70 | The committed body is the data of every `Write` that did not fail, in order. |
| `Http.Characterized` | api.go:64-65 | The response produced on a fresh writer equals the one given by the three reference definitions. |
| `Http.ResponseWriter.constructor` | api.go:30 | A handler starts with a writer with no status, no headers and no body. |
| `Http.ResponseWriter.Step` | api.go:64-65 | One more call moves the writer's response forward by exactly that call's effect. |
| `Http.ResponseWriter.SetHeader` | api.go:64 | `Header().Set` replaces the value of the key if the status is not yet out, and otherwise changes nothing sent. |
| `Http.ResponseWriter.WriteHeader` | api.go:65 | `WriteHeader` fixes the status if none is out yet; a later call is superfluous and changes nothing. |
| `Http.ResponseWriter.Write` | api.go:70 | `Write` implies status 200 if none is out, appends its data unless the write fails, and reports failure. |
| `Api.FetchArgs` | api.go:34-38 | The resolver gets `owner`, `repo`, `tag` and `assetName` from the path variables, verbatim and in that order, unvalidated. |
| `Api.Classify` | api.go:39-60 | 502 exactly when the context reports an error; a redirect exactly when there is no context error and the resolver succeeded, to the returned URL; no status other than 301, 404, 500 or 502. |
| `Api.ErrorCalls` | api.go:68-73 | `writeHTTPError` makes `WriteHeader(code)` its first call and only `Write` calls after it, so the status is written once and before anything else; the body is the message plus a newline, or nothing if the write fails. |
| `Api.HandlerCalls` | api.go:39-65 | Every path calls `WriteHeader` exactly once, it carries the classified status, and only body writes come after it. |
| `Api.HandleCharacterized` | api.go:39-65 | The handler commits 301 with `Location` only and no body on a redirect, and otherwise the classified status with no headers and the message line as body. |
| `Api.DeadlineWins` | api.go:39-43 | A context error gives 502 with body `Bad Gateway\n`, whatever the resolver returned, success and not-found included. |
| `Api.RedirectOnlyOnSuccess` | api.go:39-44 | Status 301 iff no context error and no resolver error; then `Location` is the returned URL and the body is empty. |
| `Api.NotFoundForwardsMessage` | api.go:46-50 | A not-found `GitHubError` gives 404 with the wrapped error's message plus a newline. |
| `Api.OtherGitHubErrorHidden` | api.go:51-54 | Any other `GitHubError` gives 500 with `Internal Server Error\n`, and the response does not depend on the wrapped message. |
| `Api.OtherErrorForwardsMessage` | api.go:57-59 | An error that is not a `GitHubError` gives 500 with its own message plus a newline. |
| `Api.WriteFailureKeepsStatus` | api.go:69-72 | A failed body write leaves the status and headers as they would have been, and delivers no body. |
| `Api.SlowResolverIsBadGateway` | api.go:14-43 | If the request was cancelled or `requestTimeout` (2 s) has elapsed when the resolver returns, the status is 502. |
| `Api.PromptSuccessRedirects` | api.go:14-39 | A resolver that succeeds within 2 s on a live request yields 301 to its URL with no body. |
| `Api.WriteHttpError` | api.go:68-73 | Makes exactly the calls of `ErrorCalls` on the writer; on a fresh writer it leaves their response. |
| `Api.DownloadRelease` | api.go:30-66 | Calls the resolver on `FetchArgs(vars)` and makes exactly the calls of `HandlerCalls` on the writer; on a fresh writer it leaves the response `Handle`. |

## Left out

- `Start`, `Shutdown` and `NewAPIServer` (api.go:23-28, 75-93) are not modelled. They are server lifecycle, route registration and transport settings on top of `net/http` and `gorilla/mux`.
- The real deadline timer and its race with the resolver are not modelled. They are concurrency and wall-clock time. The handler takes `ctxErr`, and `ContextErr` states when the context reports an error.
- `GithubClient.FetchReleaseURL` and the `GitHubError` definitions are not part of this model. The resolver is a function parameter. `GitHubErrorType` tells only `TypeNotFound` apart, which is all the handler inspects.
- Every `log15` call (api.go:31-32, 40, 48, 52, 57, 62, 71) is left out. Logging does not affect the response.
- `mux.Vars` path parsing is not modelled. The path variables are a map, and a missing key reads as the empty string, as a Go map does.
- Go's `WriteHeader` treats 1xx informational codes specially. The model leaves this out because the handler never writes one.
- Go sniffs a `Content-Type` and sets `Content-Length` for the body. The model leaves these out because they are added by net/http, not by the handler.
- Http.ResponseWriter.SetHeader: stores the key as given and does not canonicalise its capitalisation as net/http does. The handler only sets `Location`, which is already canonical.
- Http.ResponseWriter.Write: a failed write delivers nothing. A real connection may have sent part of the bytes before failing.
- The model describes the response the handler commits to the writer, not the bytes on the wire. Two net/http behaviours after that point are left out:
  - For a HEAD request, net/http drops the body that `Fprintln` writes and reports the write as successful, so the client gets the status with no body. The route accepts any method (api.go:90).
  - net/http replaces CR and LF in header values with spaces and trims them, so the `Location` sent can differ from the resolver's URL.
- The model assumes every `GitHubError` wraps a non-nil error. With a nil wrapped error, `t.WrappedError.Error()` (api.go:49) panics before `WriteHeader` runs, and net/http aborts the response with no status. The `GitHubError` type is not part of this model, so whether a nil wrapped error can occur cannot be decided here.
- Http.ResponseWriter.WriteHeader: requires a code in 100..999. net/http panics on any other code, and the handler only writes 301, 404, 500 and 502.
