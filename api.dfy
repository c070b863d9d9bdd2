/**
 The release-download handler: it forwards the four path variables to the
 GitHub resolver, then answers with exactly one status chosen by a fixed
 precedence (deadline error, GitHub not-found, other GitHub error, any other
 error, success) and, on error, a one-line body.
 */
module Api {
  import opened Wrappers
  import opened Http

  /** requestTimeout, in milliseconds: the deadline placed on the resolver call. */
  const RequestTimeoutMs := 2000

  const StatusMovedPermanently := 301
  const StatusNotFound := 404
  const StatusInternalServerError := 500
  const StatusBadGateway := 502

  /** The path variables forwarded to the resolver, in the order it takes them. */
  datatype AssetRef = AssetRef(owner: string, repo: string, tag: string, assetName: string)

  /** The category a GitHubError carries; only TypeNotFound is told apart. */
  datatype GitHubErrorType = TypeNotFound | TypeOther

  /** What FetchReleaseURL returns: a URL with a nil error, a GitHubError
      (its type and the message of the error it wraps), or any other error. */
  datatype FetchResult =
    | Found(url: string)
    | GitHubFailure(kind: GitHubErrorType, wrapped: string)
    | OtherFailure(message: string)

  /** The decision the handler takes: redirect, or an error status with its message. */
  datatype Reply = Redirect(location: string) | HttpError(code: int, message: string)

  /** ctx.Err() != nil for the context made by context.WithTimeout(r.Context(),
      requestTimeout), read `elapsedMs` after it was made: the request's own
      context was cancelled, or the deadline has been reached. */
  function ContextErr(parentErr: bool, elapsedMs: nat): bool {
    parentErr || elapsedMs >= RequestTimeoutMs
  }

  /** vars[name] on a Go map: the empty string when the key is absent. */
  function Var(vars: map<string, string>, name: string): string {
    if name in vars then vars[name] else ""
  }

  /** The arguments the handler passes to FetchReleaseURL, taken verbatim from the path variables. */
  function FetchArgs(vars: map<string, string>): (a: AssetRef)
    ensures "owner" in vars ==> a.owner == vars["owner"]
    ensures "repo" in vars ==> a.repo == vars["repo"]
    ensures "tag" in vars ==> a.tag == vars["tag"]
    ensures "assetName" in vars ==> a.assetName == vars["assetName"]
  {
    AssetRef(Var(vars, "owner"), Var(vars, "repo"), Var(vars, "tag"), Var(vars, "assetName"))
  }

  /** The classification, first match wins: a context error beats every resolver
      result; a not-found GitHubError forwards its wrapped message; any other
      GitHubError hides it behind a fixed text; any other error forwards its own
      message; success redirects. */
  function Classify(ctxErr: bool, res: FetchResult): (r: Reply)
    ensures (r.HttpError? && r.code == StatusBadGateway) <==> ctxErr
    ensures r.Redirect? <==> !ctxErr && res.Found?
    ensures r.Redirect? ==> r.location == res.url
    ensures r.HttpError? ==> r.code in {StatusNotFound, StatusInternalServerError, StatusBadGateway}
  {
    if ctxErr then HttpError(StatusBadGateway, "Bad Gateway")
    else match res
      case GitHubFailure(kind, wrapped) =>
        if kind == TypeNotFound then HttpError(StatusNotFound, wrapped)
        else HttpError(StatusInternalServerError, "Internal Server Error")
      case OtherFailure(message) => HttpError(StatusInternalServerError, message)
      case Found(url) => Redirect(url)
  }

  /** What fmt.Fprintln writes for a single string: the string and a newline. */
  function Line(message: string): string {
    message + "\n"
  }

  /** The error body writeHTTPError gets through: nothing if the write fails. */
  function ErrorBody(message: string, writeFails: bool): string {
    if writeFails then "" else Line(message)
  }

  /** The calls writeHTTPError makes: the status first, then the body in one write. */
  function ErrorCalls(code: int, message: string, writeFails: bool): (calls: seq<Call>)
    ensures |calls| > 0 && calls[0] == WriteHeader(code)
    ensures forall i | 0 < i < |calls| :: calls[i].Write?
    ensures StatusWrites(calls) == 1 && FirstStatus(calls) == Some(code)
    ensures Delivered(calls) == ErrorBody(message, writeFails)
  {
    var calls := [WriteHeader(code), Write(Line(message), writeFails)];
    var body := calls[1..];
    assert body == [Write(Line(message), writeFails)] && body[1..] == [];
    assert StatusWrites(body) == 0;
    assert Delivered(calls) == "" + Delivered(body) == Delivered(body);
    calls
  }

  /** The calls DownloadRelease makes on its writer once the resolver has answered. */
  function HandlerCalls(ctxErr: bool, res: FetchResult, writeFails: bool): (calls: seq<Call>)
    ensures StatusWrites(calls) == 1
    ensures FirstStatus(calls) == Some(match Classify(ctxErr, res)
                                       case Redirect(_) => StatusMovedPermanently
                                       case HttpError(code, _) => code)
    ensures forall i, j :: 0 <= i < j < |calls| && calls[i].WriteHeader? ==> calls[j].Write?
  {
    match Classify(ctxErr, res)
    case Redirect(url) =>
      var calls := [SetHeader("Location", url), WriteHeader(StatusMovedPermanently)];
      var status := calls[1..];
      assert status == [WriteHeader(StatusMovedPermanently)] && status[1..] == [];
      assert StatusWrites(status) == 1;
      calls
    case HttpError(code, message) => ErrorCalls(code, message, writeFails)
  }

  /** The response DownloadRelease commits to a fresh writer. */
  function Handle(ctxErr: bool, res: FetchResult, writeFails: bool): Response {
    Run(Unwritten, HandlerCalls(ctxErr, res, writeFails))
  }

  /** The response the handler sends, read off the reference definitions of the writer. */
  lemma HandleCharacterized(ctxErr: bool, res: FetchResult, writeFails: bool)
    ensures Handle(ctxErr, res, writeFails) ==
            match Classify(ctxErr, res)
            case Redirect(url) => Response(Some(StatusMovedPermanently), map["Location" := url], "")
            case HttpError(code, message) => Response(Some(code), map[], ErrorBody(message, writeFails))
  {
    var calls := HandlerCalls(ctxErr, res, writeFails);
    Characterized(calls);
    match Classify(ctxErr, res)
    case Redirect(url) =>
      assert calls[1..] == [WriteHeader(StatusMovedPermanently)] && calls[1..][1..] == [];
      assert HeadersBeforeStatus(map[], calls) == map["Location" := url];
      assert Delivered(calls[1..]) == "";
    case HttpError(code, message) =>
      assert calls[1..] == [Write(Line(message), writeFails)] && calls[1..][1..] == [];
  }

  /** A context error gives 502 "Bad Gateway" whatever the resolver returned, success included. */
  lemma DeadlineWins(res: FetchResult, writeFails: bool)
    ensures Handle(true, res, writeFails) ==
            Response(Some(StatusBadGateway), map[], ErrorBody("Bad Gateway", writeFails))
  {
    HandleCharacterized(true, res, writeFails);
  }

  /** 301 is sent exactly when the context is fine and the resolver succeeded;
      then Location is the returned URL and there is no body. */
  lemma RedirectOnlyOnSuccess(ctxErr: bool, res: FetchResult, writeFails: bool)
    ensures Handle(ctxErr, res, writeFails).status == Some(StatusMovedPermanently)
            <==> !ctxErr && res.Found?
    ensures !ctxErr && res.Found? ==>
            Handle(ctxErr, res, writeFails) ==
            Response(Some(StatusMovedPermanently), map["Location" := res.url], "")
  {
    HandleCharacterized(ctxErr, res, writeFails);
  }

  /** A not-found GitHubError gives 404 with the wrapped error's message and a newline. */
  lemma NotFoundForwardsMessage(wrapped: string, writeFails: bool)
    ensures Handle(false, GitHubFailure(TypeNotFound, wrapped), writeFails) ==
            Response(Some(StatusNotFound), map[], ErrorBody(wrapped, writeFails))
  {
    HandleCharacterized(false, GitHubFailure(TypeNotFound, wrapped), writeFails);
  }

  /** Any other GitHubError gives 500 with the fixed text; the wrapped message is never written. */
  lemma OtherGitHubErrorHidden(kind: GitHubErrorType, wrapped: string, other: string, writeFails: bool)
    requires kind != TypeNotFound
    ensures Handle(false, GitHubFailure(kind, wrapped), writeFails) ==
            Response(Some(StatusInternalServerError), map[], ErrorBody("Internal Server Error", writeFails))
    ensures Handle(false, GitHubFailure(kind, wrapped), writeFails) ==
            Handle(false, GitHubFailure(kind, other), writeFails)
  {
    HandleCharacterized(false, GitHubFailure(kind, wrapped), writeFails);
    HandleCharacterized(false, GitHubFailure(kind, other), writeFails);
  }

  /** Any error that is not a GitHubError gives 500 with its own message, even an empty one. */
  lemma OtherErrorForwardsMessage(message: string, writeFails: bool)
    ensures Handle(false, OtherFailure(message), writeFails) ==
            Response(Some(StatusInternalServerError), map[], ErrorBody(message, writeFails))
  {
    HandleCharacterized(false, OtherFailure(message), writeFails);
  }

  /** A failed body write is only logged: it changes neither the status nor the headers. */
  lemma WriteFailureKeepsStatus(ctxErr: bool, res: FetchResult)
    ensures Handle(ctxErr, res, true).status == Handle(ctxErr, res, false).status
    ensures Handle(ctxErr, res, true).headers == Handle(ctxErr, res, false).headers
    ensures Handle(ctxErr, res, true).body == ""
  {
    HandleCharacterized(ctxErr, res, true);
    HandleCharacterized(ctxErr, res, false);
  }

  /** A resolver still busy when requestTimeout elapses, or a request already
      cancelled, ends in 502 even if the resolver would have succeeded. */
  lemma SlowResolverIsBadGateway(parentErr: bool, elapsedMs: nat, res: FetchResult, writeFails: bool)
    requires parentErr || elapsedMs >= RequestTimeoutMs
    ensures Handle(ContextErr(parentErr, elapsedMs), res, writeFails).status == Some(StatusBadGateway)
  {
    DeadlineWins(res, writeFails);
  }

  /** A resolver that succeeds within requestTimeout, on a live request, ends in a redirect. */
  lemma PromptSuccessRedirects(elapsedMs: nat, url: string, writeFails: bool)
    requires elapsedMs < RequestTimeoutMs
    ensures Handle(ContextErr(false, elapsedMs), Found(url), writeFails) ==
            Response(Some(StatusMovedPermanently), map["Location" := url], "")
  {
    RedirectOnlyOnSuccess(false, Found(url), writeFails);
  }

  /** writeHTTPError: the status, then the message as one line; a failed
      write is only logged (logging is not modelled). */
  method WriteHttpError(w: ResponseWriter, code: int, message: string, writeFails: bool)
    requires w.Valid() && 100 <= code <= 999
    modifies w
    ensures w.Valid() && w.calls == old(w.calls) + ErrorCalls(code, message, writeFails)
    ensures old(w.calls) == [] ==> w.Current() == Run(Unwritten, ErrorCalls(code, message, writeFails))
  {
    w.WriteHeader(code);
    var ok := w.Write(Line(message), writeFails);
  }

  /** DownloadRelease. The resolver is the function `fetch`, called once on the
      path variables; `ctxErr` is what ctx.Err() reports once it has returned;
      `writeFails` is whether the error body's write fails. */
  method DownloadRelease(w: ResponseWriter, vars: map<string, string>,
                         fetch: AssetRef -> FetchResult, ctxErr: bool, writeFails: bool)
    requires w.Valid()
    modifies w
    ensures w.Valid()
    ensures w.calls == old(w.calls) + HandlerCalls(ctxErr, fetch(FetchArgs(vars)), writeFails)
    ensures old(w.calls) == [] ==> w.Current() == Handle(ctxErr, fetch(FetchArgs(vars)), writeFails)
  {
    var res := fetch(FetchArgs(vars));
    if ctxErr {
      WriteHttpError(w, StatusBadGateway, "Bad Gateway", writeFails);
      return;
    }
    if !res.Found? {
      if res.GitHubFailure? {
        if res.kind == TypeNotFound {
          WriteHttpError(w, StatusNotFound, res.wrapped, writeFails);
          return;
        } else {
          WriteHttpError(w, StatusInternalServerError, "Internal Server Error", writeFails);
          return;
        }
      }
      WriteHttpError(w, StatusInternalServerError, res.message, writeFails);
      return;
    }
    w.SetHeader("Location", res.url);
    w.WriteHeader(StatusMovedPermanently);
    assert old(w.calls) == [] ==> w.calls == HandlerCalls(ctxErr, res, writeFails);
  }
}
