/**
 A model of the part of Go's net/http ResponseWriter that the download handler
 relies on. A handler's effect on the writer is a sequence of calls; the
 response the handler commits to the writer is obtained by running those calls
 from an unwritten response, following the net/http rules:
 - the first WriteHeader fixes the status; a later one is superfluous and ignored;
 - a Write before any WriteHeader implies WriteHeader(200);
 - header changes made after the status is out are not part of the committed response;
 - a Write that fails (the client is gone) delivers nothing.
 */
module Http {
  import opened Wrappers

  /** One call a handler makes on its http.ResponseWriter. */
  datatype Call =
    | SetHeader(key: string, value: string)  // w.Header().Set(key, value)
    | WriteHeader(code: int)                 // w.WriteHeader(code)
    | Write(data: string, failed: bool)      // w.Write(data); `failed` when the connection refuses it

  /** What the handler has committed to the writer: the status if any, the header
      block and the body. net/http may still alter it on the wire (see README). */
  datatype Response = Response(status: Option<int>, headers: map<string, string>, body: string)

  const StatusOK := 200

  /** The response before the handler has touched the writer. */
  const Unwritten := Response(None, map[], "")

  /** The effect of one call on the response. */
  function Apply(r: Response, c: Call): Response {
    match c
    case SetHeader(k, v) => if r.status.None? then r.(headers := r.headers[k := v]) else r
    case WriteHeader(code) => if r.status.None? then r.(status := Some(code)) else r
    case Write(data, failed) =>
      var s := if r.status.None? then r.(status := Some(StatusOK)) else r;
      if failed then s else s.(body := s.body + data)
  }

  /** The response after `calls`, made in order, starting from `r`. */
  function Run(r: Response, calls: seq<Call>): Response
    decreases |calls|
  {
    if calls == [] then r else Run(Apply(r, calls[0]), calls[1..])
  }

  /** Reference definition of the committed status: the one carried by the
      first call that carries a status, explicitly or through an implied 200. */
  function FirstStatus(calls: seq<Call>): Option<int>
    decreases |calls|
  {
    if calls == [] then None
    else match calls[0]
      case SetHeader(_, _) => FirstStatus(calls[1..])
      case WriteHeader(code) => Some(code)
      case Write(_, _) => Some(StatusOK)
  }

  /** Reference definition of the committed header block: `h` updated by the
      SetHeader calls that come before the first status-carrying call. */
  function HeadersBeforeStatus(h: map<string, string>, calls: seq<Call>): map<string, string>
    decreases |calls|
  {
    if calls == [] then h
    else match calls[0]
      case SetHeader(k, v) => HeadersBeforeStatus(h[k := v], calls[1..])
      case WriteHeader(_) => h
      case Write(_, _) => h
  }

  /** Reference definition of the committed body: the data of every Write
      that did not fail, in order. */
  function Delivered(calls: seq<Call>): string
    decreases |calls|
  {
    if calls == [] then ""
    else (if calls[0].Write? && !calls[0].failed then calls[0].data else "") + Delivered(calls[1..])
  }

  /** How many times WriteHeader is called. */
  function StatusWrites(calls: seq<Call>): nat
    decreases |calls|
  {
    if calls == [] then 0
    else (if calls[0].WriteHeader? then 1 else 0) + StatusWrites(calls[1..])
  }

  /** Running two call sequences one after the other is running their concatenation. */
  lemma {:induction false} RunAppend(r: Response, t: seq<Call>, u: seq<Call>)
    ensures Run(r, t + u) == Run(Run(r, t), u)
    decreases |t|
  {
    if t == [] {
      assert t + u == u;
    } else {
      assert (t + u)[0] == t[0];
      assert (t + u)[1..] == t[1..] + u;
      RunAppend(Apply(r, t[0]), t[1..], u);
    }
  }

  /** Once the status line is out, no later call changes the status or the headers. */
  lemma {:induction false} StatusFrozen(r: Response, calls: seq<Call>)
    requires r.status.Some?
    ensures Run(r, calls).status == r.status
    ensures Run(r, calls).headers == r.headers
    decreases |calls|
  {
    if calls != [] {
      StatusFrozen(Apply(r, calls[0]), calls[1..]);
    }
  }

  /** The committed status is the first one written. */
  lemma {:induction false} RunStatus(r: Response, calls: seq<Call>)
    requires r.status.None?
    ensures Run(r, calls).status == FirstStatus(calls)
    decreases |calls|
  {
    if calls != [] {
      var s := Apply(r, calls[0]);
      if s.status.None? {
        RunStatus(s, calls[1..]);
      } else {
        StatusFrozen(s, calls[1..]);
      }
    }
  }

  /** The committed headers are those set before the status was written. */
  lemma {:induction false} RunHeaders(r: Response, calls: seq<Call>)
    requires r.status.None?
    ensures Run(r, calls).headers == HeadersBeforeStatus(r.headers, calls)
    decreases |calls|
  {
    if calls != [] {
      var s := Apply(r, calls[0]);
      if s.status.None? {
        RunHeaders(s, calls[1..]);
      } else {
        StatusFrozen(s, calls[1..]);
      }
    }
  }

  /** The committed body is what was already there followed by every delivered write. */
  lemma {:induction false} RunBody(r: Response, calls: seq<Call>)
    ensures Run(r, calls).body == r.body + Delivered(calls)
    decreases |calls|
  {
    if calls != [] {
      RunBody(Apply(r, calls[0]), calls[1..]);
    }
  }

  /** The response a call sequence produces on a fresh writer, by the reference definitions. */
  lemma Characterized(calls: seq<Call>)
    ensures Run(Unwritten, calls) ==
            Response(FirstStatus(calls), HeadersBeforeStatus(map[], calls), Delivered(calls))
  {
    RunStatus(Unwritten, calls);
    RunHeaders(Unwritten, calls);
    RunBody(Unwritten, calls);
  }

  /** The writer a handler is given. Its fields are the response committed so far;
      the ghost `calls` records every call made on it so far. */
  class ResponseWriter {
    var status: Option<int>
    var headers: map<string, string>
    var body: string
    ghost var calls: seq<Call>

    ghost predicate Valid()
      reads this
    {
      Response(status, headers, body) == Run(Unwritten, calls)
    }

    function Current(): Response
      reads this
    {
      Response(status, headers, body)
    }

    constructor ()
      ensures Valid() && calls == []
      ensures status == None && headers == map[] && body == ""
    {
      status, headers, body := None, map[], "";
      calls := [];
    }

    /** The writer is valid after one more call exactly when its fields are those of Apply. */
    lemma Step(c: Call)
      requires Valid()
      ensures Run(Unwritten, calls + [c]) == Apply(Current(), c)
    {
      RunAppend(Unwritten, calls, [c]);
    }

    /** w.Header().Set(key, value) */
    method SetHeader(key: string, value: string)
      requires Valid()
      modifies this
      ensures Valid() && calls == old(calls) + [Call.SetHeader(key, value)]
      ensures status == old(status) && body == old(body)
      ensures headers == if old(status).None? then old(headers)[key := value] else old(headers)
    {
      Step(Call.SetHeader(key, value));
      if status.None? {
        headers := headers[key := value];
      }
      calls := calls + [Call.SetHeader(key, value)];
    }

    /** w.WriteHeader(code); net/http panics on codes outside 100..999, so callers never pass one. */
    method WriteHeader(code: int)
      requires Valid()
      requires 100 <= code <= 999
      modifies this
      ensures Valid() && calls == old(calls) + [Call.WriteHeader(code)]
      ensures status == if old(status).None? then Some(code) else old(status)
      ensures headers == old(headers) && body == old(body)
    {
      Step(Call.WriteHeader(code));
      if status.None? {
        status := Some(code);
      }
      calls := calls + [Call.WriteHeader(code)];
    }

    /** w.Write(data); `fails` stands for the connection refusing the bytes,
        which the model cannot predict. `ok` is false exactly when it fails. */
    method Write(data: string, fails: bool) returns (ok: bool)
      requires Valid()
      modifies this
      ensures Valid() && calls == old(calls) + [Call.Write(data, fails)]
      ensures ok == !fails
      ensures status == if old(status).None? then Some(StatusOK) else old(status)
      ensures headers == old(headers)
      ensures body == if fails then old(body) else old(body) + data
    {
      Step(Call.Write(data, fails));
      if status.None? {
        status := Some(StatusOK);
      }
      if !fails {
        body := body + data;
      }
      ok := !fails;
      calls := calls + [Call.Write(data, fails)];
    }
  }
}
