/**
 * The middle generation's handlers (gzserver.go): `add` and `remove` on the
 * store, and `root`, which answers an incoming request from the first stored
 * rule whose filter it passes. A handler's effect on the `ResponseWriter` is
 * modelled by the reply the client receives.
 */
module GzServer {
  import opened Wrappers
  import opened Http
  import opened Model
  import opened Controller
  import GzStore
  import PriorityOrder

  /** The body of the 501 answer when no rule matches. */
  const NoMatchBody: string := "No expectations in gozzmock for request!"

  /** The text of `reportError`'s 500 answer. */
  const ErrorText: string := "Gozzmock. Something went wrong"

  /**
   * What the client receives: the status written first (200 when the handler
   * writes a body without one), the headers set before it, and the body
   * written; or a panic in the handler.
   */
  datatype Reply = Reply(code: int, header: Headers, body: string) | Panic(reason: string)

  /** The library routines the handlers call but whose code is not modelled. */
  datatype Library = Library(re: Regexp, net: Net, js: JsEngine<ExpectationRequest>)

  /** The status codes `ResponseWriter.WriteHeader` accepts; any other panics. */
  predicate ValidCode(code: int) {
    100 <= code <= 999
  }

  /**
   * `http.Error` on a writer that has written nothing yet: plain-text content
   * type, `nosniff`, the status, and the text followed by a newline.
   */
  function HttpError(header: Headers, text: string, code: int): (r: Reply)
    ensures ValidCode(code) ==> r.Reply? && r.code == code && r.body == text + "\n"
    ensures !ValidCode(code) ==> r.Panic?
  {
    if !ValidCode(code) then Panic("invalid WriteHeader code")
    else Reply(code, header["Content-Type" := "text/plain; charset=utf-8"]["X-Content-Type-Options" := "nosniff"],
               text + "\n")
  }

  /** `reportError`: status 500 with the fixed diagnostic text. */
  function ReportError(header: Headers): (r: Reply)
    ensures r.Reply? && r.code == 500 && r.body == ErrorText + "\n"
  {
    HttpError(header, ErrorText, 500)
  }

  /**
   * `JsTemplateCreateResponseBody` (jstemplate.go): decode the base64 script
   * and run it with `request` bound. A decoding failure is reported with the
   * decoded text, which is empty on failure, in place of the script.
   */
  function JsTemplateCreateResponseBody(js: JsEngine<ExpectationRequest>, tmpl: string, req: ExpectationRequest)
    : (r: Result<string>)
    ensures js.decodeBase64(tmpl).Ok? && js.run(js.decodeBase64(tmpl).value, req).Ok? ==>
              r == js.run(js.decodeBase64(tmpl).value, req)
  {
    match js.decodeBase64(tmpl)
    case Err(e) => Err("Error decoding from base64 template " + "" + " \n " + e)
    case Ok(decodedTmpl) =>
      match js.run(decodedTmpl, req)
      case Err(e) => Err("Error running template " + decodedTmpl + " \n " + e)
      case Ok(value) => Ok(value)
  }

  /** A decoding failure's message never names the script, whatever the script was. */
  lemma DecodeErrorOmitsTemplate(js: JsEngine<ExpectationRequest>, tmpl: string, req: ExpectationRequest)
    requires js.decodeBase64(tmpl).Err?
    ensures JsTemplateCreateResponseBody(js, tmpl, req) ==
              Err("Error decoding from base64 template  \n " + js.decodeBase64(tmpl).message)
  {
  }

  /**
   * The reply `createResponseFromExpectation` produces once the response
   * headers have been set, giving `written`: a script failure is reported by
   * `http.Error` with status 500; otherwise the status is written (an invalid
   * one panics) and then the body, the script's output when a script is given.
   */
  function ResponseReply(js: JsEngine<ExpectationRequest>, resp: ExpectationResponse, req: ExpectationRequest,
                         written: Headers): Reply
  {
    var rendered := if |resp.jsTemplate| > 0 then JsTemplateCreateResponseBody(js, resp.jsTemplate, req)
                    else Ok(resp.body);
    if rendered.Err? then HttpError(written, rendered.message, 500)
    else if !ValidCode(resp.httpCode) then Panic("invalid WriteHeader code")
    else Reply(resp.httpCode, written, rendered.value)
  }

  /** With a script present the literal body is never written. */
  lemma TemplateOverridesBody(js: JsEngine<ExpectationRequest>, resp: ExpectationResponse, req: ExpectationRequest,
                              written: Headers, otherBody: string)
    requires |resp.jsTemplate| > 0
    ensures ResponseReply(js, resp, req, written) == ResponseReply(js, resp.(body := otherBody), req, written)
  {
  }

  /**
   * A script failure answers 500 with the error text, whatever the rule's
   * status and literal body (the rule's status is never written).
   */
  lemma TemplateErrorAnswers500(js: JsEngine<ExpectationRequest>, resp: ExpectationResponse, req: ExpectationRequest,
                                written: Headers, otherCode: int, otherBody: string)
    requires |resp.jsTemplate| > 0 && JsTemplateCreateResponseBody(js, resp.jsTemplate, req).Err?
    ensures var reply := ResponseReply(js, resp, req, written);
            && reply.Reply? && reply.code == 500
            && reply.body == JsTemplateCreateResponseBody(js, resp.jsTemplate, req).message + "\n"
            && reply == ResponseReply(js, resp.(httpCode := otherCode, body := otherBody), req, written)
  {
  }

  /** `createResponseFromExpectation`: set the rule's headers one by one, then reply. */
  method CreateResponseFromExpectation(canon: string -> string, js: JsEngine<ExpectationRequest>,
                                       resp: ExpectationResponse, req: ExpectationRequest)
    returns (reply: Reply)
    ensures exists written :: AfterSets(canon, map[], HeadersOrEmpty(resp.headers), written)
                           && reply == ResponseReply(js, resp, req, written)
  {
    var written := SetHeaders(canon, map[], HeadersOrEmpty(resp.headers));
    var resposneBody := resp.body;
    if |resp.jsTemplate| > 0 {
      var rendered := JsTemplateCreateResponseBody(js, resp.jsTemplate, req);
      if rendered.Err? {
        return HttpError(written, rendered.message, 500);
      }
      resposneBody := rendered.value;
    }
    if !ValidCode(resp.httpCode) {
      return Panic("invalid WriteHeader code");
    }
    reply := Reply(resp.httpCode, written, resposneBody);
  }

  /**
   * The reply `doHTTPRequest` produces for the transport's answer once its
   * flattened headers have been set, giving `written`: a transport error is
   * answered by `reportError` (the panic-level event carries no message and is
   * never sent); otherwise the status is written (an invalid one panics) and
   * the body copied, and a failure while copying appends `reportError`'s text.
   */
  function TransportReply(t: TransportResult, written: Headers): Reply {
    match t
    case TransportFailed(_) => ReportError(map[])
    case NoResponse => Panic("response is nil")
    case Delivered(resp) =>
      if !ValidCode(resp.statusCode) then Panic("invalid WriteHeader code")
      else if resp.body.Err? then Reply(resp.statusCode, written, ErrorText + "\n")
      else Reply(resp.statusCode, written, resp.body.value)
  }

  /** The headers `doHTTPRequest` sets on the writer for a transport answer. */
  ghost predicate TransportHeaders(canon: string -> string, t: TransportResult, written: Headers) {
    t.Delivered? ==> AfterSets(canon, map[], Joined(t.response.header), written)
  }

  /**
   * `applyExpectation` after the delay: the response action if there is one;
   * else the forward action, where a request that cannot be built arrives at
   * `doHTTPRequest` as nil and panics; else nothing is written, which the
   * client receives as an empty 200.
   */
  ghost predicate Dispatched(lib: Library, transport: OutboundRequest -> TransportResult, exp: Expectation,
                             req: ExpectationRequest, reply: Reply)
    reads ForwardOf(exp)
  {
    if exp.response.Some? then
      exists written :: AfterSets(lib.net.canonicalHeaderKey, map[], HeadersOrEmpty(exp.response.value.headers), written)
                     && reply == ResponseReply(lib.js, exp.response.value, req, written)
    else if exp.forward.Some? then
      var fwd := exp.forward.value;
      var url := ForwardURL(fwd.scheme, fwd.host, req.path);
      if !lib.net.urlParses(url) || NewRequest(lib.net, req.httpMethod, url, fwd.host, req.body).Err? then
        reply == Panic("http.Request is nil")
      else
        exists o, written ::
          && IsForwardRequest(lib.net, req.httpMethod, req.path, req.body, HeadersOrEmpty(req.headers),
                              fwd.scheme, fwd.host, HeadersOrEmpty(fwd.headers), o)
          && TransportHeaders(lib.net.canonicalHeaderKey, transport(o), written)
          && reply == TransportReply(transport(o), written)
    else
      reply == Reply(200, map[], "")
  }

  /**
   * The scanning loop of `root`: the index of the first rule in `ordered`
   * whose filter the request passes, or `|ordered|` when there is none.
   */
  method FirstPassing(re: Regexp, req: ExpectationRequest, ordered: seq<Expectation>) returns (i: int)
    ensures 0 <= i <= |ordered|
    ensures forall j | 0 <= j < i :: !ControllerRequestPassesFilter(re, req, ordered[j].request)
    ensures i < |ordered| ==> ControllerRequestPassesFilter(re, req, ordered[i].request)
  {
    i := 0;
    while i < |ordered|
      invariant 0 <= i <= |ordered|
      invariant forall j | 0 <= j < i :: !ControllerRequestPassesFilter(re, req, ordered[j].request)
    {
      var exp := ordered[i];
      if !ControllerRequestPassesFilter(re, req, exp.request) {
        i := i + 1;
        continue;
      }
      return;
    }
  }

  /** `gzServer`: the store, and the transport `http.Client` sends forward requests through. */
  class GzServer {
    const storage: GzStore.GzStorage
    const transport: OutboundRequest -> TransportResult

    constructor (storage: GzStore.GzStorage, transport: OutboundRequest -> TransportResult)
      ensures this.storage == storage && this.transport == transport
    {
      this.storage := storage;
      this.transport := transport;
    }

    /**
     * `add`: a method other than POST panics; a body that does not decode is
     * answered by `reportError`; otherwise the rule is normalised, stored
     * under its own `Key`, and acknowledged.
     */
    method Add(httpMethod: string, decoded: Result<Expectation>) returns (reply: Reply)
      modifies storage, if decoded.Ok? then ForwardOf(decoded.value) else {}
      ensures httpMethod != "POST" ==> reply.Panic? && storage.expectations == old(storage.expectations)
      ensures httpMethod != "POST" && decoded.Ok? && decoded.value.forward.Some? ==> unchanged(decoded.value.forward.value)
      ensures httpMethod == "POST" && decoded.Err? ==>
                reply == ReportError(map[]) && storage.expectations == old(storage.expectations)
      ensures httpMethod == "POST" && decoded.Ok? ==>
                var exp := decoded.value;
                && storage.expectations == old(storage.expectations)[exp.key := exp]
                && reply == Reply(200, map[], "Expectation with key '" + exp.key + "' was added")
                && (exp.forward.Some? ==>
                      && exp.forward.value.scheme == DefaultScheme(old(exp.forward.value.scheme))
                      && exp.forward.value.host == old(exp.forward.value.host)
                      && exp.forward.value.headers == old(exp.forward.value.headers))
    {
      if httpMethod != "POST" {
        return Panic("Wrong method " + httpMethod);
      }
      if decoded.Err? {
        return ReportError(map[]);
      }
      var exp := decoded.value;
      ExpectationSetDefaultValues(exp);
      storage.Add(exp.key, exp);
      reply := Reply(200, map[], "Expectation with key '" + exp.key + "' was added");
    }

    /**
     * `remove`: a method other than POST panics; a body that does not decode
     * is answered by `reportError`; otherwise the decoded key is removed (if
     * present) and the removal acknowledged.
     */
    method Remove(httpMethod: string, decoded: Result<ExpectationRemove>) returns (reply: Reply)
      modifies storage
      ensures httpMethod != "POST" ==> reply.Panic? && storage.expectations == old(storage.expectations)
      ensures httpMethod == "POST" && decoded.Err? ==>
                reply == ReportError(map[]) && storage.expectations == old(storage.expectations)
      ensures httpMethod == "POST" && decoded.Ok? ==>
                && storage.expectations == old(storage.expectations) - {decoded.value.key}
                && reply == Reply(200, map[], "Expectation with key '" + decoded.value.key + "' was removed")
    {
      if httpMethod != "POST" {
        return Panic("Wrong method " + httpMethod);
      }
      if decoded.Err? {
        return ReportError(map[]);
      }
      var requestBody := decoded.value;
      storage.Remove(requestBody.key);
      reply := Reply(200, map[], "Expectation with key '" + requestBody.key + "' was removed");
    }

    /**
     * `doHTTPRequest`: a nil request panics (the event carries a message);
     * otherwise the request is sent, the answer's flattened headers are set one
     * by one, and the reply follows `TransportReply`.
     */
    method DoHTTPRequest(canon: string -> string, httpReq: Option<OutboundRequest>) returns (reply: Reply)
      ensures httpReq.None? ==> reply == Panic("http.Request is nil")
      ensures httpReq.Some? ==>
                exists written :: TransportHeaders(canon, transport(httpReq.value), written)
                               && reply == TransportReply(transport(httpReq.value), written)
    {
      if httpReq.None? {
        return Panic("http.Request is nil");
      }
      var t := transport(httpReq.value);
      match t {
        case TransportFailed(_) =>
          reply := ReportError(map[]);
          assert TransportHeaders(canon, t, map[]);
        case NoResponse =>
          reply := Panic("response is nil");
          assert TransportHeaders(canon, t, map[]);
        case Delivered(resp) =>
          var headers := FlattenHeader(resp.header);
          var written := SetHeaders(canon, map[], headers);
          if !ValidCode(resp.statusCode) {
            reply := Panic("invalid WriteHeader code");
          } else if resp.body.Err? {
            reply := Reply(resp.statusCode, written, ErrorText + "\n");
          } else {
            reply := Reply(resp.statusCode, written, resp.body.value);
          }
          assert TransportHeaders(canon, t, written);
      }
    }

    /** `applyExpectation` (the delay is not modelled). */
    method ApplyExpectation(lib: Library, exp: Expectation, req: ExpectationRequest) returns (reply: Reply)
      ensures Dispatched(lib, transport, exp, req, reply)
    {
      if exp.response.Some? {
        reply := CreateResponseFromExpectation(lib.net.canonicalHeaderKey, lib.js, exp.response.value, req);
        return;
      }
      if exp.forward.Some? {
        var httpReq := ControllerCreateHTTPRequest(lib.net, req, exp.forward.value);
        reply := DoHTTPRequest(lib.net.canonicalHeaderKey, httpReq);
        return;
      }
      reply := Reply(200, map[], "");
    }

    /**
     * `root`: translate the request, scan the priority-ordered snapshot, and
     * dispatch on the first rule whose filter the request passes; 501 when
     * none does. `chosen` names the rule that answered.
     */
    method Root(lib: Library, r: HttpRequest) returns (reply: Reply, ghost chosen: Option<Expectation>)
      ensures (forall e | e in storage.expectations.Values :: !ControllerRequestPassesFilter(lib.re, Incoming(r), e.request)) ==>
                reply == Reply(501, map[], NoMatchBody)
      ensures || reply == Reply(501, map[], NoMatchBody)
              || exists e | e in storage.expectations.Values ::
                   ControllerRequestPassesFilter(lib.re, Incoming(r), e.request) && Dispatched(lib, transport, e, Incoming(r), reply)
      ensures chosen.None? ==>
                && reply == Reply(501, map[], NoMatchBody)
                && forall e | e in storage.expectations.Values ::
                     !ControllerRequestPassesFilter(lib.re, Incoming(r), e.request)
      ensures chosen.Some? ==>
                && chosen.value in storage.expectations.Values
                && ControllerRequestPassesFilter(lib.re, Incoming(r), chosen.value.request)
                && Dispatched(lib, transport, chosen.value, Incoming(r), reply)
      ensures chosen.Some? ==>
                forall e | e in storage.expectations.Values && ControllerRequestPassesFilter(lib.re, Incoming(r), e.request) ::
                  e.priority <= chosen.value.priority
    {
      var req := ControllerTranslateRequestToExpectation(r);
      assert req == Incoming(r);
      var orderedStoredExpectations := storage.GetOrdered();
      ghost var m := storage.expectations;
      ghost var passes := (e: Expectation) => ControllerRequestPassesFilter(lib.re, req, e.request);
      var i := FirstPassing(lib.re, req, orderedStoredExpectations);
      if i < |orderedStoredExpectations| {
        var exp := orderedStoredExpectations[i];
        reply := ApplyExpectation(lib, exp, req);
        chosen := Some(exp);
        PriorityOrder.FirstMatchIsHighest(PriorityOf, passes, m, orderedStoredExpectations, i);
        return;
      }
      PriorityOrder.NoMatchInSnapshot(passes, m, orderedStoredExpectations);
      chosen := None;
      reply := Reply(501, map[], NoMatchBody);
    }
  }
}
