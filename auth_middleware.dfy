/**
 * The auth gate (middleware/auth_middleware.go): a request reaches the
 * wrapped handler only when its `X-API-Key` header carries the shared
 * secret; otherwise the gate answers 401 itself.
 */
module Middleware {
  import opened Wrappers
  import opened Web
  import opened Http

  const ApiKeyHeader := "X-API-Key"
  const ApiKey := "mySecureKey"

  predicate Authorized(r: Request)
  {
    HeaderGet(r.header, ApiKeyHeader) == ApiKey
  }

  /** A request passes exactly when the first `X-API-Key` value is the secret. */
  lemma AuthorizedIff(r: Request)
    ensures Authorized(r) <==>
            ApiKeyHeader in r.header && |r.header[ApiKeyHeader]| > 0 &&
            r.header[ApiKeyHeader][0] == ApiKey
  {
  }

  /** A request without the header, or with an empty value, never passes. */
  lemma MissingKeyRejected(r: Request)
    requires ApiKeyHeader !in r.header || r.header[ApiKeyHeader] == [] ||
             r.header[ApiKeyHeader][0] == ""
    ensures !Authorized(r)
  {
  }

  /** The 401 envelope; it carries no data. */
  function UnauthorizedEnvelope(): (env: WebResponse)
    ensures env.code == StatusUnauthorized && Labelled(env) && env.data == Absent
  {
    WebResponse(StatusUnauthorized, "Unauthorized", Absent)
  }

  /** The calls the gate itself makes on the writer. */
  function GateEvents(helper: BodyWriter, r: Request): seq<Event>
  {
    if Authorized(r) then [] else JsonReply(helper, UnauthorizedEnvelope())
  }

  /**
   * A passed request leaves the writer to the wrapped handler; a rejected
   * one gets status 401, a JSON content type and the 401 envelope as the
   * whole body.
   */
  lemma GateOnWire(helper: BodyWriter, r: Request)
    ensures Authorized(r) ==> GateEvents(helper, r) == []
    ensures !Authorized(r) ==>
            var w := Run(Fresh, GateEvents(helper, r));
            w.status == Some(StatusUnauthorized) &&
            ContentType in w.sent && w.sent[ContentType] == ApplicationJson &&
            w.body == [UnauthorizedEnvelope()] && w.body[0].code == StatusUnauthorized
  {
    if !Authorized(r) {
      JsonReplyOnWire(Fresh, helper, UnauthorizedEnvelope());
    }
  }

  class AuthMiddleware {
    const handler: Handler

    /** `NewAuthMiddleware`. */
    constructor (handler: Handler)
      ensures this.handler == handler
    {
      this.handler := handler;
    }

    /** `ServeHTTP`; `helper` is how `helper.WriteToResBody` writes the 401 envelope. */
    method ServeHTTP(w: ResponseWriter, helper: BodyWriter, r: Request)
      requires w.Valid()
      modifies w, handler
      ensures w.Valid()
      ensures Authorized(r) ==> handler.served == old(handler.served) + [r] &&
                                w.trace == old(w.trace) + handler.respond(r)
      ensures !Authorized(r) ==> handler.served == old(handler.served) &&
                                 w.trace == old(w.trace) + GateEvents(helper, r)
    {
      if HeaderGet(r.header, ApiKeyHeader) == ApiKey {
        handler.ServeHTTP(w, r);
      } else {
        w.SetHeader(ContentType, ApplicationJson);
        w.WriteHeader(StatusUnauthorized);
        var webRes := WebResponse(StatusUnauthorized, "Unauthorized", Absent);
        WriteToResBody(w, helper, webRes);
      }
    }
  }
}
