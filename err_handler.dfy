/**
 * The error mapper (exception/err_handler.go): turns a recovered panic
 * into one JSON envelope, trying the not-found signal first, then
 * validation errors, and answering 500 for everything else.
 */
module Exception {
  import opened Wrappers
  import opened Failures
  import opened Web
  import opened Http

  /** The envelope the mapper writes for a failure. */
  function ErrorEnvelope(err: Failure): (env: WebResponse)
    ensures env.code == StatusNotFound <==> err.NotFound?
    ensures env.code == StatusBadRequest <==> err.Invalid?
    ensures env.code == StatusInternalServerError <==> err.Other?
    ensures Labelled(env)
    ensures err.NotFound? ==> env.data == Text(err.notFound.Error)
    ensures err.Invalid? ==> env.data == Text(err.errors.rendered)
    ensures err.Other? ==> env.data == Raw(err)
  {
    if err.NotFound? then WebResponse(StatusNotFound, "Not Found", Text(err.notFound.Error))
    else if err.Invalid? then WebResponse(StatusBadRequest, "Bad Request", Text(err.errors.rendered))
    else WebResponse(StatusInternalServerError, "Internal Server Error", Raw(err))
  }

  /** The calls the mapper makes on the writer for a failure. */
  function MapperEvents(helper: BodyWriter, err: Failure): seq<Event>
  {
    JsonReply(helper, ErrorEnvelope(err))
  }

  /** `notFoundErr`: answers 404 when the failure is the not-found signal. */
  method HandleNotFound(w: ResponseWriter, helper: BodyWriter, err: Failure) returns (handled: bool)
    requires w.Valid()
    modifies w
    ensures w.Valid() && handled == err.NotFound?
    ensures w.trace == old(w.trace) + if handled then MapperEvents(helper, err) else []
  {
    if err.NotFound? {
      w.SetHeader(ContentType, ApplicationJson);
      w.WriteHeader(StatusNotFound);
      var webRes := WebResponse(StatusNotFound, "Not Found", Text(err.notFound.Error));
      WriteToResBody(w, helper, webRes);
      return true;
    } else {
      return false;
    }
  }

  /** `validationErr`: answers 400 when the failure is a set of validation errors. */
  method HandleValidation(w: ResponseWriter, helper: BodyWriter, err: Failure) returns (handled: bool)
    requires w.Valid()
    modifies w
    ensures w.Valid() && handled == err.Invalid?
    ensures w.trace == old(w.trace) + if handled then MapperEvents(helper, err) else []
  {
    if err.Invalid? {
      w.SetHeader(ContentType, ApplicationJson);
      w.WriteHeader(StatusBadRequest);
      var webRes := WebResponse(StatusBadRequest, "Bad Request", Text(err.errors.rendered));
      WriteToResBody(w, helper, webRes);
      return true;
    } else {
      return false;
    }
  }

  /** `internalServerErr`: answers 500 with the failure itself as data. */
  method HandleInternal(w: ResponseWriter, helper: BodyWriter, err: Failure)
    requires w.Valid()
    modifies w
    ensures w.Valid()
    ensures w.trace == old(w.trace) +
      JsonReply(helper, WebResponse(StatusInternalServerError, "Internal Server Error", Raw(err)))
  {
    w.SetHeader(ContentType, ApplicationJson);
    w.WriteHeader(StatusInternalServerError);
    var webRes := WebResponse(StatusInternalServerError, "Internal Server Error", Raw(err));
    WriteToResBody(w, helper, webRes);
  }

  /** `ErrHandler`: the first branch that accepts the failure answers it. */
  method ErrHandler(w: ResponseWriter, helper: BodyWriter, err: Failure)
    requires w.Valid()
    modifies w
    ensures w.Valid() && w.trace == old(w.trace) + MapperEvents(helper, err)
  {
    var handled := HandleNotFound(w, helper, err);
    if handled {
      return;
    }
    handled := HandleValidation(w, helper, err);
    if handled {
      return;
    }
    HandleInternal(w, helper, err);
  }

  /**
   * What the client receives: when nothing was committed before the panic,
   * the status line is the envelope's code, the content type is JSON and
   * the failure's envelope is the one thing added to the body, whichever
   * way the helper writes it; so the last envelope's code is the status.
   */
  lemma ErrorResponseOnWire(before: seq<Event>, helper: BodyWriter, err: Failure)
    requires Run(Fresh, before).status.None?
    ensures var w := Run(Fresh, before + MapperEvents(helper, err));
            w.status == Some(ErrorEnvelope(err).code) &&
            ContentType in w.sent && w.sent[ContentType] == ApplicationJson &&
            w.body == Run(Fresh, before).body + [ErrorEnvelope(err)] &&
            w.status == Some(w.body[|w.body| - 1].code)
  {
    JsonReplyAfter(before, helper, ErrorEnvelope(err));
  }

  /** Any not-found signal is answered 404 with its own message as data. */
  lemma NotFoundMessageRoundTrip(message: string)
    ensures ErrorEnvelope(NotFound(NewNotFoundErr(message))) ==
            WebResponse(StatusNotFound, "Not Found", Text(message))
  {
  }
}
