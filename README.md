# Category REST API: request-outcome pipeline

A Dafny model of what happens around the category CRUD handlers of a small Go
REST service: the API-key gate in front of the router, the five handlers that
turn a service answer into a JSON envelope `{code, status, data}`, and the
error mapper that turns a recovered panic into a 404, 400 or 500 envelope.
The not-found signal and the dependency-injection demo's constructors are
modelled too.

Layout, one module per Go file plus the library surface they rely on:

- `failures.dfy` (`Failures`): the not-found signal and the values a panic can carry.
- `web.dfy` (`Web`): envelopes, request and response records.
- `http.dfy` (`Http`): a response writer as a class whose fields follow
  net/http's rules. The first `WriteHeader` fixes the status. A write before
  any `WriteHeader` fixes 200. Headers are sent as they stood when the status
  was fixed. A ghost `trace` records every call, and `Run` replays a trace.
  Also an opaque `Handler` that logs every request it is given.
- `strconv.dfy` (`Strconv`): `Atoi`/`Itoa` on a 64-bit `int`.
- `err_handler.dfy` (`Exception`), `auth_middleware.dfy` (`Middleware`),
  `category_controller.dfy` (`Controller`), `simple.dfy` (`Simple`): the core.
- `service.dfy` (`Service`): the category service, whose code is not part of
  this model. A `Behaviour` gives its answer to each call, and a ghost log
  records the calls.

Each handler method is specified by the pure function `Controller.Action`:
the service calls it makes, the writer calls it makes, and the panic it ends
with. `Controller.Handled` adds the router's recovery into `ErrHandler`. The
router itself (app/router.go) is not part of this model; the composition
follows the `PanicHandler` signature that `ErrHandler` has.

`helper.WriteToResBody` is not part of this model. It is a parameter
(`Http.BodyWriter`) with two cases: it writes the body alone, or it writes the
envelope's code as the status first and then the body. Every result about
the status line is proved for both cases. No handler calls `WriteHeader`
itself, so `Controller.ServedResponse` shows that the case matters in one
place only: a successful Create. With a body-only helper, Create sends status
line 200 under an envelope whose `code` is 201. With a status-first helper,
it sends 201. Everywhere else the status line and the envelope code agree in
both cases.

## Model

| member | source | states |
|---|---|---|
| `Failures.NewNotFoundErr` | exception/not_found_err.go:7-11 | the signal carries exactly the given message |
| `Failures.NewNotFoundErrInjective` | exception/not_found_err.go:3-11 | two signals are equal iff their messages are |
| `Exception.ErrorEnvelope` | exception/err_handler.go:23-74 | 404 iff not-found, 400 iff validation errors, 500 iff anything else; the label matches the code; data is the signal's message, the rendered validation text, or the raw failure |
| `Exception.HandleNotFound` | exception/err_handler.go:23-41 | handles iff the failure is the not-found signal; then sets the JSON content type, then the status, then writes one envelope through the helper; otherwise touches nothing |
| `Exception.HandleValidation` | exception/err_handler.go:43-61 | handles iff the failure is validation errors; then writes the 400 reply; otherwise touches nothing |
| `Exception.HandleInternal` | exception/err_handler.go:63-74 | always writes a JSON 500 reply whose data is the failure itself |
| `Exception.ErrHandler` | exception/err_handler.go:11-21 | first matching branch answers, in the order not-found, validation, fallback; the writer receives exactly the reply for the failure's envelope |
| `Exception.ErrorResponseOnWire` | exception/err_handler.go:23-74 | on a writer with no committed status, for either helper, the client gets the envelope's code as status and JSON content type. Exactly that envelope is added to the body, so the last envelope's code is the status |
| `Exception.NotFoundMessageRoundTrip` | exception/err_handler.go:24-33 | any not-found signal is answered 404 "Not Found" with its own message as data |
| `Http.HeaderGet` | middleware/auth_middleware.go:18 | the first value under the name, or "" when the name is absent or has no value |
| `Http.ResBodyOnWire` | controller/category_controller_impl.go:34 | on a committed writer, writing an envelope only appends it. Otherwise it fixes 200 for a body-only helper, or the envelope's code for a status-first helper |
| `Http.WriteToResBody` | controller/category_controller_impl.go:34 | the writer receives exactly the helper's calls for the envelope |
| `Http.JsonReplyOnWire` | exception/err_handler.go:26-35 | on a writer with no committed status, for either helper, content type then status then write commits the envelope's code with JSON content type and appends the envelope |
| `Http.JsonReplyAfter` | middleware/auth_middleware.go:21-29 | the same after any earlier calls that committed no status |
| `Http.ResponseWriter.SetHeader` | exception/err_handler.go:26 | the header map gets the value; the call is logged |
| `Http.ResponseWriter.WriteHeader` | exception/err_handler.go:27 | fixes the status unless one is fixed already |
| `Http.ResponseWriter.Write` | controller/category_controller_impl.go:34 | appends one envelope, fixing status 200 first when none is fixed |
| `Http.ResponseWriter.Emit` | middleware/auth_middleware.go:19 | the writer ends as if the given calls had been made |
| `Http.Handler.ServeHTTP` | middleware/auth_middleware.go:19 | logs the request and applies the handler's calls to the writer |
| `Middleware.AuthorizedIff` | middleware/auth_middleware.go:18 | a request passes iff the first `X-API-Key` value is exactly `mySecureKey` |
| `Middleware.MissingKeyRejected` | middleware/auth_middleware.go:18-20 | a missing or empty key is rejected |
| `Middleware.UnauthorizedEnvelope` | middleware/auth_middleware.go:24-27 | code 401, label "Unauthorized", no data |
| `Middleware.GateOnWire` | middleware/auth_middleware.go:17-31 | a passed request gets no gate output; a rejected one gets status 401, JSON content type and the 401 envelope as the whole body |
| `Middleware.AuthMiddleware.constructor` | middleware/auth_middleware.go:13-15 | stores exactly the given handler |
| `Middleware.AuthMiddleware.ServeHTTP` | middleware/auth_middleware.go:17-31 | passed: the stored handler is invoked once with the request and is the only writer; rejected: the handler is not invoked and the gate writes the 401 reply |
| `Strconv.Atoi` | controller/category_controller_impl.go:41 | a parsed id lies in the 64-bit range and its text is an optional sign followed by digits only |
| `Strconv.Itoa` | test/category_controller_test.go:120 | non-empty, with a leading minus exactly for negative numbers and digits everywhere else |
| `Strconv.AtoiItoa` | test/category_controller_test.go:120 | every in-range id formatted with Itoa parses back to itself |
| `Service.CategoryService.Create` | controller/category_controller_impl.go:27 | the call is logged and answered by the service's behaviour |
| `Service.CategoryService.Update` | controller/category_controller_impl.go:46 | the call is logged and answered by the service's behaviour |
| `Service.CategoryService.Delete` | controller/category_controller_impl.go:60 | the call is logged and answered by the service's behaviour |
| `Service.CategoryService.FindById` | controller/category_controller_impl.go:73 | the call is logged and answered by the service's behaviour |
| `Service.CategoryService.FindAll` | controller/category_controller_impl.go:84 | the call is logged and answered by the service's behaviour |
| `Controller.ByName` | controller/category_controller_impl.go:41 | the parameter's value when present; "" only stands for an absent parameter or an empty value |
| `Controller.Action` | controller/category_controller_impl.go:23-92 | each handler calls the service at most once. It makes no call exactly when the route takes an id and the id does not parse. A handler that panics has written nothing |
| `Controller.ServiceAnswerMirrored` | controller/category_controller_impl.go:23-92 | with a parseable id each handler calls the service once. A returned value becomes the single envelope the helper writes: 201/"Created" for Create, 200/"Ok" otherwise, with the answer as data. A service panic is passed on with nothing written |
| `Controller.ServiceCallOf` | controller/category_controller_impl.go:24-46 | which service operation each handler calls and with what, for any path parameters when the route takes no id. Update sends the path id, not the body's |
| `Controller.MalformedIdSkipsService` | controller/category_controller_impl.go:41-42 | an unparseable `categoryId` makes Update, Delete and FindById panic with the parse error before any service call or write |
| `Controller.OnlyDeleteOmitsData` | controller/category_controller_impl.go:60-66 | a successful handler makes exactly the helper's calls for one envelope, and that envelope has no data iff the handler is Delete |
| `Controller.Handled` | exception/err_handler.go:11-21 | after a handler panics, the writer receives only the error mapper's calls. Otherwise it receives only the handler's calls |
| `Controller.ServedResponse` | controller/category_controller_impl.go:23-92 | the client gets exactly one envelope. After a panic it is the error envelope, with its code as status. On success it is the handler's envelope (201 for Create, 200 otherwise), with status 200 under a body-only helper or the envelope's code under a status-first one. Status and code disagree only for a successful Create with a body-only helper |
| `Controller.MalformedIdAnswers500` | controller/category_controller_impl.go:57-58 | an unparseable path id reaches the client as 500 with the parse error as data |
| `Controller.FormattedIdReachesService` | test/category_controller_test.go:120 | a path id built with Itoa always gets past the parse to the service |
| `Controller.CategoryControllerImpl.constructor` | controller/category_controller_impl.go:17-21 | stores exactly the given service |
| `Controller.CategoryControllerImpl.Create` | controller/category_controller_impl.go:23-35 | service calls, writer calls and panic are those of `Action(PostCategory, …)` |
| `Controller.CategoryControllerImpl.Update` | controller/category_controller_impl.go:37-54 | the same for `Action(PutCategory, …)` |
| `Controller.CategoryControllerImpl.Delete` | controller/category_controller_impl.go:56-67 | the same for `Action(DeleteCategory, …)` |
| `Controller.CategoryControllerImpl.FindById` | controller/category_controller_impl.go:69-81 | the same for `Action(GetCategory, …)` |
| `Controller.CategoryControllerImpl.FindAll` | controller/category_controller_impl.go:83-92 | the same for `Action(ListCategories, …)` |
| `Simple.SimpleRepository.constructor` | simple/simple.go:13-17 | the repository's flag is the given one |
| `Simple.NewSimpleService` | simple/simple.go:19-27 | fails iff the repository is flagged, with message "failed create service"; otherwise the service embeds that same repository object |

## Left out

- Server bootstrap (main.go) and database setup (app/database.go): I/O and configuration with no logic of the core.
- The service and repository layers, SQL, transactions and `validator.Struct`: not part of this model. The service is a `Behaviour` that gives a fixed answer or panic for each argument. Database state across calls is not modelled.
- `helper.ReadFromReqBody`: the body is taken as already decoded (`RequestBody`). A decoding failure and the panic it may cause are not modelled.
- `helper.WriteToResBody`: modelled as one of two call sequences: a body write, or `WriteHeader(code)` followed by a body write. Whatever headers it may set, and the JSON encoding, are not modelled.
- Controller.ServedResponse: the status line of a successful handler depends on which of the two the helper does. The lemma states both outcomes but does not decide between them.
- `helper.PanicIfError` and Go panics: a handler returns the failure it would panic with, and `Controller.Handled` stands in for the router's recovery (app/router.go is not part of this model).
- `validator.ValidationErrors.Error()`: the rendered text is kept as an abstract string.
- `r.Context()` passed to the service: contexts and cancellation are not modelled.
- Header-name canonicalisation in `Header.Get`/`Header.Set`: header names are compared exactly.
- `WriteHeader`'s panic on codes outside 100-999: every code the core writes is a constant in range.
- Concurrent requests: each request is modelled on its own writer.
- Simple.NewSimpleService: a nil repository (a nil dereference in the source) is not modelled; the parameter is a non-null reference.
- The tests (test/category_controller_test.go, test/file_test.go): they need a live database; they are used only for the expected codes and labels.
