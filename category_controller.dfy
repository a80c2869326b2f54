/**
 * The category request handlers (controller/category_controller_impl.go):
 * each reads its input, calls the service once and writes a success
 * envelope; a malformed path id or a service panic ends the handler before
 * anything is written.
 */
module Controller {
  import opened Wrappers
  import opened Failures
  import opened Web
  import opened Http
  import opened Strconv
  import opened Service
  import Exception

  /** Path parameters as the router extracts them. */
  type Params = map<string, string>

  const CategoryIdParam := "categoryId"

  /** `Params.ByName`: the value of a parameter, or "" when it is absent. */
  function ByName(p: Params, name: string): (v: string)
    ensures name in p ==> v == p[name]
    ensures v != "" ==> name in p
  {
    if name in p then p[name] else ""
  }

  /** The five handlers, named by the route each serves. */
  datatype Route = PostCategory | PutCategory | DeleteCategory | GetCategory | ListCategories
  {
    /** The handlers that read `categoryId` from the path. */
    predicate TakesId()
    {
      PutCategory? || DeleteCategory? || GetCategory?
    }
  }

  /** What one handler does: the service calls, the writer calls and the panic, if any. */
  datatype ActionResult = ActionResult(calls: seq<Call>, events: seq<Event>, panic: Option<Failure>)

  /**
   * The service call a handler makes once its input is read; `id` is the
   * parsed path id, which only Update, Delete and FindById use. Update
   * decodes the body first and then overwrites its id with the path's.
   */
  function CallOf(route: Route, r: Request, id: Option<int>): Call
    requires route.TakesId() ==> id.Some?
  {
    match route
    case PostCategory => CreateCall(CategoryCreateRequest(r.body.name))
    case PutCategory => UpdateCall(CategoryUpdateRequest(r.body.id, r.body.name).(id := id.value))
    case DeleteCategory => DeleteCall(id.value)
    case GetCategory => FindByIdCall(id.value)
    case ListCategories => FindAllCall
  }

  function Lift<T>(o: Outcome<T>, f: T -> Payload): Outcome<Payload>
  {
    match o
    case Returned(v) => Returned(f(v))
    case Panicked(e) => Panicked(e)
  }

  /**
   * The service's answer to a call, as the `data` the handler puts in its
   * envelope: the category, the list, or nothing for Delete.
   */
  function ServiceAnswer(b: Behaviour, call: Call): Outcome<Payload>
  {
    match call
    case CreateCall(req) => Lift(b.create(req), v => Category(v))
    case UpdateCall(req) => Lift(b.update(req), v => Category(v))
    case DeleteCall(id) => Lift(b.delete(id), (_: ()) => Absent)
    case FindByIdCall(id) => Lift(b.findById(id), v => Category(v))
    case FindAllCall => Lift(b.findAll, vs => Categories(vs))
  }

  /** The success envelope of each handler. */
  function SuccessEnvelope(route: Route, data: Payload): WebResponse
  {
    if route.PostCategory? then WebResponse(201, "Created", data) else WebResponse(200, "Ok", data)
  }

  /**
   * The handler for `route`, against a service behaving as `b` and a
   * `helper.WriteToResBody` behaving as `helper`.
   */
  function Action(route: Route, helper: BodyWriter, b: Behaviour, r: Request, p: Params): (res: ActionResult)
    ensures |res.calls| <= 1
    ensures res.calls == [] <==> route.TakesId() && Atoi(ByName(p, CategoryIdParam)).None?
    ensures res.panic.Some? ==> res.events == []
  {
    var rawId := ByName(p, CategoryIdParam);
    var id := Atoi(rawId);
    if route.TakesId() && id.None? then
      ActionResult([], [], Some(Other(NumError(rawId))))
    else
      var call := CallOf(route, r, id);
      match ServiceAnswer(b, call)
      case Returned(data) => ActionResult([call], ResBodyEvents(helper, SuccessEnvelope(route, data)), None)
      case Panicked(f) => ActionResult([call], [], Some(f))
  }

  /**
   * A handler whose input parses calls the service exactly once and
   * mirrors its answer: a returned value becomes the one envelope written,
   * 201 "Created" for Create and 200 "Ok" otherwise, with the answer as
   * data; a panic is passed on with nothing written.
   */
  lemma ServiceAnswerMirrored(route: Route, helper: BodyWriter, b: Behaviour, r: Request, p: Params)
    requires !route.TakesId() || Atoi(ByName(p, CategoryIdParam)).Some?
    ensures var res := Action(route, helper, b, r, p);
            |res.calls| == 1 &&
            var answer := ServiceAnswer(b, res.calls[0]);
            (answer.Panicked? ==> res.panic == Some(answer.failure) && res.events == []) &&
            (answer.Returned? ==>
               (res.panic == None &&
                exists env: WebResponse ::
                  res.events == ResBodyEvents(helper, env) &&
                  env.code == (if route.PostCategory? then StatusCreated else StatusOK) &&
                  Labelled(env) && env.data == answer.value))
  {
  }

  /**
   * Which service operation each handler calls, and with what: Update
   * sends the id from the path, whatever id the body held.
   */
  lemma ServiceCallOf(route: Route, helper: BodyWriter, b: Behaviour, r: Request, p: Params, id: int)
    requires route.TakesId() ==> Atoi(ByName(p, CategoryIdParam)) == Some(id)
    ensures var calls := Action(route, helper, b, r, p).calls;
            match route
            case PostCategory => calls == [CreateCall(CategoryCreateRequest(r.body.name))]
            case PutCategory => calls == [UpdateCall(CategoryUpdateRequest(id, r.body.name))]
            case DeleteCategory => calls == [DeleteCall(id)]
            case GetCategory => calls == [FindByIdCall(id)]
            case ListCategories => calls == [FindAllCall]
  {
  }

  /**
   * A `categoryId` that does not parse stops Update, Delete and FindById
   * before the service: nothing is called, nothing written, and the
   * handler panics with the parse error.
   */
  lemma MalformedIdSkipsService(route: Route, helper: BodyWriter, b: Behaviour, r: Request, p: Params)
    requires route.TakesId() && Atoi(ByName(p, CategoryIdParam)).None?
    ensures Action(route, helper, b, r, p) ==
            ActionResult([], [], Some(Other(NumError(ByName(p, CategoryIdParam)))))
  {
  }

  /** A successful handler writes one envelope; it has no data iff the handler is Delete. */
  lemma OnlyDeleteOmitsData(route: Route, helper: BodyWriter, b: Behaviour, r: Request, p: Params)
    requires Action(route, helper, b, r, p).panic.None?
    ensures var evs := Action(route, helper, b, r, p).events;
            |evs| > 0 && evs[|evs| - 1].Write? &&
            evs == ResBodyEvents(helper, evs[|evs| - 1].response) &&
            (evs[|evs| - 1].response.data == Absent <==> route.DeleteCategory?)
  {
  }

  /**
   * A request, a handler, and the error mapper when the handler panics:
   * the calls made on the writer, with the router recovering the panic
   * into `ErrHandler`. Since a panicking handler has written nothing, the
   * mapper's calls are then the only ones.
   */
  function Handled(route: Route, helper: BodyWriter, b: Behaviour, r: Request, p: Params): (events: seq<Event>)
    ensures var res := Action(route, helper, b, r, p);
            (res.panic.None? ==> events == res.events) &&
            (res.panic.Some? ==> events == Exception.MapperEvents(helper, res.panic.value))
  {
    var res := Action(route, helper, b, r, p);
    match res.panic
    case None => res.events
    case Some(f) => res.events + Exception.MapperEvents(helper, f)
  }

  /**
   * What the client receives from a fresh writer: exactly one envelope.
   * A failure is answered with its error envelope and that envelope's code
   * on the status line. A success carries the handler's envelope; no
   * handler writes a status itself, so the status line is 200 when the
   * helper writes only the body and the envelope's code when it writes the
   * status first. The status line and the envelope code therefore disagree
   * only on a successful Create through a body-only helper.
   */
  lemma {:induction false} ServedResponse(route: Route, helper: BodyWriter, b: Behaviour, r: Request, p: Params)
    ensures var res := Action(route, helper, b, r, p);
            var w := Run(Fresh, Handled(route, helper, b, r, p));
            |w.body| == 1 && w.status.Some? &&
            (res.panic.Some? ==> w.status == Some(Exception.ErrorEnvelope(res.panic.value).code) &&
                                 w.body == [Exception.ErrorEnvelope(res.panic.value)]) &&
            (res.panic.None? ==>
               w.status == Some(if helper.BodyOnly? then StatusOK else w.body[0].code) &&
               res.events == ResBodyEvents(helper, w.body[0]) &&
               w.body[0].code == (if route.PostCategory? then StatusCreated else StatusOK)) &&
            (w.status.value == w.body[0].code <==>
               !(route.PostCategory? && res.panic.None? && helper.BodyOnly?))
  {
    var res := Action(route, helper, b, r, p);
    if res.panic.Some? {
      assert Handled(route, helper, b, r, p) == [] + Exception.MapperEvents(helper, res.panic.value);
      Exception.ErrorResponseOnWire([], helper, res.panic.value);
    } else {
      var answer := ServiceAnswer(b, res.calls[0]);
      var env := SuccessEnvelope(route, answer.value);
      assert res.events == ResBodyEvents(helper, env);
      ResBodyOnWire(Fresh, helper, env);
    }
  }

  /** A malformed path id reaches the client as a 500 carrying the parse error. */
  lemma MalformedIdAnswers500(route: Route, helper: BodyWriter, b: Behaviour, r: Request, p: Params)
    requires route.TakesId() && Atoi(ByName(p, CategoryIdParam)).None?
    ensures var w := Run(Fresh, Handled(route, helper, b, r, p));
            w.status == Some(StatusInternalServerError) &&
            w.body == [WebResponse(StatusInternalServerError, "Internal Server Error",
                                   Raw(Other(NumError(ByName(p, CategoryIdParam)))))]
  {
    MalformedIdSkipsService(route, helper, b, r, p);
    ServedResponse(route, helper, b, r, p);
  }

  /** A path built with `strconv.Itoa` from an in-range id always reaches the service. */
  lemma FormattedIdReachesService(route: Route, helper: BodyWriter, b: Behaviour, r: Request, p: Params, id: int)
    requires MinInt <= id <= MaxInt && ByName(p, CategoryIdParam) == Itoa(id)
    ensures |Action(route, helper, b, r, p).calls| == 1
  {
    AtoiItoa(id);
  }

  class CategoryControllerImpl {
    const categoryService: CategoryService

    /** `NewCategoryController`. */
    constructor (categoryService: CategoryService)
      ensures this.categoryService == categoryService
    {
      this.categoryService := categoryService;
    }

    method Create(w: ResponseWriter, helper: BodyWriter, r: Request, p: Params) returns (panic: Option<Failure>)
      requires w.Valid()
      modifies w, categoryService
      ensures w.Valid()
      ensures var res := Action(PostCategory, helper, categoryService.behaviour, r, p);
              categoryService.calls == old(categoryService.calls) + res.calls &&
              w.trace == old(w.trace) + res.events && panic == res.panic
    {
      var categoryCreateReq := CategoryCreateRequest(r.body.name);
      var categoryRes := categoryService.Create(categoryCreateReq);
      if categoryRes.Panicked? {
        return Some(categoryRes.failure);
      }
      var webRes := WebResponse(201, "Created", Category(categoryRes.value));
      WriteToResBody(w, helper, webRes);
      return None;
    }

    method Update(w: ResponseWriter, helper: BodyWriter, r: Request, p: Params) returns (panic: Option<Failure>)
      requires w.Valid()
      modifies w, categoryService
      ensures w.Valid()
      ensures var res := Action(PutCategory, helper, categoryService.behaviour, r, p);
              categoryService.calls == old(categoryService.calls) + res.calls &&
              w.trace == old(w.trace) + res.events && panic == res.panic
    {
      var categoryUpdateReq := CategoryUpdateRequest(r.body.id, r.body.name);
      var rawId := ByName(p, CategoryIdParam);
      var categoryId := Atoi(rawId);
      if categoryId.None? {
        return Some(Other(NumError(rawId)));
      }
      categoryUpdateReq := categoryUpdateReq.(id := categoryId.value);
      var categoryRes := categoryService.Update(categoryUpdateReq);
      if categoryRes.Panicked? {
        return Some(categoryRes.failure);
      }
      var webRes := WebResponse(200, "Ok", Category(categoryRes.value));
      WriteToResBody(w, helper, webRes);
      return None;
    }

    method Delete(w: ResponseWriter, helper: BodyWriter, r: Request, p: Params) returns (panic: Option<Failure>)
      requires w.Valid()
      modifies w, categoryService
      ensures w.Valid()
      ensures var res := Action(DeleteCategory, helper, categoryService.behaviour, r, p);
              categoryService.calls == old(categoryService.calls) + res.calls &&
              w.trace == old(w.trace) + res.events && panic == res.panic
    {
      var rawId := ByName(p, CategoryIdParam);
      var categoryId := Atoi(rawId);
      if categoryId.None? {
        return Some(Other(NumError(rawId)));
      }
      var deleted := categoryService.Delete(categoryId.value);
      if deleted.Panicked? {
        return Some(deleted.failure);
      }
      var webRes := WebResponse(200, "Ok", Absent);
      WriteToResBody(w, helper, webRes);
      return None;
    }

    method FindById(w: ResponseWriter, helper: BodyWriter, r: Request, p: Params) returns (panic: Option<Failure>)
      requires w.Valid()
      modifies w, categoryService
      ensures w.Valid()
      ensures var res := Action(GetCategory, helper, categoryService.behaviour, r, p);
              categoryService.calls == old(categoryService.calls) + res.calls &&
              w.trace == old(w.trace) + res.events && panic == res.panic
    {
      var rawId := ByName(p, CategoryIdParam);
      var categoryId := Atoi(rawId);
      if categoryId.None? {
        return Some(Other(NumError(rawId)));
      }
      var categoryRes := categoryService.FindById(categoryId.value);
      if categoryRes.Panicked? {
        return Some(categoryRes.failure);
      }
      var webRes := WebResponse(200, "Ok", Category(categoryRes.value));
      WriteToResBody(w, helper, webRes);
      return None;
    }

    method FindAll(w: ResponseWriter, helper: BodyWriter, r: Request, p: Params) returns (panic: Option<Failure>)
      requires w.Valid()
      modifies w, categoryService
      ensures w.Valid()
      ensures var res := Action(ListCategories, helper, categoryService.behaviour, r, p);
              categoryService.calls == old(categoryService.calls) + res.calls &&
              w.trace == old(w.trace) + res.events && panic == res.panic
    {
      var categoryRes := categoryService.FindAll();
      if categoryRes.Panicked? {
        return Some(categoryRes.failure);
      }
      var webRes := WebResponse(200, "Ok", Categories(categoryRes.value));
      WriteToResBody(w, helper, webRes);
      return None;
    }
  }
}
