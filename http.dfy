/**
 * The parts of net/http the core touches: status codes, request headers,
 * and a response writer whose observable behaviour is replayed from the
 * sequence of calls made on it.
 */
module Http {
  import opened Wrappers
  import opened Web

  // Status codes of RFC 9110: sections 15.3.1, 15.3.2, 15.5.1, 15.5.2,
  // 15.5.5 and 15.6.1.
  const StatusOK := 200
  const StatusCreated := 201
  const StatusBadRequest := 400
  const StatusUnauthorized := 401
  const StatusNotFound := 404
  const StatusInternalServerError := 500

  const ContentType := "Content-Type"
  const ApplicationJson := "application/json"

  /** Request headers: each name maps to its list of values. */
  type Header = map<string, seq<string>>

  /** `Header.Get`: the first value under `key`, or "" when there is none. */
  function HeaderGet(h: Header, key: string): (v: string)
    ensures v != "" ==> key in h && |h[key]| > 0 && h[key][0] == v
    ensures key in h && |h[key]| > 0 ==> v == h[key][0]
  {
    if key in h && |h[key]| > 0 then h[key][0] else ""
  }

  datatype Request = Request(header: Header, body: RequestBody)

  /** One call made on a response writer. */
  datatype Event =
    | SetHeader(key: string, value: string)  // w.Header().Set(key, value)
    | WriteHeader(code: int)                 // w.WriteHeader(code)
    | Write(response: WebResponse)           // one envelope written to the body

  /**
   * What a response writer holds: the header map handlers edit, the status
   * once committed, the headers as they were when the status was
   * committed, and the envelopes written to the body.
   */
  datatype Wire = Wire(header: map<string, string>, status: Option<int>,
                       sent: map<string, string>, body: seq<WebResponse>)

  const Fresh := Wire(map[], None, map[], [])

  /** Commits the status unless one is already committed; later calls are ignored. */
  function Commit(w: Wire, code: int): Wire
  {
    if w.status.Some? then w else w.(status := Some(code), sent := w.header)
  }

  function Step(w: Wire, e: Event): Wire
  {
    match e
    case SetHeader(k, v) => w.(header := w.header[k := v])
    case WriteHeader(code) => Commit(w, code)
    case Write(env) =>
      // a write before any WriteHeader commits 200 first
      var c := Commit(w, StatusOK);
      c.(body := c.body + [env])
  }

  function Run(w: Wire, events: seq<Event>): Wire
    decreases |events|
  {
    if events == [] then w else Run(Step(w, events[0]), events[1..])
  }

  lemma {:induction false} RunAppend(w: Wire, a: seq<Event>, b: seq<Event>)
    ensures Run(w, a + b) == Run(Run(w, a), b)
    decreases |a|
  {
    if a == [] {
      assert a + b == b;
    } else {
      assert (a + b)[1..] == a[1..] + b;
      RunAppend(Step(w, a[0]), a[1..], b);
    }
  }

  /**
   * How `helper.WriteToResBody`, whose code is not part of this model,
   * writes an envelope: either the body alone, or first the envelope's
   * code as the status and then the body. The model states its results
   * for both.
   */
  datatype BodyWriter = BodyOnly | StatusThenBody

  /** The calls `helper.WriteToResBody` makes to write `env`. */
  function ResBodyEvents(helper: BodyWriter, env: WebResponse): seq<Event>
  {
    match helper
    case BodyOnly => [Write(env)]
    case StatusThenBody => [WriteHeader(env.code), Write(env)]
  }

  /**
   * Writing an envelope on a writer with no committed status fixes 200 or
   * the envelope's code, depending on the helper; on a committed writer it
   * only appends the envelope.
   */
  lemma ResBodyOnWire(w: Wire, helper: BodyWriter, env: WebResponse)
    ensures var code := if helper.BodyOnly? then StatusOK else env.code;
            Run(w, ResBodyEvents(helper, env)) ==
            if w.status.Some? then w.(body := w.body + [env])
            else w.(status := Some(code), sent := w.header, body := w.body + [env])
  {
    var e := ResBodyEvents(helper, env);
    if helper.BodyOnly? {
      assert Run(Step(w, e[0]), e[1..]) == Step(w, e[0]);
    } else {
      var w1 := Step(w, e[0]);
      var w2 := Step(w1, e[1]);
      assert Run(w2, e[2..]) == w2;
      assert Run(w1, e[1..]) == w2;
    }
  }

  /** The JSON reply both the error mapper and the auth gate write. */
  function JsonReply(helper: BodyWriter, env: WebResponse): seq<Event>
  {
    [SetHeader(ContentType, ApplicationJson), WriteHeader(env.code)] + ResBodyEvents(helper, env)
  }

  /**
   * On a writer whose status is not yet committed, a JSON reply commits
   * exactly the envelope's code with a JSON content type and appends the
   * envelope to the body, whichever way the helper writes it.
   */
  lemma JsonReplyOnWire(w: Wire, helper: BodyWriter, env: WebResponse)
    requires w.status.None?
    ensures var h := w.header[ContentType := ApplicationJson];
            Run(w, JsonReply(helper, env)) == Wire(h, Some(env.code), h, w.body + [env])
  {
    var head := [SetHeader(ContentType, ApplicationJson), WriteHeader(env.code)];
    var w1 := Step(w, head[0]);
    var w2 := Step(w1, head[1]);
    assert Run(w2, head[2..]) == w2;
    assert Run(w1, head[1..]) == w2;
    RunAppend(w, head, ResBodyEvents(helper, env));
    ResBodyOnWire(w2, helper, env);
  }

  /** The same, after any calls that did not commit a status. */
  lemma JsonReplyAfter(before: seq<Event>, helper: BodyWriter, env: WebResponse)
    requires Run(Fresh, before).status.None?
    ensures var w := Run(Fresh, before + JsonReply(helper, env));
            w.status == Some(env.code) &&
            ContentType in w.sent && w.sent[ContentType] == ApplicationJson &&
            w.body == Run(Fresh, before).body + [env]
  {
    RunAppend(Fresh, before, JsonReply(helper, env));
    JsonReplyOnWire(Run(Fresh, before), helper, env);
  }

  /** An `http.ResponseWriter`; `trace` records every call made on it. */
  class ResponseWriter {
    var header: map<string, string>
    var status: Option<int>
    var sent: map<string, string>
    var body: seq<WebResponse>
    ghost var trace: seq<Event>

    function State(): Wire
      reads this
    {
      Wire(header, status, sent, body)
    }

    ghost predicate Valid()
      reads this
    {
      State() == Run(Fresh, trace)
    }

    constructor ()
      ensures Valid() && trace == []
    {
      header, status, sent, body := map[], None, map[], [];
      trace := [];
    }

    /** `w.Header().Set(key, value)`. */
    method SetHeader(key: string, value: string)
      requires Valid()
      modifies this
      ensures Valid() && trace == old(trace) + [Event.SetHeader(key, value)]
    {
      header := header[key := value];
      RunAppend(Fresh, trace, [Event.SetHeader(key, value)]);
      trace := trace + [Event.SetHeader(key, value)];
    }

    /** `w.WriteHeader(code)`; a second call has no effect. */
    method WriteHeader(code: int)
      requires Valid()
      modifies this
      ensures Valid() && trace == old(trace) + [Event.WriteHeader(code)]
    {
      if status.None? {
        status, sent := Some(code), header;
      }
      RunAppend(Fresh, trace, [Event.WriteHeader(code)]);
      trace := trace + [Event.WriteHeader(code)];
    }

    /** Writes one envelope to the body, committing status 200 first if none is. */
    method Write(env: WebResponse)
      requires Valid()
      modifies this
      ensures Valid() && trace == old(trace) + [Event.Write(env)]
    {
      if status.None? {
        status, sent := Some(StatusOK), header;
      }
      body := body + [env];
      RunAppend(Fresh, trace, [Event.Write(env)]);
      trace := trace + [Event.Write(env)];
    }

    /** Whatever calls a handler this model does not look inside makes. */
    method Emit(events: seq<Event>)
      requires Valid()
      modifies this
      ensures Valid() && trace == old(trace) + events
    {
      var w := Run(State(), events);
      header, status, sent, body := w.header, w.status, w.sent, w.body;
      RunAppend(Fresh, trace, events);
      trace := trace + events;
    }
  }

  /** `helper.WriteToResBody(w, env)`. */
  method WriteToResBody(w: ResponseWriter, helper: BodyWriter, env: WebResponse)
    requires w.Valid()
    modifies w
    ensures w.Valid() && w.trace == old(w.trace) + ResBodyEvents(helper, env)
  {
    if helper.StatusThenBody? {
      w.WriteHeader(env.code);
    }
    w.Write(env);
  }

  /**
   * An `http.Handler` whose code this model does not look inside: `respond`
   * gives the calls it makes on the writer, and `served` records every
   * request it has been invoked with.
   */
  class Handler {
    const respond: Request -> seq<Event>
    ghost var served: seq<Request>

    constructor (respond: Request -> seq<Event>)
      ensures this.respond == respond && served == []
    {
      this.respond := respond;
      served := [];
    }

    method ServeHTTP(w: ResponseWriter, r: Request)
      requires w.Valid()
      modifies this, w
      ensures w.Valid() && w.trace == old(w.trace) + respond(r)
      ensures served == old(served) + [r]
    {
      served := served + [r];
      w.Emit(respond(r));
    }
  }
}
