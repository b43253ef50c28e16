/** The parts of Go's net/http that the modelled handlers touch: a response
    writer whose every effect is recorded, in order, together with the calls a
    handler makes to the next stage of the pipeline and to its collaborators.
    What a client would observe is obtained by replaying that record. */
module Http {

  datatype Option<T> = None | Some(value: T)

  datatype Result<T> = Ok(value: T) | Err(message: string)

  /** A status code net/http accepts in WriteHeader (it panics on others;
      every code the modelled handlers write is a constant in this range). */
  type StatusCode = c: nat | 100 <= c <= 999 witness 200

  const StatusOK: StatusCode := 200
  const StatusCreated: StatusCode := 201
  const StatusNoContent: StatusCode := 204
  const StatusBadRequest: StatusCode := 400
  const StatusForbidden: StatusCode := 403
  const StatusInternalServerError: StatusCode := 500

  const MethodOptions := "OPTIONS"

  const ContentType := "Content-Type"
  const JsonContentType := "application/json"

  /** One chunk written to the response body: text, or a value given to a
      JSON encoder (the encoding itself is not modelled). */
  datatype Body<P> = Text(text: string) | Json(value: P)

  /** One effect of a handler, in the order it happens. */
  datatype Event<P, C> =
    | HeaderSet(key: string, value: string)  // w.Header().Set
    | HeaderDeleted(key: string)             // w.Header().Del
    | StatusWritten(code: StatusCode)        // w.WriteHeader
    | BodyWritten(chunk: Body<P>)            // a write to the body
    | NextCalled                             // next.ServeHTTP(w, r)
    | Called(request: C)                     // a call to a collaborator
    | Panicked                               // the handler panicked

  /** What the effects so far amount to: the header map the handler holds,
      the status code (0 while none has been written), the body chunks, how
      often the next stage ran and which collaborator calls were made. */
  datatype Exchange<P, C> = Exchange(
    header: map<string, string>,
    status: nat,
    body: seq<Body<P>>,
    nextCalls: nat,
    calls: seq<C>,
    panicked: bool)

  function Fresh<P, C>(): Exchange<P, C> {
    Exchange(map[], 0, [], 0, [], false)
  }

  /** Effect of one event. A second WriteHeader is ignored, and a body write
      before any WriteHeader fixes the status at 200, as net/http does. */
  function Step<P, C>(x: Exchange<P, C>, e: Event<P, C>): Exchange<P, C> {
    match e
    case HeaderSet(k, v) => x.(header := x.header[k := v])
    case HeaderDeleted(k) => x.(header := x.header - {k})
    case StatusWritten(code) => if x.status == 0 then x.(status := code) else x
    case BodyWritten(chunk) =>
      x.(status := if x.status == 0 then StatusOK else x.status, body := x.body + [chunk])
    case NextCalled => x.(nextCalls := x.nextCalls + 1)
    case Called(c) => x.(calls := x.calls + [c])
    case Panicked => x.(panicked := true)
  }

  function Run<P, C>(x: Exchange<P, C>, t: seq<Event<P, C>>): Exchange<P, C>
    decreases |t|
  {
    if t == [] then x else Run(Step(x, t[0]), t[1..])
  }

  /** The status a client receives once the handler returns: net/http sends
      200 when nothing was written. */
  function FinalStatus<P, C>(x: Exchange<P, C>): nat {
    if x.status == 0 then StatusOK else x.status
  }

  /** Replaying two stretches of effects one after the other is replaying
      their concatenation. */
  lemma {:induction false} RunAppend<P, C>(x: Exchange<P, C>, a: seq<Event<P, C>>, b: seq<Event<P, C>>)
    ensures Run(x, a + b) == Run(Run(x, a), b)
    decreases |a|
  {
    if a == [] {
      assert a + b == b;
    } else {
      assert (a + b)[0] == a[0];
      assert (a + b)[1..] == a[1..] + b;
      RunAppend(Step(x, a[0]), a[1..], b);
    }
  }

  /** Replaying from the first effect on. */
  lemma RunFirst<P, C>(x: Exchange<P, C>, e: Event<P, C>, rest: seq<Event<P, C>>)
    ensures Run(x, [e] + rest) == Run(Step(x, e), rest)
  {
    RunAppend(x, [e], rest);
  }

  /** The effects of http.Error(w, message, code). */
  function ErrorEffects<P, C>(message: string, code: StatusCode): seq<Event<P, C>> {
    [ HeaderDeleted("Content-Length"),
      HeaderSet(ContentType, "text/plain; charset=utf-8"),
      HeaderSet("X-Content-Type-Options", "nosniff"),
      StatusWritten(code),
      BodyWritten(Text(message + "\n")) ]
  }

  /** y is x after one error answer: the status is `code` unless one was
      written before, the body gained exactly the message and a newline, and
      the next stage did not run. */
  ghost predicate Answered<P, C>(x: Exchange<P, C>, y: Exchange<P, C>, message: string, code: StatusCode) {
    && y.status == (if x.status == 0 then code else x.status)
    && y.body == x.body + [Text(message + "\n")]
    && y.nextCalls == x.nextCalls
  }

  /** http.Error leaves the status at `code` unless one was already written,
      appends the message and a newline as the one new body chunk, marks the
      body as plain text, and neither calls anything nor runs the next stage. */
  lemma ErrorObserved<P, C>(x: Exchange<P, C>, message: string, code: StatusCode)
    ensures var y := Run(x, ErrorEffects<P, C>(message, code));
      && Answered(x, y, message, code)
      && y.header == (x.header - {"Content-Length"})[ContentType := "text/plain; charset=utf-8"]["X-Content-Type-Options" := "nosniff"]
      && y.calls == x.calls && y.panicked == x.panicked
  {
    var t := ErrorEffects<P, C>(message, code);
    assert t == [t[0]] + [t[1]] + [t[2]] + [t[3]] + [t[4]];
    RunAppend(x, [t[0]] + [t[1]] + [t[2]] + [t[3]], [t[4]]);
    RunAppend(x, [t[0]] + [t[1]] + [t[2]], [t[3]]);
    RunAppend(x, [t[0]] + [t[1]], [t[2]]);
    RunAppend(x, [t[0]], [t[1]]);
  }

  /** A response writer that keeps the record of everything done to it. */
  class ResponseWriter<P, C> {
    var trace: seq<Event<P, C>>

    /** What the recorded effects amount to. */
    function State(): Exchange<P, C>
      reads this
    {
      Run(Fresh(), trace)
    }

    constructor ()
      ensures trace == []
      ensures State() == Fresh()
    {
      trace := [];
    }

    method Record(e: Event<P, C>)
      modifies this
      ensures trace == old(trace) + [e]
      ensures State() == Step(old(State()), e)
    {
      RunAppend(Fresh(), trace, [e]);
      trace := trace + [e];
    }

    method Set(key: string, value: string)
      modifies this
      ensures trace == old(trace) + [HeaderSet(key, value)]
      ensures State() == old(State()).(header := old(State()).header[key := value])
    {
      Record(HeaderSet(key, value));
    }

    method WriteHeader(code: StatusCode)
      modifies this
      ensures trace == old(trace) + [StatusWritten(code)]
      ensures State().status == if old(State()).status == 0 then code else old(State()).status
    {
      Record(StatusWritten(code));
    }

    method Write(chunk: Body<P>)
      modifies this
      ensures trace == old(trace) + [BodyWritten(chunk)]
      ensures State().body == old(State()).body + [chunk]
      ensures State().status == FinalStatus(old(State()))
    {
      Record(BodyWritten(chunk));
    }

    /** Hands the request to the next stage of the pipeline. */
    method Next()
      modifies this
      ensures trace == old(trace) + [NextCalled]
      ensures State() == old(State()).(nextCalls := old(State()).nextCalls + 1)
    {
      Record(NextCalled);
    }

    /** Calls a collaborator; its answer is an input of the caller. */
    method Invoke(request: C)
      modifies this
      ensures trace == old(trace) + [Called(request)]
      ensures State() == old(State()).(calls := old(State()).calls + [request])
    {
      Record(Called(request));
    }

    /** http.Error(w, message, code). */
    method Error(message: string, code: StatusCode)
      modifies this
      ensures trace == old(trace) + ErrorEffects(message, code)
    {
      Record(HeaderDeleted("Content-Length"));
      Set(ContentType, "text/plain; charset=utf-8");
      Set("X-Content-Type-Options", "nosniff");
      WriteHeader(code);
      Write(Text(message + "\n"));
    }
  }
}
