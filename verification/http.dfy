/** The part of net/http's ResponseWriter that decides what a client
    receives. A handler is modelled by the list of calls it makes on the
    writer; Deliver gives the response those calls produce:
    - the first WriteHeader fixes the status, later ones are ignored;
    - the header map is sent as it stands when the status is fixed, so a
      header set afterwards never reaches the client;
    - a Write before any WriteHeader fixes the status at 200;
    - a handler that writes nothing answers 200 with an empty body;
    - a panic aborts the exchange: the server recovers it and drops the
      connection. That is what the client sees of a panic that comes before
      anything was written, the only kind the handlers here raise; a panic
      after a write, once part of the response may already have been
      flushed, is not modelled. */
module Http {
  import opened Common
  import opened Models

  const StatusOK: int := 200
  const StatusCreated: int := 201
  const StatusBadRequest: int := 400
  const StatusUnauthorized: int := 401
  const StatusNotFound: int := 404
  const StatusInternalServerError: int := 500

  const ContentType: string := "Content-Type"
  const ApplicationJson: string := "application/json"
  const PlainText: string := "text/plain; charset=utf-8"

  /** What a handler writes into the body. JSON encodings are kept as the
      values they encode. */
  datatype Body =
    | Text(text: string)
    | CarJson(car: Car)
    | CarsJson(cars: seq<Car>)
    | EngineJson(engine: Engine)
    | TokenJson(token: string)        // {"token": ...}
    | ErrorJson(message: string)      // {"error": ...}

  datatype Action =
    | SetHeader(name: string, value: string)   // w.Header().Set
    | WriteHeader(code: int)                    // w.WriteHeader
    | Write(chunk: Body)                        // w.Write, an encoder writing into w
    | Panic                                     // a run-time panic in the handler

  datatype Committed = Committed(status: int, header: map<string, string>)

  /** The writer's state: the live header map, what was fixed at commit,
      the body so far, and whether the handler panicked. */
  datatype Writer = Writer(
    header: map<string, string>, sent: Option<Committed>, body: seq<Body>, panicked: bool)

  const Fresh: Writer := Writer(map[], None, [], false)

  function Step(w: Writer, a: Action): Writer
  {
    if w.panicked then w
    else match a
      case SetHeader(name, value) => w.(header := w.header[name := value])
      case WriteHeader(code) =>
        if w.sent.Some? then w else w.(sent := Some(Committed(code, w.header)))
      case Write(chunk) =>
        var c := if w.sent.Some? then w.sent else Some(Committed(StatusOK, w.header));
        w.(sent := c, body := w.body + [chunk])
      case Panic => w.(panicked := true)
  }

  function Run(w: Writer, actions: seq<Action>): Writer
    decreases |actions|
  {
    if actions == [] then w else Run(Step(w, actions[0]), actions[1..])
  }

  datatype Response = Aborted | Response(status: int, header: map<string, string>, body: seq<Body>)

  /** What the client receives once the handler has returned. */
  function Deliver(actions: seq<Action>): Response
  {
    var w := Run(Fresh, actions);
    if w.panicked then Aborted
    else match w.sent
      case None => Response(StatusOK, w.header, w.body)
      case Some(c) => Response(c.status, c.header, w.body)
  }

  /** `http.Error(w, message, code)`. */
  function HttpError(message: string, code: int): seq<Action>
  {
    [ SetHeader(ContentType, PlainText), SetHeader("X-Content-Type-Options", "nosniff"),
      WriteHeader(code), Write(Text(message + "\n")) ]
  }

  /** The header map http.Error sends with its status. */
  const ErrorHeader: map<string, string> :=
    map[ContentType := PlainText, "X-Content-Type-Options" := "nosniff"]

  predicate OnlyHeaders(actions: seq<Action>)
  {
    forall i :: 0 <= i < |actions| ==> actions[i].SetHeader?
  }

  predicate NoPanic(actions: seq<Action>)
  {
    forall i :: 0 <= i < |actions| ==> !actions[i].Panic?
  }

  /** The header map after a run of Header().Set calls. */
  function Headers(h: map<string, string>, actions: seq<Action>): map<string, string>
    requires OnlyHeaders(actions)
    decreases |actions|
  {
    if actions == [] then h else Headers(h[actions[0].name := actions[0].value], actions[1..])
  }

  /** The body chunks of a list of writer calls, in order. */
  function Bodies(actions: seq<Action>): seq<Body>
  {
    if actions == [] then []
    else (if actions[0].Write? then [actions[0].chunk] else []) + Bodies(actions[1..])
  }

  lemma {:induction false} RunAppend(w: Writer, a: seq<Action>, b: seq<Action>)
    ensures Run(w, a + b) == Run(Run(w, a), b)
    decreases |a|
  {
    if a != [] {
      assert (a + b)[0] == a[0];
      assert (a + b)[1..] == a[1..] + b;
      RunAppend(Step(w, a[0]), a[1..], b);
    } else {
      assert a + b == b;
    }
  }

  /** Before the status is fixed, header sets only change the live map. */
  lemma {:induction false} RunHeaders(w: Writer, pre: seq<Action>)
    requires OnlyHeaders(pre) && w.sent.None? && !w.panicked
    ensures Run(w, pre) == w.(header := Headers(w.header, pre))
    decreases |pre|
  {
    if pre != [] {
      RunHeaders(Step(w, pre[0]), pre[1..]);
    }
  }

  /** Once the status is fixed it stays fixed, and later writes only append
      to the body. */
  lemma {:induction false} RunCommitted(w: Writer, post: seq<Action>)
    requires w.sent.Some? && !w.panicked && NoPanic(post)
    ensures Run(w, post).sent == w.sent && !Run(w, post).panicked
    ensures Run(w, post).body == w.body + Bodies(post)
    decreases |post|
  {
    if post != [] {
      var next := Step(w, post[0]);
      var chunk := if post[0].Write? then [post[0].chunk] else [];
      assert next.sent == w.sent && !next.panicked;
      assert next.body == w.body + chunk;
      RunCommitted(next, post[1..]);
      assert Bodies(post) == chunk + Bodies(post[1..]);
      assert w.body + chunk + Bodies(post[1..]) == w.body + Bodies(post);
    }
  }

  /** The first WriteHeader wins and headers set after it are not sent. */
  lemma FirstStatusWins(pre: seq<Action>, code: int, post: seq<Action>)
    requires OnlyHeaders(pre) && NoPanic(post)
    ensures Deliver(pre + [WriteHeader(code)] + post)
            == Response(code, Headers(map[], pre), Bodies(post))
  {
    RunAppend(Fresh, pre + [WriteHeader(code)], post);
    RunAppend(Fresh, pre, [WriteHeader(code)]);
    RunHeaders(Fresh, pre);
    RunCommitted(Run(Fresh, pre + [WriteHeader(code)]), post);
  }

  /** A Write before any WriteHeader answers 200 with the headers set so far. */
  lemma ImplicitOK(pre: seq<Action>, chunk: Body, post: seq<Action>)
    requires OnlyHeaders(pre) && NoPanic(post)
    ensures Deliver(pre + [Write(chunk)] + post)
            == Response(StatusOK, Headers(map[], pre), [chunk] + Bodies(post))
  {
    RunAppend(Fresh, pre + [Write(chunk)], post);
    RunAppend(Fresh, pre, [Write(chunk)]);
    RunHeaders(Fresh, pre);
    RunCommitted(Run(Fresh, pre + [Write(chunk)]), post);
  }

  /** A handler that sets headers at most answers 200 with an empty body. */
  lemma NothingWritten(pre: seq<Action>)
    requires OnlyHeaders(pre)
    ensures Deliver(pre) == Response(StatusOK, Headers(map[], pre), [])
  {
    RunHeaders(Fresh, pre);
  }

  /** A panic before anything is written leaves the client without a response. */
  lemma PanicAborts(pre: seq<Action>, post: seq<Action>)
    requires OnlyHeaders(pre)
    ensures Deliver(pre + [Panic] + post) == Aborted
  {
    RunAppend(Fresh, pre + [Panic], post);
    RunAppend(Fresh, pre, [Panic]);
    RunHeaders(Fresh, pre);
    var w := Run(Fresh, pre + [Panic]);
    assert w.panicked;
    PanickedStays(w, post);
  }

  lemma {:induction false} PanickedStays(w: Writer, post: seq<Action>)
    requires w.panicked
    ensures Run(w, post) == w
    decreases |post|
  {
    if post != [] {
      PanickedStays(Step(w, post[0]), post[1..]);
    }
  }

  /** `http.Error` followed by further calls: its status, its headers, its
      text first in the body. */
  lemma ErrorFirst(message: string, code: int, post: seq<Action>)
    requires NoPanic(post)
    ensures Deliver(HttpError(message, code) + post)
            == Response(code, ErrorHeader, [Text(message + "\n")] + Bodies(post))
  {
    var pre := [SetHeader(ContentType, PlainText), SetHeader("X-Content-Type-Options", "nosniff")];
    assert HttpError(message, code) + post == pre + [WriteHeader(code)] + ([Write(Text(message + "\n"))] + post);
    FirstStatusWins(pre, code, [Write(Text(message + "\n"))] + post);
    assert ([Write(Text(message + "\n"))] + post)[1..] == post;
    assert Headers(map[], pre) == ErrorHeader by {
      var h1 := map[][ContentType := PlainText];
      var h2 := h1["X-Content-Type-Options" := "nosniff"];
      assert pre[1..][1..] == [];
      assert Headers(map[], pre) == Headers(h1, pre[1..]);
      assert Headers(h1, pre[1..]) == Headers(h2, pre[1..][1..]);
      assert h2 == ErrorHeader;
    }
  }

  /** What a handler gets from reading and decoding its request body. */
  datatype Incoming<T> = ReadFailed | Malformed | Decoded(value: T)

  /** The header map of a JSON answer. */
  const JsonHeader: map<string, string> := map[ContentType := ApplicationJson]

  /** Set the JSON content type, fix the status, write the encoded value. */
  function JsonReply(code: int, body: Body): seq<Action>
  {
    [SetHeader(ContentType, ApplicationJson), WriteHeader(code), Write(body)]
  }

  lemma JsonReplyDelivers(code: int, body: Body)
    ensures Deliver(JsonReply(code, body)) == Response(code, JsonHeader, [body])
  {
    var pre := [SetHeader(ContentType, ApplicationJson)];
    assert JsonReply(code, body) == pre + [WriteHeader(code)] + [Write(body)];
    FirstStatusWins(pre, code, [Write(body)]);
    assert Headers(map[], pre) == Headers(JsonHeader, pre[1..]);
    assert Bodies([Write(body)]) == [body] + Bodies([]);
  }

  /** A bare `w.WriteHeader(code)`: that status, no headers, no body. */
  lemma BareStatusDelivers(code: int)
    ensures Deliver([WriteHeader(code)]) == Response(code, map[], [])
  {
    FirstStatusWins([], code, []);
    assert [] + [WriteHeader(code)] + [] == [WriteHeader(code)];
  }

  /** A status followed by one write: that status, no headers, that body. */
  lemma StatusThenWriteDelivers(code: int, body: Body)
    ensures Deliver([WriteHeader(code), Write(body)]) == Response(code, map[], [body])
  {
    FirstStatusWins([], code, [Write(body)]);
    assert [] + [WriteHeader(code)] + [Write(body)] == [WriteHeader(code), Write(body)];
    assert Bodies([Write(body)]) == [body] + Bodies([]);
  }
}
