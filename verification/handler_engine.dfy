/** handler/engine/engine.go: the HTTP face of the engine service, in the
    same form as the car handlers. CreateEngine decodes its body twice,
    first into a models.Engine and then into a *models.EngineRequest; either
    failure is `Malformed`, and the JSON text `null`, which both accept and
    which leaves the request pointer nil, is `Decoded(None)`. The service
    dereferences that pointer, so that request panics. UpdateEngine decodes
    into a request value, where `null` leaves the zero request. */
module HandlerEngine {
  import opened Common
  import opened Models
  import opened Http
  import opened Stores

  /** A lookup error is a bare 500; an engine is sent as JSON with 200. */
  function GetEngineByID(id: string, service: string -> Result<Engine>): (r: seq<Action>)
    ensures service(id).Err? ==> Deliver(r) == Response(StatusInternalServerError, map[], [])
    ensures service(id).Ok? ==> Deliver(r) == Response(StatusOK, JsonHeader, [EngineJson(service(id).value)])
  {
    match service(id)
    case Err(_) =>
      BareStatusDelivers(StatusInternalServerError);
      [WriteHeader(StatusInternalServerError)]
    case Ok(e) =>
      JsonReplyDelivers(StatusOK, EngineJson(e));
      JsonReply(StatusOK, EngineJson(e))
  }

  /** An unreadable body is 400 but an undecodable one is 500; `null` gets
      no response at all; a service error is 500; the created engine is sent
      as JSON with 201. */
  function CreateEngine(body: Incoming<Option<EngineRequest>>, service: EngineRequest -> Result<Engine>): (r: seq<Action>)
    ensures body.ReadFailed? ==> Deliver(r) == Response(StatusBadRequest, map[], [])
    ensures body.Malformed? ==> Deliver(r) == Response(StatusInternalServerError, map[], [])
    ensures body == Decoded(None) ==> Deliver(r) == Aborted
    ensures body.Decoded? && body.value.Some? && service(body.value.value).Err? ==>
              Deliver(r) == Response(StatusInternalServerError, map[], [])
    ensures body.Decoded? && body.value.Some? && service(body.value.value).Ok? ==>
              Deliver(r) == Response(StatusCreated, JsonHeader, [EngineJson(service(body.value.value).value)])
  {
    match body
    case ReadFailed =>
      BareStatusDelivers(StatusBadRequest);
      [WriteHeader(StatusBadRequest)]
    case Malformed =>
      BareStatusDelivers(StatusInternalServerError);
      [WriteHeader(StatusInternalServerError)]
    case Decoded(None) =>
      PanicAborts([], []);
      assert [] + [Panic] + [] == [Panic];
      [Panic]
    case Decoded(Some(req)) =>
      match service(req)
      case Err(_) =>
        BareStatusDelivers(StatusInternalServerError);
        [WriteHeader(StatusInternalServerError)]
      case Ok(e) =>
        JsonReplyDelivers(StatusCreated, EngineJson(e));
        JsonReply(StatusCreated, EngineJson(e))
  }

  /** Only a decoded, non-null request reaches the service, and it is all
      the service is asked with. */
  lemma CreateEngineAsksOnce(body: Incoming<Option<EngineRequest>>, service: EngineRequest -> Result<Engine>,
                             other: EngineRequest -> Result<Engine>)
    requires body.Decoded? && body.value.Some? ==> other(body.value.value) == service(body.value.value)
    ensures CreateEngine(body, other) == CreateEngine(body, service)
  {
  }

  /** 400 for an unreadable body, 500 for an undecodable one or a service
      error, 200 with the engine otherwise. */
  function UpdateEngine(id: string, body: Incoming<EngineRequest>,
                        service: (string, EngineRequest) -> Result<Engine>): (r: seq<Action>)
    ensures body.ReadFailed? ==> Deliver(r) == Response(StatusBadRequest, map[], [])
    ensures body.Malformed? ==> Deliver(r) == Response(StatusInternalServerError, map[], [])
    ensures body.Decoded? && service(id, body.value).Err? ==>
              Deliver(r) == Response(StatusInternalServerError, map[], [])
    ensures body.Decoded? && service(id, body.value).Ok? ==>
              Deliver(r) == Response(StatusOK, JsonHeader, [EngineJson(service(id, body.value).value)])
  {
    match body
    case ReadFailed =>
      BareStatusDelivers(StatusBadRequest);
      [WriteHeader(StatusBadRequest)]
    case Malformed =>
      BareStatusDelivers(StatusInternalServerError);
      [WriteHeader(StatusInternalServerError)]
    case Decoded(req) =>
      match service(id, req)
      case Err(_) =>
        BareStatusDelivers(StatusInternalServerError);
        [WriteHeader(StatusInternalServerError)]
      case Ok(e) =>
        JsonReplyDelivers(StatusOK, EngineJson(e));
        JsonReply(StatusOK, EngineJson(e))
  }

  /** A body that is not decoded never reaches the service; otherwise the
      path id and the decoded request are all it is asked with. */
  lemma UpdateEngineAsksOnce(id: string, body: Incoming<EngineRequest>,
                             service: (string, EngineRequest) -> Result<Engine>,
                             other: (string, EngineRequest) -> Result<Engine>)
    requires body.Decoded? ==> other(id, body.value) == service(id, body.value)
    ensures UpdateEngine(id, body, other) == UpdateEngine(id, body, service)
  {
  }

  /** Exactly one of three answers: 500 with an error object when the service
      fails, 404 with an error object when it returns an engine whose
      identity is nil, 200 with the engine otherwise. */
  function DeleteEngine(id: string, service: string -> Result<Engine>): (r: seq<Action>)
    ensures Deliver(r).Response?
    ensures Deliver(r).status == StatusInternalServerError <==> service(id).Err?
    ensures Deliver(r).status == StatusNotFound <==> service(id).Ok? && service(id).value.engineId == NilUuid
    ensures Deliver(r).status == StatusOK <==> service(id).Ok? && service(id).value.engineId != NilUuid
    ensures service(id).Err? ==>
              Deliver(r) == Response(StatusInternalServerError, map[], [ErrorJson("Invalid ID or Engine not found")])
    ensures service(id).Ok? && service(id).value.engineId == NilUuid ==>
              Deliver(r) == Response(StatusNotFound, map[], [ErrorJson("Engine not found")])
    ensures service(id).Ok? && service(id).value.engineId != NilUuid ==>
              Deliver(r) == Response(StatusOK, JsonHeader, [EngineJson(service(id).value)])
  {
    match service(id)
    case Err(_) =>
      StatusThenWriteDelivers(StatusInternalServerError, ErrorJson("Invalid ID or Engine not found"));
      [WriteHeader(StatusInternalServerError), Write(ErrorJson("Invalid ID or Engine not found"))]
    case Ok(e) =>
      if e.engineId == NilUuid then
        StatusThenWriteDelivers(StatusNotFound, ErrorJson("Engine not found"));
        [WriteHeader(StatusNotFound), Write(ErrorJson("Engine not found"))]
      else
        JsonReplyDelivers(StatusOK, EngineJson(e));
        JsonReply(StatusOK, EngineJson(e))
  }

  /** When the store answers a missing id with the zero engine, that is what
      reaches the 404. */
  lemma MissingEngineIs404(id: string, service: string -> Result<Engine>)
    requires service(id) == Ok(ZeroEngine)
    ensures Deliver(DeleteEngine(id, service)) == Response(StatusNotFound, map[], [ErrorJson("Engine not found")])
  {
  }
}
