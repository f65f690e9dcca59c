/** handler/car/car.go: the HTTP face of the car service. Each handler is
    the list of calls it makes on the ResponseWriter, given the outcome of
    reading and decoding its body and the answer of the service it calls;
    the service is a function value, so that which arguments it receives,
    and whether it is consulted at all, can be stated. Path variables arrive
    as `id`; tracing spans and logging are dropped. */
module HandlerCar {
  import opened Common
  import opened Models
  import opened Http
  import opened Stores

  /** A parsed query string: every value given for each key, in order. */
  type Query = map<string, seq<string>>

  /** `url.Values.Get`: the first value for the key, or "" when there is none. */
  function QueryGet(q: Query, key: string): string
  {
    if key in q && q[key] != [] then q[key][0] else ""
  }

  /** A lookup error is passed to the client as plain text with 500; a car is
      sent as JSON with 200. */
  function GetCarByID(id: string, service: string -> Result<Car>): (r: seq<Action>)
    ensures service(id).Err? ==>
              Deliver(r) == Response(StatusInternalServerError, ErrorHeader, [Text(service(id).error.message + "\n")])
    ensures service(id).Ok? ==> Deliver(r) == Response(StatusOK, JsonHeader, [CarJson(service(id).value)])
  {
    match service(id)
    case Err(e) =>
      ErrorFirst(e.message, StatusInternalServerError, []);
      assert HttpError(e.message, StatusInternalServerError) + [] == HttpError(e.message, StatusInternalServerError);
      HttpError(e.message, StatusInternalServerError)
    case Ok(car) =>
      JsonReplyDelivers(StatusOK, CarJson(car));
      JsonReply(StatusOK, CarJson(car))
  }

  /** The service is asked with the first `brand` value and with `isEngine`
      set exactly when the first `engine` value is "true"; an error is a bare
      500, a list is sent as JSON with 200. */
  function GetCarByBrand(q: Query, service: (string, bool) -> Result<seq<Car>>): (r: seq<Action>)
    ensures service(QueryGet(q, "brand"), QueryGet(q, "engine") == "true").Err? ==>
              Deliver(r) == Response(StatusInternalServerError, map[], [])
    ensures service(QueryGet(q, "brand"), QueryGet(q, "engine") == "true").Ok? ==>
              Deliver(r) == Response(StatusOK, JsonHeader,
                                     [CarsJson(service(QueryGet(q, "brand"), QueryGet(q, "engine") == "true").value)])
  {
    var brand := QueryGet(q, "brand");
    var isEngine := QueryGet(q, "engine") == "true";
    match service(brand, isEngine)
    case Err(_) =>
      BareStatusDelivers(StatusInternalServerError);
      [WriteHeader(StatusInternalServerError)]
    case Ok(cars) =>
      JsonReplyDelivers(StatusOK, CarsJson(cars));
      JsonReply(StatusOK, CarsJson(cars))
  }

  /** Only the service's answer for the query's first `brand` and `engine`
      values matters. */
  lemma GetCarByBrandAsksOnce(q: Query, service: (string, bool) -> Result<seq<Car>>,
                              other: (string, bool) -> Result<seq<Car>>)
    requires other(QueryGet(q, "brand"), QueryGet(q, "engine") == "true")
             == service(QueryGet(q, "brand"), QueryGet(q, "engine") == "true")
    ensures GetCarByBrand(q, other) == GetCarByBrand(q, service)
  {
  }

  /** The engine flag reads only the first `engine` value and only the exact
      text "true" sets it: "True", "1", a missing key and a "true" after
      another value all leave it off. */
  lemma EngineFlagIsExact()
    ensures QueryGet(map["engine" := ["true", "false"]], "engine") == "true"
    ensures QueryGet(map["engine" := ["false", "true"]], "engine") != "true"
    ensures QueryGet(map["engine" := ["True"]], "engine") != "true"
    ensures QueryGet(map["engine" := ["1"]], "engine") != "true"
    ensures QueryGet(map["engine" := []], "engine") != "true"
    ensures QueryGet(map[], "engine") != "true"
  {
    assert "" != "true";
    assert "True" != "true";
  }

  /** An unreadable or undecodable body is a bare 400; a service error is a
      bare 500; the created car is sent as JSON with 201. */
  function CreateCar(body: Incoming<CarRequest>, service: CarRequest -> Result<Car>): (r: seq<Action>)
    ensures !body.Decoded? ==> Deliver(r) == Response(StatusBadRequest, map[], [])
    ensures body.Decoded? && service(body.value).Err? ==>
              Deliver(r) == Response(StatusInternalServerError, map[], [])
    ensures body.Decoded? && service(body.value).Ok? ==>
              Deliver(r) == Response(StatusCreated, JsonHeader, [CarJson(service(body.value).value)])
  {
    match body
    case ReadFailed =>
      BareStatusDelivers(StatusBadRequest);
      [WriteHeader(StatusBadRequest)]
    case Malformed =>
      BareStatusDelivers(StatusBadRequest);
      [WriteHeader(StatusBadRequest)]
    case Decoded(req) =>
      match service(req)
      case Err(_) =>
        BareStatusDelivers(StatusInternalServerError);
        [WriteHeader(StatusInternalServerError)]
      case Ok(car) =>
        JsonReplyDelivers(StatusCreated, CarJson(car));
        JsonReply(StatusCreated, CarJson(car))
  }

  /** A body that is not decoded never reaches the service, and a decoded one
      is all the service is asked with. */
  lemma CreateCarAsksOnce(body: Incoming<CarRequest>, service: CarRequest -> Result<Car>,
                          other: CarRequest -> Result<Car>)
    requires body.Decoded? ==> other(body.value) == service(body.value)
    ensures CreateCar(body, other) == CreateCar(body, service)
  {
  }

  /** A well-formed body whose request fails validation is answered 500,
      not 400: the service reports the validation error and the handler
      maps every service error to 500. */
  lemma InvalidCarIs500(req: CarRequest, currentYear: int, service: CarRequest -> Result<Car>)
    requires ValidateCarRequest(req, currentYear).Fail?
    requires service(req) == Err(ValidateCarRequest(req, currentYear).error)
    ensures Deliver(CreateCar(Decoded(req), service)) == Response(StatusInternalServerError, map[], [])
  {
  }

  /** As CreateCar, with 200 on success. */
  function UpdateCar(id: string, body: Incoming<CarRequest>, service: (string, CarRequest) -> Result<Car>): (r: seq<Action>)
    ensures !body.Decoded? ==> Deliver(r) == Response(StatusBadRequest, map[], [])
    ensures body.Decoded? && service(id, body.value).Err? ==>
              Deliver(r) == Response(StatusInternalServerError, map[], [])
    ensures body.Decoded? && service(id, body.value).Ok? ==>
              Deliver(r) == Response(StatusOK, JsonHeader, [CarJson(service(id, body.value).value)])
  {
    match body
    case ReadFailed =>
      BareStatusDelivers(StatusBadRequest);
      [WriteHeader(StatusBadRequest)]
    case Malformed =>
      BareStatusDelivers(StatusBadRequest);
      [WriteHeader(StatusBadRequest)]
    case Decoded(req) =>
      match service(id, req)
      case Err(_) =>
        BareStatusDelivers(StatusInternalServerError);
        [WriteHeader(StatusInternalServerError)]
      case Ok(car) =>
        JsonReplyDelivers(StatusOK, CarJson(car));
        JsonReply(StatusOK, CarJson(car))
  }

  /** A body that is not decoded never reaches the service; otherwise the
      path id and the decoded request are all it is asked with. */
  lemma UpdateCarAsksOnce(id: string, body: Incoming<CarRequest>, service: (string, CarRequest) -> Result<Car>,
                          other: (string, CarRequest) -> Result<Car>)
    requires body.Decoded? ==> other(id, body.value) == service(id, body.value)
    ensures UpdateCar(id, body, other) == UpdateCar(id, body, service)
  {
  }

  /** An error is a bare 500 and anything else is 200 with the record: there
      is no 404 branch. */
  function DeleteCar(id: string, service: string -> Result<Car>): (r: seq<Action>)
    ensures service(id).Err? ==> Deliver(r) == Response(StatusInternalServerError, map[], [])
    ensures service(id).Ok? ==> Deliver(r) == Response(StatusOK, JsonHeader, [CarJson(service(id).value)])
  {
    match service(id)
    case Err(_) =>
      BareStatusDelivers(StatusInternalServerError);
      [WriteHeader(StatusInternalServerError)]
    case Ok(car) =>
      JsonReplyDelivers(StatusOK, CarJson(car));
      JsonReply(StatusOK, CarJson(car))
  }

  /** When the store answers a missing id with the zero car, deleting a car
      that does not exist is answered 200, never 404. */
  lemma MissingCarDeleted200(id: string, service: string -> Result<Car>)
    requires service(id) == Ok(ZeroCar)
    ensures Deliver(DeleteCar(id, service)) == Response(StatusOK, JsonHeader, [CarJson(ZeroCar)])
    ensures Deliver(DeleteCar(id, service)).status != StatusNotFound
  {
  }

  /** GetCar has an empty body: it answers 200 with no headers and an empty
      body. */
  function GetCar(): (r: seq<Action>)
    ensures Deliver(r) == Response(StatusOK, map[], [])
  {
    NothingWritten([]);
    []
  }
}
