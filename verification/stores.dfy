/** The persistence collaborators the services call (store.CarStoreInterface
    and store.EngineStoreInterface). Their implementations are not part of
    this model; each is a keyed table plus a log of the calls it received,
    so that what a service asks of its store can be stated. Three inputs the
    real stores take from their surroundings are fields set from outside:
    `failure` (the database is unreachable: every call fails with it),
    `nextId` (the identity the next created record receives, a random UUID
    drawn anew for every insert in the real store) and `clock` (Unix
    seconds). A record is kept under the text of its own identity. The
    real store relies on a random UUID never repeating; here that is the
    precondition `FreshDraw` of a create, which whoever sets `nextId`
    must meet before each one. */
module Stores {
  import opened Common
  import opened Models

  /** The error database/sql reports for a missing row. */
  const NoRows: Error := Error("sql: no rows in result set")

  function HexDigit(d: nat): char
    requires d < 16
  {
    if d < 10 then ('0' as int + d) as char else ('a' as int + d - 10) as char
  }

  /** The last n hexadecimal digits of x, most significant first. */
  function HexDigits(x: nat, n: nat): (s: string)
    ensures |s| == n
  {
    if n == 0 then [] else HexDigits(x / 16, n - 1) + [HexDigit(x % 16)]
  }

  /** `uuid.UUID.String()`: 32 lower-case hex digits grouped 8-4-4-4-12. */
  function IdText(u: Uuid): (s: string)
    ensures |s| == 36 && s[8] == '-' && s[13] == '-' && s[18] == '-' && s[23] == '-'
  {
    var h := HexDigits(u, 32);
    h[..8] + "-" + h[8..12] + "-" + h[12..16] + "-" + h[16..20] + "-" + h[20..]
  }

  const ZeroEngine: Engine := Engine(NilUuid, 0, 0, 0)

  /** The zero value of models.Car, whose identity is uuid.Nil. */
  const ZeroCar: Car := Car(NilUuid, "", "", "", "", ZeroEngine, 0.0, 0, 0)

  datatype CarCall =
    | GetCarByID(id: string)
    | GetCarByBrand(brand: string, isEngine: bool)
    | CreateCar(req: CarRequest)
    | UpdateCar(id: string, req: CarRequest)
    | DeleteCar(id: string)

  class CarStore {
    var cars: map<string, Car>
    var calls: seq<CarCall>
    var failure: Option<Error>
    var nextId: Uuid
    var clock: int

    ghost predicate Valid()
      reads this`cars, this`nextId
    {
      && nextId != NilUuid
      && forall k | k in cars :: cars[k].id != NilUuid && IdText(cars[k].id) == k
    }

    /** The identity the next create will use is not taken yet. */
    predicate FreshDraw()
      reads this`cars, this`nextId
    {
      IdText(nextId) !in cars
    }

    constructor (nextId: Uuid, clock: int)
      requires nextId != NilUuid
      ensures Valid()
      ensures cars == map[] && calls == [] && failure == None
      ensures this.nextId == nextId && this.clock == clock
    {
      cars := map[];
      calls := [];
      failure := None;
      this.nextId := nextId;
      this.clock := clock;
    }

    /** The answer to a lookup of the record kept under `id`. */
    function LookupReply(id: string): (r: Result<Car>)
      reads this`cars, this`failure
    {
      if failure.Some? then Err(failure.value)
      else if id in cars then Ok(cars[id])
      else Err(NoRows)
    }

    /** The record a successful create stores and returns. */
    function Created(req: CarRequest): (c: Car)
      reads this`nextId, this`clock
    {
      Car(nextId, req.name, req.year, req.brand, req.fuelType, req.engine, req.price, clock, clock)
    }

    /** A stored car with the request's fields written over it. */
    function Updated(c: Car, req: CarRequest): Car
      reads this`clock
    {
      c.(name := req.name, year := req.year, brand := req.brand, fuelType := req.fuelType,
         engine := req.engine, price := req.price, updatedAt := clock)
    }

    method GetCarByID(id: string) returns (r: Result<Car>)
      requires Valid()
      modifies this`calls
      ensures calls == old(calls) + [CarCall.GetCarByID(id)]
      ensures r == LookupReply(id)
      ensures r.Ok? ==> IdText(r.value.id) == id
    {
      calls := calls + [CarCall.GetCarByID(id)];
      r := LookupReply(id);
    }

    /** Every stored car of the brand and nothing else, in no particular
        order. */
    method GetCarByBrand(brand: string, isEngine: bool) returns (r: Result<seq<Car>>)
      modifies this`calls
      ensures calls == old(calls) + [CarCall.GetCarByBrand(brand, isEngine)]
      ensures failure.Some? ==> r == Err(failure.value)
      ensures failure.None? ==> r.Ok?
      ensures r.Ok? ==> forall c :: c in r.value <==> c in cars.Values && c.brand == brand
    {
      calls := calls + [CarCall.GetCarByBrand(brand, isEngine)];
      if failure.Some? {
        return Err(failure.value);
      }
      var keys := cars.Keys;
      var found: seq<Car> := [];
      while keys != {}
        invariant keys <= cars.Keys
        invariant forall c :: c in found ==> c in cars.Values && c.brand == brand
        invariant forall k :: k in cars && k !in keys && cars[k].brand == brand ==> cars[k] in found
        decreases keys
      {
        var k :| k in keys;
        if cars[k].brand == brand {
          found := found + [cars[k]];
        }
        keys := keys - {k};
      }
      r := Ok(found);
    }

    /** Inserts a new record under a fresh identity: nothing stored before
        is overwritten, and the table grows by exactly that one key. */
    method CreateCar(req: CarRequest) returns (r: Result<Car>)
      requires Valid() && FreshDraw()
      modifies this`cars, this`calls
      ensures Valid()
      ensures calls == old(calls) + [CarCall.CreateCar(req)]
      ensures failure.Some? ==> r == Err(failure.value) && cars == old(cars)
      ensures failure.None? ==> r == Ok(Created(req)) && cars == old(cars)[IdText(nextId) := Created(req)]
      ensures r.Ok? ==> IdText(r.value.id) !in old(cars) && cars.Keys == old(cars).Keys + {IdText(r.value.id)}
      ensures r.Ok? ==> forall k | k in old(cars) :: k in cars && cars[k] == old(cars)[k]
    {
      calls := calls + [CarCall.CreateCar(req)];
      if failure.Some? {
        r := Err(failure.value);
      } else {
        cars := cars[IdText(nextId) := Created(req)];
        r := Ok(Created(req));
      }
    }

    method UpdateCar(id: string, req: CarRequest) returns (r: Result<Car>)
      requires Valid()
      modifies this`cars, this`calls
      ensures Valid()
      ensures calls == old(calls) + [CarCall.UpdateCar(id, req)]
      ensures failure.None? && id in old(cars) ==>
                r == Ok(Updated(old(cars)[id], req)) && cars == old(cars)[id := r.value]
      ensures failure.Some? || id !in old(cars) ==>
                r == old(LookupReply(id)) && cars == old(cars)
    {
      calls := calls + [CarCall.UpdateCar(id, req)];
      if failure.Some? {
        r := Err(failure.value);
      } else if id in cars {
        r := Ok(Updated(cars[id], req));
        cars := cars[id := r.value];
      } else {
        r := Err(NoRows);
      }
    }

    /** Removes the record and returns it; a missing record is answered with
        the zero car (identity uuid.Nil) and no error. */
    method DeleteCar(id: string) returns (r: Result<Car>)
      requires Valid()
      modifies this`cars, this`calls
      ensures Valid()
      ensures calls == old(calls) + [CarCall.DeleteCar(id)]
      ensures failure.Some? ==> r == Err(failure.value) && cars == old(cars)
      ensures failure.None? && id in old(cars) ==> r == Ok(old(cars)[id]) && cars == old(cars) - {id}
      ensures failure.None? && id !in old(cars) ==> r == Ok(ZeroCar) && cars == old(cars)
    {
      calls := calls + [CarCall.DeleteCar(id)];
      if failure.Some? {
        r := Err(failure.value);
      } else if id in cars {
        r := Ok(cars[id]);
        cars := cars - {id};
      } else {
        r := Ok(ZeroCar);
      }
    }
  }

  datatype EngineCall =
    | EngineByID(id: string)
    | CreateEngine(req: EngineRequest)
    | UpdateEngine(id: string, req: EngineRequest)
    | DeleteEngine(id: string)

  /** The fields of a stored engine that a request sets. */
  function RequestOf(e: Engine): EngineRequest
  {
    EngineRequest(e.displacement, e.noOfCylinders, e.carRange)
  }

  class EngineStore {
    var engines: map<string, Engine>
    var calls: seq<EngineCall>
    var failure: Option<Error>
    var nextId: Uuid

    ghost predicate Valid()
      reads this`engines, this`nextId
    {
      && nextId != NilUuid
      && forall k | k in engines :: engines[k].engineId != NilUuid && IdText(engines[k].engineId) == k
    }

    /** The identity the next create will use is not taken yet. */
    predicate FreshDraw()
      reads this`engines, this`nextId
    {
      IdText(nextId) !in engines
    }

    constructor (nextId: Uuid)
      requires nextId != NilUuid
      ensures Valid()
      ensures engines == map[] && calls == [] && failure == None && this.nextId == nextId
    {
      engines := map[];
      calls := [];
      failure := None;
      this.nextId := nextId;
    }

    function LookupReply(id: string): Result<Engine>
      reads this`engines, this`failure
    {
      if failure.Some? then Err(failure.value)
      else if id in engines then Ok(engines[id])
      else Err(NoRows)
    }

    function Created(req: EngineRequest): (e: Engine)
      reads this`nextId
    {
      Engine(nextId, req.displacement, req.noOfCylinders, req.carRange)
    }

    method EngineByID(id: string) returns (r: Result<Engine>)
      requires Valid()
      modifies this`calls
      ensures calls == old(calls) + [EngineCall.EngineByID(id)]
      ensures r == LookupReply(id)
      ensures r.Ok? ==> IdText(r.value.engineId) == id
    {
      calls := calls + [EngineCall.EngineByID(id)];
      r := LookupReply(id);
    }

    /** Inserts a new record under a fresh identity: nothing stored before
        is overwritten, and the table grows by exactly that one key. */
    method CreateEngine(req: EngineRequest) returns (r: Result<Engine>)
      requires Valid() && FreshDraw()
      modifies this`engines, this`calls
      ensures Valid()
      ensures calls == old(calls) + [EngineCall.CreateEngine(req)]
      ensures failure.Some? ==> r == Err(failure.value) && engines == old(engines)
      ensures failure.None? ==>
                r == Ok(Created(req)) && engines == old(engines)[IdText(nextId) := Created(req)]
      ensures r.Ok? ==> IdText(r.value.engineId) !in old(engines)
                        && engines.Keys == old(engines).Keys + {IdText(r.value.engineId)}
      ensures r.Ok? ==> forall k | k in old(engines) :: k in engines && engines[k] == old(engines)[k]
    {
      calls := calls + [EngineCall.CreateEngine(req)];
      if failure.Some? {
        r := Err(failure.value);
      } else {
        engines := engines[IdText(nextId) := Created(req)];
        r := Ok(Created(req));
      }
    }

    method UpdateEngine(id: string, req: EngineRequest) returns (r: Result<Engine>)
      requires Valid()
      modifies this`engines, this`calls
      ensures Valid()
      ensures calls == old(calls) + [EngineCall.UpdateEngine(id, req)]
      ensures failure.None? && id in old(engines) ==>
                r == Ok(old(engines)[id].(displacement := req.displacement,
                                          noOfCylinders := req.noOfCylinders,
                                          carRange := req.carRange))
                && engines == old(engines)[id := r.value]
      ensures failure.Some? || id !in old(engines) ==>
                r == old(LookupReply(id)) && engines == old(engines)
    {
      calls := calls + [EngineCall.UpdateEngine(id, req)];
      if failure.Some? {
        r := Err(failure.value);
      } else if id in engines {
        r := Ok(engines[id].(displacement := req.displacement, noOfCylinders := req.noOfCylinders,
                             carRange := req.carRange));
        engines := engines[id := r.value];
      } else {
        r := Err(NoRows);
      }
    }

    /** Removes the record and returns it; a missing record is answered with
        the zero engine (identity uuid.Nil) and no error. */
    method DeleteEngine(id: string) returns (r: Result<Engine>)
      requires Valid()
      modifies this`engines, this`calls
      ensures Valid()
      ensures calls == old(calls) + [EngineCall.DeleteEngine(id)]
      ensures failure.Some? ==> r == Err(failure.value) && engines == old(engines)
      ensures failure.None? && id in old(engines) ==>
                r == Ok(old(engines)[id]) && engines == old(engines) - {id}
      ensures failure.None? && id !in old(engines) ==> r == Ok(ZeroEngine) && engines == old(engines)
    {
      calls := calls + [EngineCall.DeleteEngine(id)];
      if failure.Some? {
        r := Err(failure.value);
      } else if id in engines {
        r := Ok(engines[id]);
        engines := engines - {id};
      } else {
        r := Ok(ZeroEngine);
      }
    }
  }
}
