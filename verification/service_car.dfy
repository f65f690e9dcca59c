/** service/car/car.go: CarService validates a request before it reaches
    the store and passes the store's answers back unchanged. The request
    context is dropped; the clock the validation reads is `currentYear`. */
module ServiceCar {
  import opened Common
  import opened Strconv
  import opened Models
  import opened Stores

  /** What validation guarantees of a stored car whatever the current year:
      every rule holds, and the year is a number no earlier than 1900. */
  ghost predicate Admissible(c: Car)
  {
    && c.name != "" && c.brand != ""
    && c.fuelType in FuelTypes
    && ValidateEngine(c.engine).Pass?
    && c.price > 0.0
    && Atoi(c.year).Some? && Atoi(c.year).value >= EarliestYear
  }

  ghost predicate AllAdmissible(cars: map<string, Car>)
  {
    forall k | k in cars :: Admissible(cars[k])
  }

  /** A record that carries a validated request's fields is admissible,
      whatever identity and timestamps the store gives it. */
  lemma ValidatedFieldsAdmissible(req: CarRequest, currentYear: int, c: Car)
    requires ValidateCarRequest(req, currentYear).Pass?
    requires c.name == req.name && c.year == req.year && c.brand == req.brand
    requires c.fuelType == req.fuelType && c.engine == req.engine && c.price == req.price
    ensures Admissible(c)
  {
  }

  class CarService {
    const store: CarStore

    constructor (store: CarStore)
      ensures this.store == store
    {
      this.store := store;
    }

    method GetCarByID(id: string) returns (r: Result<Car>)
      requires store.Valid()
      modifies store`calls
      ensures store.calls == old(store.calls) + [CarCall.GetCarByID(id)]
      ensures r == store.LookupReply(id)
      ensures r.Ok? ==> IdText(r.value.id) == id
    {
      r := store.GetCarByID(id);
    }

    method GetCarsByBrand(brand: string, isEngine: bool) returns (r: Result<seq<Car>>)
      modifies store`calls
      ensures store.calls == old(store.calls) + [CarCall.GetCarByBrand(brand, isEngine)]
      ensures store.failure.Some? ==> r == Err(store.failure.value)
      ensures store.failure.None? ==>
                r.Ok? && forall c :: c in r.value <==> c in store.cars.Values && c.brand == brand
    {
      r := store.GetCarByBrand(brand, isEngine);
    }

    method CreateCar(req: CarRequest, currentYear: int) returns (r: Result<Car>)
      requires store.Valid() && store.FreshDraw()
      modifies store`cars, store`calls
      ensures store.Valid()
      ensures ValidateCarRequest(req, currentYear).Fail? ==>
                && r == Err(ValidateCarRequest(req, currentYear).error)
                && store.calls == old(store.calls) && store.cars == old(store.cars)
      ensures ValidateCarRequest(req, currentYear).Pass? ==>
                && store.calls == old(store.calls) + [CarCall.CreateCar(req)]
                && (store.failure.Some? ==> r == Err(store.failure.value) && store.cars == old(store.cars))
                && (store.failure.None? ==> r == Ok(store.Created(req))
                                            && store.cars == old(store.cars)[IdText(store.nextId) := r.value])
      ensures r.Ok? ==> IdText(r.value.id) !in old(store.cars)
                        && store.cars.Keys == old(store.cars).Keys + {IdText(r.value.id)}
      ensures AllAdmissible(old(store.cars)) ==> AllAdmissible(store.cars)
    {
      var verdict := ValidateCarRequest(req, currentYear);
      if verdict.Fail? {
        return Err(verdict.error);
      }
      r := store.CreateCar(req);
      if r.Ok? {
        ValidatedFieldsAdmissible(req, currentYear, r.value);
      }
    }

    method UpdateCar(id: string, req: CarRequest, currentYear: int) returns (r: Result<Car>)
      requires store.Valid()
      modifies store`cars, store`calls
      ensures store.Valid()
      ensures ValidateCarRequest(req, currentYear).Fail? ==>
                && r == Err(ValidateCarRequest(req, currentYear).error)
                && store.calls == old(store.calls) && store.cars == old(store.cars)
      ensures ValidateCarRequest(req, currentYear).Pass? ==>
                && store.calls == old(store.calls) + [CarCall.UpdateCar(id, req)]
                && (store.failure.None? && id in old(store.cars) ==>
                      r == Ok(store.Updated(old(store.cars)[id], req))
                      && store.cars == old(store.cars)[id := r.value])
                && (store.failure.Some? || id !in old(store.cars) ==>
                      r == old(store.LookupReply(id)) && store.cars == old(store.cars))
      ensures AllAdmissible(old(store.cars)) ==> AllAdmissible(store.cars)
    {
      var verdict := ValidateCarRequest(req, currentYear);
      if verdict.Fail? {
        return Err(verdict.error);
      }
      r := store.UpdateCar(id, req);
      if r.Ok? {
        ValidatedFieldsAdmissible(req, currentYear, r.value);
      }
    }

    method DeleteCar(id: string) returns (r: Result<Car>)
      requires store.Valid()
      modifies store`cars, store`calls
      ensures store.Valid()
      ensures store.calls == old(store.calls) + [CarCall.DeleteCar(id)]
      ensures store.failure.Some? ==> r == Err(store.failure.value) && store.cars == old(store.cars)
      ensures store.failure.None? && id in old(store.cars) ==>
                r == Ok(old(store.cars)[id]) && store.cars == old(store.cars) - {id}
      ensures store.failure.None? && id !in old(store.cars) ==>
                r == Ok(ZeroCar) && store.cars == old(store.cars)
      ensures AllAdmissible(old(store.cars)) ==> AllAdmissible(store.cars)
    {
      r := store.DeleteCar(id);
    }
  }

  /** Two lookups of the same identity with no change in between give the
      same answer, and each makes exactly one store call. */
  method LookupTwice(service: CarService, id: string) returns (first: Result<Car>, second: Result<Car>)
    requires service.store.Valid()
    modifies service.store`calls
    ensures first == second
    ensures service.store.calls
            == old(service.store.calls) + [CarCall.GetCarByID(id), CarCall.GetCarByID(id)]
  {
    first := service.GetCarByID(id);
    second := service.GetCarByID(id);
  }
}
