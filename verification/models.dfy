/** models/car.go: the Car records and the field-by-field validation of a
    car request. Every rule is pure; the only outside input, the clock that
    `time.Now().Year()` reads, is the `currentYear` parameter. */
module Models {
  import opened Common
  import opened Strconv

  /** models.Engine (the file declaring it is not part of this model; its
      fields are the ones models/car.go reads). */
  datatype Engine = Engine(engineId: Uuid, displacement: int, noOfCylinders: int, carRange: int)

  /** models.EngineRequest: the engine fields a client sends. */
  datatype EngineRequest = EngineRequest(displacement: int, noOfCylinders: int, carRange: int)

  /** The price is a float64 whose only use is a sign test, so it is a real. */
  datatype CarRequest = CarRequest(
    name: string, year: string, brand: string, fuelType: string, engine: Engine, price: real)

  /** A stored car; the timestamps are Unix seconds. */
  datatype Car = Car(
    id: Uuid, name: string, year: string, brand: string, fuelType: string,
    engine: Engine, price: real, createdAt: int, updatedAt: int)

  /** models.Credentials, the login body. */
  datatype Credentials = Credentials(userName: string, password: string)

  const EarliestYear: int := 1900

  /** The accepted fuel types, in the order the error message lists them.
      The first is spelled "Persol" in the code. */
  const FuelTypes: seq<string> := ["Persol", "Diesel", "Electric", "Hybrid"]

  const FuelTypeMessage: string := "FuelType must be one of [Persol Diesel Electric Hybrid]"

  function ValidateName(name: string): (r: Outcome)
    ensures r.Fail? <==> name == ""
    ensures r.Fail? ==> r.error.message == "name is required"
  {
    if name == "" then Fail(Error("name is required")) else Pass
  }

  function ValidateYear(year: string, currentYear: int): (r: Outcome)
    ensures year == "" ==> r == Fail(Error("year is required"))
    ensures year != "" && Atoi(year).None? ==> r == Fail(Error("year must be a valid number"))
    ensures Atoi(year).Some? ==>
              (r.Pass? <==> EarliestYear <= Atoi(year).value <= currentYear)
    ensures Atoi(year).Some? && r.Fail? ==>
              r.error.message == "year must be between 1900 and " + Itoa(currentYear)
  {
    if year == "" then Fail(Error("year is required"))
    else match Atoi(year)
      case None => Fail(Error("year must be a valid number"))
      case Some(y) =>
        if y > currentYear || y < EarliestYear
        then Fail(Error("year must be between 1900 and " + Itoa(currentYear)))
        else Pass
  }

  function ValidateBrand(brand: string): (r: Outcome)
    ensures r.Fail? <==> brand == ""
    ensures r.Fail? ==> r.error.message == "brand is required"
  {
    if brand == "" then Fail(Error("brand is required")) else Pass
  }

  /** The Go loop is a membership search over FuelTypes; the contract
      spells the four names out, independently of that list. */
  function ValidateFuelType(fuelType: string): (r: Outcome)
    ensures r.Pass? <==> fuelType == "Persol" || fuelType == "Diesel" || fuelType == "Electric" || fuelType == "Hybrid"
    ensures r.Fail? ==> r.error.message == FuelTypeMessage
  {
    if fuelType in FuelTypes then Pass else Fail(Error(FuelTypeMessage))
  }

  function ValidateEngine(engine: Engine): (r: Outcome)
    ensures r.Pass? <==>
              engine.engineId != NilUuid && engine.displacement > 0
              && engine.noOfCylinders > 0 && engine.carRange > 0
    ensures engine.engineId == NilUuid ==> r == Fail(Error("EngineID is required"))
    ensures engine.engineId != NilUuid && engine.displacement <= 0 ==>
              r == Fail(Error("displacement must be greater than zero"))
    ensures engine.engineId != NilUuid && engine.displacement > 0 && engine.noOfCylinders <= 0 ==>
              r == Fail(Error("NoOfCylinders must be greater than zero"))
    ensures engine.engineId != NilUuid && engine.displacement > 0 && engine.noOfCylinders > 0
            && engine.carRange <= 0 ==>
              r == Fail(Error("CarRange must be greater than zero"))
  {
    if engine.engineId == NilUuid then Fail(Error("EngineID is required"))
    else if engine.displacement <= 0 then Fail(Error("displacement must be greater than zero"))
    else if engine.noOfCylinders <= 0 then Fail(Error("NoOfCylinders must be greater than zero"))
    else if engine.carRange <= 0 then Fail(Error("CarRange must be greater than zero"))
    else Pass
  }

  function ValidatePrice(price: real): (r: Outcome)
    ensures r.Fail? <==> price <= 0.0
    ensures r.Fail? ==> r.error.message == "Price must be greater than zero"
  {
    if price <= 0.0 then Fail(Error("Price must be greater than zero")) else Pass
  }

  /** The six rules in the order ValidateCarRequest applies them. */
  function Rules(req: CarRequest, currentYear: int): (rs: seq<Outcome>)
    ensures |rs| == 6
  {
    [ ValidateName(req.name), ValidateYear(req.year, currentYear), ValidateBrand(req.brand),
      ValidateFuelType(req.fuelType), ValidateEngine(req.engine), ValidatePrice(req.price) ]
  }

  /** The first failure in a list of rule outcomes, or Pass when none fails. */
  function FirstFailure(outcomes: seq<Outcome>): Outcome
  {
    if outcomes == [] then Pass
    else if outcomes[0].Fail? then outcomes[0]
    else FirstFailure(outcomes[1..])
  }

  /** FirstFailure is Pass exactly when every outcome passes, and otherwise
      is the earliest failing outcome. */
  lemma {:induction false} FirstFailureIsEarliest(outcomes: seq<Outcome>)
    ensures FirstFailure(outcomes).Pass? <==> forall i :: 0 <= i < |outcomes| ==> outcomes[i].Pass?
    ensures FirstFailure(outcomes).Fail? ==>
              exists k :: 0 <= k < |outcomes| && outcomes[k] == FirstFailure(outcomes)
                          && forall j :: 0 <= j < k ==> outcomes[j].Pass?
  {
    if outcomes != [] && outcomes[0].Pass? {
      var tail := outcomes[1..];
      FirstFailureIsEarliest(tail);
      if FirstFailure(tail).Fail? {
        var k :| 0 <= k < |tail| && tail[k] == FirstFailure(tail)
                 && forall j :: 0 <= j < k ==> tail[j].Pass?;
        assert outcomes[k + 1] == FirstFailure(outcomes);
      }
    } else if outcomes != [] {
      assert outcomes[0] == FirstFailure(outcomes);
    }
  }

  /** models.ValidateCarRequest: the rules in order, the first error returned
      unchanged. The result is exactly the first failing rule's error, or
      Pass when all six pass, which is when every field constraint holds. */
  function ValidateCarRequest(req: CarRequest, currentYear: int): (r: Outcome)
    ensures r == FirstFailure(Rules(req, currentYear))
    ensures r.Pass? <==> WellFormedCarRequest(req, currentYear)
  {
    var rs := Rules(req, currentYear);
    assert rs[6..] == [];
    assert FirstFailure(rs[5..]) == if rs[5].Fail? then rs[5] else FirstFailure(rs[6..]);
    assert FirstFailure(rs[4..]) == if rs[4].Fail? then rs[4] else FirstFailure(rs[5..]);
    assert FirstFailure(rs[3..]) == if rs[3].Fail? then rs[3] else FirstFailure(rs[4..]);
    assert FirstFailure(rs[2..]) == if rs[2].Fail? then rs[2] else FirstFailure(rs[3..]);
    assert FirstFailure(rs[1..]) == if rs[1].Fail? then rs[1] else FirstFailure(rs[2..]);
    var name := ValidateName(req.name);
    if name.Fail? then name else
    var year := ValidateYear(req.year, currentYear);
    if year.Fail? then year else
    var brand := ValidateBrand(req.brand);
    if brand.Fail? then brand else
    var fuel := ValidateFuelType(req.fuelType);
    if fuel.Fail? then fuel else
    var engine := ValidateEngine(req.engine);
    if engine.Fail? then engine else
    ValidatePrice(req.price)
  }

  /** Every field constraint of a car request, stated directly. */
  ghost predicate WellFormedCarRequest(req: CarRequest, currentYear: int)
  {
    && req.name != ""
    && Atoi(req.year).Some? && EarliestYear <= Atoi(req.year).value <= currentYear
    && req.brand != ""
    && req.fuelType in FuelTypes
    && req.engine.engineId != NilUuid
    && req.engine.displacement > 0 && req.engine.noOfCylinders > 0 && req.engine.carRange > 0
    && req.price > 0.0
  }

  /** The year written by `%d` is accepted exactly when it lies in
      [1900, currentYear]; both ends are included. */
  lemma YearAcceptedIffInRange(y: int, currentYear: int)
    requires MinInt64 <= y <= MaxInt64
    ensures ValidateYear(Itoa(y), currentYear).Pass? <==> EarliestYear <= y <= currentYear
  {
    ItoaRoundTrip(y);
  }

  /** A sign in front of the year is read by Atoi, so "+2000" is the year 2000. */
  lemma PlusSignedYear(digits: string, currentYear: int)
    requires digits != [] && AllDigits(digits) && DigitsValue(digits) <= MaxInt64
    ensures ValidateYear("+" + digits, currentYear) == ValidateYear(digits, currentYear)
  {
    SignedDigits(digits);
  }

  /** The spelling in the code rejects the usual name of the fuel, and the
      comparison is case-sensitive. */
  lemma PetrolRejected()
    ensures ValidateFuelType("Petrol").Fail?
    ensures ValidateFuelType("Persol").Pass?
    ensures ValidateFuelType("diesel").Fail?
  {
  }
}
