# CarZone in Dafny

CarZone is a CRUD backend for cars and their engines. A login endpoint
issues a signed, 24-hour bearer token. A middleware gate checks that token
on every car and engine route; `/login` and `/metrics` are not gated. Car requests are validated field by field before they
reach the store. This project models that decision logic and proves what it
does:

- `models.dfy`: the car validation rules of `models/car.go`, with the clock
  as a `currentYear` parameter. `strconv.dfy` holds the `strconv.Atoi` and
  `%d` conversions the year rule relies on.
- `service_car.dfy` and `service_engine.dfy`: the validate-then-persist
  services. They are classes whose store is an object with a keyed table and
  a call log (`stores.dfy`), so "no store call when validation fails" and
  "the store's answer passes through unchanged" are postconditions.
- `middleware.dfy`: the bearer-token gate, as a decision (reject, panic, or
  forward with a derived context). The JWT verifier is a parameter. The
  header is a Go string, so it is held as bytes (`Common.Bytes`, one
  element per byte) and its length and cut count bytes.
- `login.dfy`: the credential check, the claims `GenerateToken` signs, and
  the calls the login handler makes on the response writer.
- `handler_car.dfy` and `handler_engine.dfy`: each HTTP handler as the list
  of calls it makes on the `http.ResponseWriter`. The handler is given the
  outcome of reading and decoding its body and the answer of its service.
- `http.dfy`: the part of net/http that turns those calls into what the
  client receives. The first status wins, headers set after it are not
  sent, a write with no status sends 200, and a panic leaves no response.

Several behaviours of the code are easy to miss:

- The fuel types accepted are "Persol", "Diesel", "Electric" and "Hybrid",
  so "Petrol" is rejected (`Models.PetrolRejected`).
- A car request that fails validation is answered 500, not 400. The service
  returns the validation error, and the handler maps every service error to
  500 (`HandlerCar.InvalidCarIs500`).
- Deleting a car has no 404 branch. When the store answers a missing id
  with the zero car, that is answered 200 with the zero record
  (`HandlerCar.MissingCarDeleted200`).
- Only engine deletion answers 404, and only when the service returns an
  engine whose identity is nil.
- An engine body that fails to decode is answered 500, not 400.
- Login with wrong credentials writes a 400 error but does not return. The
  token is still generated and written into the body, and it passes the
  gate (`HandlerLogin.RejectedLoginTokenPassesGate`).
- The login handler sets an `Authorization` header after the body has been
  written, so that header is never sent.
- The gate injects the token's `username` claim. `GenerateToken` signs only
  `sub`, `iat` and `exp`, so every token it issues puts "" into the context
  (`HandlerLogin.IssuedTokenPassesGate`).
- The gate strips the first seven bytes of the header without checking
  that they are "Bearer ". A non-empty header shorter than seven bytes
  panics, and the client gets no response.
- A `CreateEngine` body of `null` leaves the request pointer nil. The service
  then dereferences it and panics.

## Model

| member | source | states |
|---|---|---|
| Strconv.Atoi | models/car.go:66-71 | a parsed year is a 64-bit `int`: the value of an optional sign and one or more digits, and an error otherwise |
| Strconv.ItoaRoundTrip | models/car.go:73 | parsing the `%d` text of any 64-bit integer gives that integer back |
| Strconv.ItoaShape | models/car.go:73 | `%d` prints at least one character and no `+`, and starts with a digit exactly for non-negative numbers |
| Strconv.SignedDigits | models/car.go:66 | a leading `+` changes nothing and a leading `-` negates the digits' value |
| Strconv.NonDigitRefused | models/car.go:66-69 | any non-digit after the optional sign makes the year unparseable |
| Strconv.EmptyOrSignOnlyRefused | models/car.go:66-69 | the empty string and a lone sign do not parse |
| Strconv.OutOfRangeRefused | models/car.go:66-69 | a well-formed signed number is refused exactly when its value lies outside the 64-bit range (Go's range error), so an over-long year is "year must be a valid number"; -9223372036854775808 itself parses |
| Models.ValidateName | models/car.go:55-60 | fails exactly on the empty name, with "name is required" |
| Models.ValidateYear | models/car.go:62-76 | "year is required" for "", "year must be a valid number" when Atoi fails, and otherwise passes exactly when 1900 <= year <= currentYear, with the range message naming currentYear |
| Models.ValidateBrand | models/car.go:78-83 | fails exactly on the empty brand, with "brand is required" |
| Models.ValidateFuelType | models/car.go:85-93 | passes exactly for the four listed spellings, case-sensitively, and otherwise fails with the message listing them |
| Models.ValidateEngine | models/car.go:95-109 | passes exactly when the identity is non-nil and the three quantities are positive; otherwise it fails with the message of the first broken check, in the order identity, displacement, cylinders, range |
| Models.ValidatePrice | models/car.go:111-116 | fails exactly when the price is not positive |
| Models.FirstFailureIsEarliest | models/car.go:33-53 | the chain's result passes exactly when every rule passes, and is otherwise the failure of the earliest failing rule |
| Models.ValidateCarRequest | models/car.go:33-53 | the result is the first failing rule's error unchanged, in the order name, year, brand, fuel type, engine, price, and it passes exactly when all field constraints hold together |
| Models.YearAcceptedIffInRange | models/car.go:70-75 | a numeric year is accepted exactly in [1900, currentYear], both ends included |
| Models.PlusSignedYear | models/car.go:66-75 | "+2000" is judged exactly as "2000" |
| Models.PetrolRejected | models/car.go:85-93 | "Petrol" and "diesel" are rejected and "Persol" is accepted |
| Http.FirstStatusWins | handler/login/login.go:23-37 | after the first WriteHeader the status and the header map are fixed, and later writes only add to the body |
| Http.ImplicitOK | handler/login/login.go:35-38 | a write with no status sends 200 with the headers set so far, and later header sets are not sent |
| Http.NothingWritten | handler/car/car.go:213-215 | a handler that writes nothing answers 200 with an empty body |
| Http.PanicAborts | middleware/auth_middleware.go:25 | a panic before anything is written leaves the client with no response |
| Http.ErrorFirst | handler/login/login.go:24 | `http.Error` (HttpError) fixes its status and plain-text headers and writes its message with a newline first; whatever follows only adds to the body |
| Http.JsonReplyDelivers | handler/car/car.go:51-54 | setting the JSON type, a status and writing a value sends exactly that |
| Http.BareStatusDelivers | handler/car/car.go:73 | a bare WriteHeader sends that status with no headers and an empty body |
| Http.StatusThenWriteDelivers | handler/engine/engine.go:172-178 | a status then one write sends that status and that body with no headers |
| Stores.CarStore.GetCarByID | service/car/car.go:21 | logs the call; answers the record kept under the id, the store's failure, or "no rows" |
| Stores.CarStore.GetCarByBrand | service/car/car.go:29 | logs the call; on success the list holds exactly the stored cars of that brand |
| Stores.CarStore.CreateCar | service/car/car.go:41 | logs the call; given an identity not yet stored, stores the record under the text of that identity, so nothing stored before is overwritten and exactly one key is added; or fails leaving the table unchanged |
| Stores.CarStore.UpdateCar | service/car/car.go:52 | logs the call; overwrites the request fields of an existing record and keeps its identity, or answers as a lookup would with the table unchanged |
| Stores.CarStore.DeleteCar | service/car/car.go:61 | logs the call; removes and returns the record, or returns the zero car when there is none |
| Stores.EngineStore.EngineByID | service/engine/engine.go:26 | logs the call and answers the lookup of the id |
| Stores.EngineStore.CreateEngine | service/engine/engine.go:42 | logs the call; given an identity not yet stored, adds exactly that key without overwriting any stored engine, or fails leaving the table unchanged |
| Stores.EngineStore.UpdateEngine | service/engine/engine.go:58 | logs the call; overwrites the three request fields of an existing engine and keeps its identity |
| Stores.EngineStore.DeleteEngine | service/engine/engine.go:70 | logs the call; removes and returns the engine, or returns the zero engine when there is none |
| ServiceCar.ValidatedFieldsAdmissible | service/car/car.go:36-46 | a record carrying a validated request's fields meets every field constraint whatever the current year |
| ServiceCar.CarService.constructor | service/car/car.go:14-18 | the service keeps the store it is given |
| ServiceCar.CarService.GetCarByID | service/car/car.go:20-26 | forwards the id, makes one store call, and returns the store's answer unchanged |
| ServiceCar.CarService.GetCarsByBrand | service/car/car.go:28-34 | forwards brand and isEngine, makes one store call, and returns the store's answer unchanged |
| ServiceCar.CarService.CreateCar | service/car/car.go:36-46 | on a validation failure returns that error with no store call and no change; otherwise makes exactly one store call with the same request and passes its record or error through, a created car never overwriting a stored one; every stored car stays admissible |
| ServiceCar.CarService.UpdateCar | service/car/car.go:48-57 | validates first, with no store call on failure; otherwise forwards the id and the request in one store call and passes the answer through; every stored car stays admissible |
| ServiceCar.CarService.DeleteCar | service/car/car.go:59-67 | no validation; one store call whose record or error is passed through |
| ServiceCar.LookupTwice | service/car/car.go:20-26 | two lookups with no change in between agree, and each makes exactly one store call |
| ServiceEngine.EngineService.constructor | service/engine/engine.go:15-19 | the service keeps the store and the engine-request validator it is given |
| ServiceEngine.EngineService.EngineByID | service/engine/engine.go:21-31 | forwards the id, makes one store call, returns the store's answer unchanged |
| ServiceEngine.EngineService.CreateEngine | service/engine/engine.go:33-47 | on a validation failure returns that error and never calls the store; otherwise one store call, answer passed through, a created engine never overwriting a stored one; every stored engine stays accepted by the validator |
| ServiceEngine.EngineService.UpdateEngine | service/engine/engine.go:49-63 | validates before the store call, none on failure; the id and request are forwarded unchanged; every stored engine stays accepted |
| ServiceEngine.EngineService.DeleteEngine | service/engine/engine.go:65-75 | no validation; one store call whose result or error is passed through |
| Middleware.Authenticate | middleware/auth_middleware.go:19-36 | an empty header is rejected; a non-empty one shorter than seven bytes panics; otherwise the request is forwarded exactly when the verifier returns a valid token for the bytes after the seventh, and is rejected otherwise; a forwarded context binds `username` to that claim and keeps all other keys |
| Middleware.AuthMiddleware | middleware/auth_middleware.go:17-39 | a rejected request gets 401 "Unauthorized" as plain text, a short header gets no response, and a forwarded one gets exactly what `next` does with the derived context |
| Middleware.RejectedRequestsNeverReachNext | middleware/auth_middleware.go:19-34 | with no header or a token that does not verify, the answer is 401 "Unauthorized" whatever the wrapped handler is |
| Middleware.PrefixNotChecked | middleware/auth_middleware.go:25 | any seven bytes in place of "Bearer " give the same decision |
| HandlerLogin.TokenClaims | handler/login/login.go:41-47 | the claims carry the user name as subject, the second clock reading as issue time, the first plus 24 hours as expiry, and no `username` member; with the expiry clock read first the token lives at most 24 hours |
| HandlerLogin.TokenReplyDelivers | handler/login/login.go:27-38 | what LoginHandler does once GenerateToken has answered (TokenReply): 200 with the token as JSON, or 500 "Error generating token"; it never panics and the Authorization header is set too late to be sent |
| HandlerLogin.LoginHandler | handler/login/login.go:13-39 | 400 "Invalid request body" for an undecodable body; admin/admin123 gets 200 with the token or 500 on a signing error; other credentials get 400 with the rejection text followed by the token or the signing error in the body; the Authorization header is never sent |
| HandlerLogin.MalformedBodyNotSigned | handler/login/login.go:16-20 | an undecodable body is answered before anything is signed: the signer makes no difference |
| HandlerLogin.IssuedTokenPassesGate | handler/login/login.go:41-54 | a token GenerateToken issues passes the gate while it is live, whoever it was issued to, and binds `username` to "" |
| HandlerLogin.RejectedLoginTokenPassesGate | handler/login/login.go:22-37 | wrong credentials are answered 400, yet the body carries a token for the rejected user name that the gate accepts while it is live |
| HandlerCar.GetCarByID | handler/car/car.go:25-59 | a service error is sent as plain text with 500; a car as JSON with 200 |
| HandlerCar.GetCarByBrand | handler/car/car.go:61-93 | the service is asked with the first `brand` value and with isEngine true exactly when the first `engine` value is "true"; an error is a bare 500, a list is JSON with 200 |
| HandlerCar.GetCarByBrandAsksOnce | handler/car/car.go:68-71 | only the service's answer for those two query values decides the response |
| HandlerCar.EngineFlagIsExact | handler/car/car.go:69 | only the exact text "true" as the first `engine` value sets the engine flag; "True", "1", a missing key or a later "true" do not |
| HandlerCar.CreateCar | handler/car/car.go:95-137 | an unreadable or undecodable body is a bare 400; a service error is a bare 500; the created car is JSON with 201 |
| HandlerCar.CreateCarAsksOnce | handler/car/car.go:95-137 | a body that is not decoded never reaches the service, and a decoded one is all it is asked with |
| HandlerCar.InvalidCarIs500 | handler/car/car.go:119-125 | a request that fails validation is answered 500 |
| HandlerCar.UpdateCar | handler/car/car.go:139-182 | 400 for an unreadable or undecodable body; 500 on a service error; 200 with the car |
| HandlerCar.UpdateCarAsksOnce | handler/car/car.go:139-182 | a body that is not decoded never reaches the service; the path id and the request are all it is asked with |
| HandlerCar.DeleteCar | handler/car/car.go:184-211 | 500 on a service error and 200 with the record otherwise; there is no 404 |
| HandlerCar.MissingCarDeleted200 | handler/car/car.go:184-211 | when the store answers a missing id with the zero car, the delete is answered 200 with that record and never 404 |
| HandlerCar.GetCar | handler/car/car.go:213-215 | GetCar answers 200 with no headers and an empty body |
| HandlerEngine.GetEngineByID | handler/engine/engine.go:26-58 | a service error is a bare 500; an engine is JSON with 200 |
| HandlerEngine.CreateEngine | handler/engine/engine.go:60-112 | an unreadable body is 400 and an undecodable one 500; `null` gets no response; a service error is 500; the engine is JSON with 201 |
| HandlerEngine.CreateEngineAsksOnce | handler/engine/engine.go:60-112 | only a decoded, non-null request reaches the service, and it is all the service is asked with |
| HandlerEngine.UpdateEngine | handler/engine/engine.go:114-159 | 400 for an unreadable body and 500 for an undecodable one; 500 on a service error; 200 with the engine |
| HandlerEngine.UpdateEngineAsksOnce | handler/engine/engine.go:114-159 | a body that is not decoded never reaches the service; the id and request are all it is asked with |
| HandlerEngine.DeleteEngine | handler/engine/engine.go:161-209 | exactly one of three answers: 500 with an error object exactly when the service fails, 404 with an error object exactly when the returned engine's identity is nil, 200 with the engine otherwise |
| HandlerEngine.MissingEngineIs404 | handler/engine/engine.go:184-191 | when the store answers a missing id with the zero engine, the delete is answered 404 "Engine not found" |

## Left out

- The store implementations (store/car, store/engine) are not part of this model. `Stores` states the behaviour the services and handlers rely on. A missing key is "no rows" for lookups and updates, and the zero record for deletes. A database failure is one error that every call returns.
- Stores.CarStore.GetCarByBrand: the `isEngine` flag is logged but does not change the answer. The store's query is outside this model.
- Stores.CarStore.CreateCar, Stores.EngineStore.CreateEngine and the service creates require `FreshDraw`: the identity about to be used is not yet stored. The real store draws a random UUID per insert and relies on it never repeating; the model does not draw it, so who sets `nextId` must meet this before each create.
- The check that a car's engine exists in the store is not modelled. It is not in models/car.go or the services: validation only looks at the embedded engine's fields.
- `models.ValidateEngineRequest` is not part of this model. `EngineService` is given it as a function.
- `models.Engine`, `models.EngineRequest` and `models.Credentials` are declared in files that are not part of this model. Their fields are the ones models/car.go, the services and the handlers use.
- JWT signing and parsing (HS256) are the parameters `sign` and `verify`. `SoundCodec` is the assumption that a signed, live token verifies with its claims. Expiry and issue-time checks belong to the verifier.
- JSON encoding is kept as the encoded value (`CarJson`, `TokenJson`, …), not bytes. Marshalling failures are left out: the records hold no value JSON cannot encode. The trailing newline `json.Encoder` adds to the login body is left out, as is the difference between a nil and an empty list.
- Reading and decoding request bodies is left out. Each handler is given the outcome (`Incoming`): read failure, decode failure, or the decoded value.
- Write errors on the connection, content sniffing, and the `Content-Length` and `Date` headers net/http adds are left out.
- Logging, OpenTelemetry spans, the request `context.Context`, and the Prometheus metrics middleware are not modelled. None of them affects an answer.
- `time.Now()` becomes parameters: `currentYear` for validation, the two readings `t1` and `t2` for the token claims, and `clock` for store timestamps. Identities the store draws at random are the store's `nextId`.
- The price is a `real`. float64 rounding, NaN and infinities are not modelled; the code only tests the price's sign.
- The routing table in main.go is not part of this model. This includes POST /cars being bound to the GetCarByID handler. Also outside the model: database start-up, schema bootstrap and the server loop.
- Only the gate's panic on a short header and `CreateEngine`'s panic on `null` are modelled as panics (`Aborted`). Both come before anything is written; a panic after part of a response was flushed is not modelled. How net/http recovers from them, and logs them, is not.
- HandlerLogin.GenerateToken, HandlerLogin.TokenReply, Http.Deliver and Http.HttpError carry no postcondition of their own: what they mean is stated by `TokenClaims`, `IssuedTokenPassesGate`, `TokenReplyDelivers`, and the `Http` lemmas (`FirstStatusWins`, `ImplicitOK`, `NothingWritten`, `PanicAborts`, `ErrorFirst`).
