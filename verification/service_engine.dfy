/** service/engine/engine.go: EngineService validates a request with
    models.ValidateEngineRequest before it reaches the store and passes the
    store's answers back unchanged. That validator is not part of this
    model, so the service is given it as `validate`; tracing spans and the
    request context are dropped. The Go methods take `*models.EngineRequest`
    and dereference it first, so a nil request is outside their contract:
    here the parameter is an EngineRequest value, never nil. */
module ServiceEngine {
  import opened Common
  import opened Models
  import opened Stores

  /** Every stored engine carries fields the validator accepts. */
  ghost predicate AllAccepted(engines: map<string, Engine>, validate: EngineRequest -> Outcome)
  {
    forall k | k in engines :: validate(RequestOf(engines[k])).Pass?
  }

  class EngineService {
    const store: EngineStore
    const validate: EngineRequest -> Outcome

    constructor (store: EngineStore, validate: EngineRequest -> Outcome)
      ensures this.store == store && this.validate == validate
    {
      this.store := store;
      this.validate := validate;
    }

    method EngineByID(id: string) returns (r: Result<Engine>)
      requires store.Valid()
      modifies store`calls
      ensures store.calls == old(store.calls) + [EngineCall.EngineByID(id)]
      ensures r == store.LookupReply(id)
      ensures r.Ok? ==> IdText(r.value.engineId) == id
    {
      r := store.EngineByID(id);
    }

    method CreateEngine(req: EngineRequest) returns (r: Result<Engine>)
      requires store.Valid() && store.FreshDraw()
      modifies store`engines, store`calls
      ensures store.Valid()
      ensures validate(req).Fail? ==>
                && r == Err(validate(req).error)
                && store.calls == old(store.calls) && store.engines == old(store.engines)
      ensures validate(req).Pass? ==>
                && store.calls == old(store.calls) + [EngineCall.CreateEngine(req)]
                && (store.failure.Some? ==> r == Err(store.failure.value) && store.engines == old(store.engines))
                && (store.failure.None? ==> r == Ok(store.Created(req))
                                            && store.engines == old(store.engines)[IdText(store.nextId) := r.value])
      ensures r.Ok? ==> IdText(r.value.engineId) !in old(store.engines)
                        && store.engines.Keys == old(store.engines).Keys + {IdText(r.value.engineId)}
      ensures AllAccepted(old(store.engines), validate) ==> AllAccepted(store.engines, validate)
    {
      var verdict := validate(req);
      if verdict.Fail? {
        return Err(verdict.error);
      }
      r := store.CreateEngine(req);
    }

    method UpdateEngine(id: string, req: EngineRequest) returns (r: Result<Engine>)
      requires store.Valid()
      modifies store`engines, store`calls
      ensures store.Valid()
      ensures validate(req).Fail? ==>
                && r == Err(validate(req).error)
                && store.calls == old(store.calls) && store.engines == old(store.engines)
      ensures validate(req).Pass? ==>
                && store.calls == old(store.calls) + [EngineCall.UpdateEngine(id, req)]
                && (store.failure.None? && id in old(store.engines) ==>
                      r.Ok? && r.value.engineId == old(store.engines)[id].engineId
                      && RequestOf(r.value) == req
                      && store.engines == old(store.engines)[id := r.value])
                && (store.failure.Some? || id !in old(store.engines) ==>
                      r == old(store.LookupReply(id)) && store.engines == old(store.engines))
      ensures AllAccepted(old(store.engines), validate) ==> AllAccepted(store.engines, validate)
    {
      var verdict := validate(req);
      if verdict.Fail? {
        return Err(verdict.error);
      }
      r := store.UpdateEngine(id, req);
    }

    method DeleteEngine(id: string) returns (r: Result<Engine>)
      requires store.Valid()
      modifies store`engines, store`calls
      ensures store.Valid()
      ensures store.calls == old(store.calls) + [EngineCall.DeleteEngine(id)]
      ensures store.failure.Some? ==> r == Err(store.failure.value) && store.engines == old(store.engines)
      ensures store.failure.None? && id in old(store.engines) ==>
                r == Ok(old(store.engines)[id]) && store.engines == old(store.engines) - {id}
      ensures store.failure.None? && id !in old(store.engines) ==>
                r == Ok(ZeroEngine) && store.engines == old(store.engines)
      ensures AllAccepted(old(store.engines), validate) ==> AllAccepted(store.engines, validate)
    {
      r := store.DeleteEngine(id);
    }
  }
}
