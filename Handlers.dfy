/** The five request handlers of the /v1/animals API, with HTTP and JSON abstracted away:
    a path id arrives already parsed (None when it is not an integer), a request body
    already decoded (None when it is not an Animal), and a handler returns the status code
    and the kind of body it writes. */
module Handlers {
  import opened ZooTypes
  import opened Store

  const StatusOK := 200
  const StatusCreated := 201
  const StatusNoContent := 204
  const StatusBadRequest := 400
  const StatusNotFound := 404
  const StatusConflict := 409
  const StatusInternalServerError := 500

  /** What a handler writes after the status line: nothing, one record, an array of
      records, or an error message (its text is not modelled). */
  datatype Body = NoBody | One(animal: Animal) | Many(animals: seq<Animal>) | Message

  datatype Response = Response(status: int, body: Body)

  /** GET /v1/animals: every record with 200, or 404 when the store is empty. */
  method GetAnimalsHandler(store: InMemoryAnimalStore) returns (resp: Response)
    requires store.Valid()
    ensures resp.status == StatusOK || resp.status == StatusNotFound
    ensures resp.status == StatusNotFound <==> |store.animals| == 0
    ensures resp.status == StatusNotFound ==> resp.body == Message
    ensures resp.status == StatusOK ==>
              && resp.body.Many?
              && |resp.body.animals| == |store.animals|
              && multiset(resp.body.animals) == multiset(store.animals.Values)
  {
    var r := store.GetAllAnimals();
    if r.Failure? {
      if r.error == NotFound {
        return Response(StatusNotFound, Message);
      }
      return Response(StatusInternalServerError, Message);
    }
    return Response(StatusOK, Many(r.value));
  }

  /** GET /v1/animals/{id}: 400 for an id that does not parse, 404 for an absent id,
      otherwise 200 with the stored record. */
  method GetAnimalHandler(store: InMemoryAnimalStore, id: Option<int>) returns (resp: Response)
    requires store.Valid()
    ensures id.None? ==> resp == Response(StatusBadRequest, Message)
    ensures id.Some? && id.value !in store.animals ==> resp == Response(StatusNotFound, Message)
    ensures id.Some? && id.value in store.animals ==>
              resp == Response(StatusOK, One(store.animals[id.value])) && resp.body.animal.id == id.value
  {
    if id.None? {
      return Response(StatusBadRequest, Message);
    }
    var r := store.GetAnimalByID(id.value);
    if r.Failure? {
      return Response(StatusNotFound, Message);
    }
    return Response(StatusOK, One(r.value));
  }

  /** POST /v1/animals: 400 for a body that does not decode or has id 0, 409 when the id is
      taken, otherwise the record is stored under its id and echoed with 201. When this
      request runs with no other request between its two store calls, the handler's own
      existence check and the store's duplicate check agree, so the 500 branch is not taken
      (`Scenarios.RacingCreates` shows it taken when two creates interleave). The store's
      auto-id branch is never reached from here, so the counter never moves. */
  method CreateAnimalHandler(store: InMemoryAnimalStore, body: Option<Animal>) returns (resp: Response)
    requires store.Valid()
    modifies store
    ensures store.Valid()
    ensures store.nextID == old(store.nextID)
    ensures resp.status != StatusInternalServerError
    ensures body.None? ==> resp == Response(StatusBadRequest, Message) && store.animals == old(store.animals)
    ensures body.Some? && body.value.id == 0 ==>
              resp == Response(StatusBadRequest, Message) && store.animals == old(store.animals)
    ensures body.Some? && body.value.id != 0 && body.value.id in old(store.animals) ==>
              resp == Response(StatusConflict, Message) && store.animals == old(store.animals)
    ensures body.Some? && body.value.id != 0 && body.value.id !in old(store.animals) ==>
              && resp == Response(StatusCreated, One(body.value))
              && store.animals == old(store.animals)[body.value.id := body.value]
  {
    if body.None? {
      return Response(StatusBadRequest, Message);
    }
    var animal := body.value;
    if animal.id == 0 {
      return Response(StatusBadRequest, Message);
    }
    var existing := store.GetAnimalByID(animal.id);
    if existing.Success? {
      return Response(StatusConflict, Message);
    }
    var err := store.CreateAnimal(animal);
    if err.Err? {
      return Response(StatusInternalServerError, Message);
    }
    return Response(StatusCreated, One(animal));
  }

  /** PUT /v1/animals/{id}: 400 for a path id or body that does not parse; otherwise the
      body, with its id replaced by the path id, is stored under the path id, with 200 when
      the id was already a key (update) and 201 when it was not (upsert). When no other
      request runs between the existence check and the store call, that call succeeds, so
      neither 500 branch is taken. The upsert cannot fail in any interleaving; the update can
      (`Scenarios.UpdateRacingDelete`). */
  method UpdateAnimalHandler(store: InMemoryAnimalStore, id: Option<int>, body: Option<Animal>)
    returns (resp: Response)
    requires store.Valid()
    modifies store
    ensures store.Valid()
    ensures store.nextID == old(store.nextID)
    ensures resp.status != StatusInternalServerError
    ensures id.None? || body.None? ==>
              resp == Response(StatusBadRequest, Message) && store.animals == old(store.animals)
    ensures id.Some? && body.Some? ==>
              && store.animals == old(store.animals)[id.value := WithID(body.value, id.value)]
              && resp.body == One(WithID(body.value, id.value))
              && (resp.status == StatusOK <==> id.value in old(store.animals))
              && (resp.status == StatusCreated <==> id.value !in old(store.animals))
  {
    if id.None? {
      return Response(StatusBadRequest, Message);
    }
    if body.None? {
      return Response(StatusBadRequest, Message);
    }
    var animal := WithID(body.value, id.value);
    var existing := store.GetAnimalByID(id.value);
    if existing.Success? {
      var err := store.UpdateAnimal(id.value, animal);
      if err.Err? {
        return Response(StatusInternalServerError, Message);
      }
      return Response(StatusOK, One(animal));
    } else {
      var err := store.UpsertAnimal(id.value, animal);
      if err.Err? {
        return Response(StatusInternalServerError, Message);
      }
      return Response(StatusCreated, One(animal));
    }
  }

  /** DELETE /v1/animals/{id}: 400 for an id that does not parse, 404 for an absent id,
      otherwise the record is removed and the answer is 204 with no body. */
  method DeleteAnimalHandler(store: InMemoryAnimalStore, id: Option<int>) returns (resp: Response)
    requires store.Valid()
    modifies store
    ensures store.Valid()
    ensures store.nextID == old(store.nextID)
    ensures id.None? ==> resp == Response(StatusBadRequest, Message) && store.animals == old(store.animals)
    ensures id.Some? && id.value !in old(store.animals) ==>
              resp == Response(StatusNotFound, Message) && store.animals == old(store.animals)
    ensures id.Some? && id.value in old(store.animals) ==>
              resp == Response(StatusNoContent, NoBody) && store.animals == old(store.animals) - {id.value}
  {
    if id.None? {
      return Response(StatusBadRequest, Message);
    }
    var err := store.DeleteAnimal(id.value);
    if err.Err? {
      return Response(StatusNotFound, Message);
    }
    return Response(StatusNoContent, NoBody);
  }
}
