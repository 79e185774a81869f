/** Callers of the store and of the handlers: the start-up seeding, the documented request
    scenarios, and properties that relate several operations in a row. */
module Scenarios {
  import opened ZooTypes
  import opened Store
  import opened Handlers

  const Lion := Animal(1, "lion", "mammal", 4)
  const Eagle := Animal(2, "eagle", "bird", 2)
  const Snake := Animal(3, "snake", "reptile", 0)

  /** The store the server starts with: three records under ids 1, 2 and 3, and the
      auto-id counter still at 1, because explicit-id creates never advance it. */
  method NewSeededStore() returns (store: InMemoryAnimalStore)
    ensures fresh(store) && store.Valid()
    ensures store.animals == map[1 := Lion, 2 := Eagle, 3 := Snake]
    ensures store.nextID == 1
  {
    store := new InMemoryAnimalStore();
    var _ := store.CreateAnimal(Lion);
    var _ := store.CreateAnimal(Eagle);
    var _ := store.CreateAnimal(Snake);
  }

  /** On the seeded store, a create with id 0 takes id 1 from the counter and silently
      replaces the lion: the create reports success, yet the store still holds three records. */
  method AutoIDCreateOverwritesSeed(animal: Animal) returns (before: Result<Animal>, err: Outcome, after: Result<Animal>, all: Result<seq<Animal>>)
    requires animal.id == 0
    ensures before == Success(Lion)
    ensures err == Ok
    ensures after == Success(WithID(animal, 1))
    ensures all.Success? && multiset(all.value) == multiset{WithID(animal, 1), Eagle, Snake}
  {
    var store := NewSeededStore();
    before := store.GetAnimalByID(1);
    err := store.CreateAnimal(animal);
    after := store.GetAnimalByID(1);
    all := store.GetAllAnimals();
    assert store.animals == map[1 := WithID(animal, 1), 2 := Eagle, 3 := Snake];
    ValueOfKey(store.animals, 1);
    ValueOfKey(store.animals, 2);
    ValueOfKey(store.animals, 3);
    assert store.animals.Values == {WithID(animal, 1), Eagle, Snake};
  }

  const Panda := Animal(101, "panda", "mammal", 4)
  const Grizzly := Animal(0, "grizzly bear", "mammal", 4)
  const BlackBear := Animal(0, "black bear", "mammal", 4)

  /** The documented request sequence, on the seeded store: create panda (201, echoed),
      create it again (409), get 999 (404), put 55 twice (201 then 200, both with id 55),
      delete 55 (204), get 55 (404). */
  method DocumentedScenarios() returns (rs: seq<Response>)
    ensures |rs| == 7
    ensures rs[0] == Response(StatusCreated, One(Panda))
    ensures rs[1].status == StatusConflict
    ensures rs[2].status == StatusNotFound
    ensures rs[3] == Response(StatusCreated, One(Animal(55, "grizzly bear", "mammal", 4)))
    ensures rs[4] == Response(StatusOK, One(Animal(55, "black bear", "mammal", 4)))
    ensures rs[5] == Response(StatusNoContent, NoBody)
    ensures rs[6].status == StatusNotFound
  {
    var store := NewSeededStore();
    var r0 := CreateAnimalHandler(store, Some(Panda));
    var r1 := CreateAnimalHandler(store, Some(Panda));
    var r2 := GetAnimalHandler(store, Some(999));
    var r3 := UpdateAnimalHandler(store, Some(55), Some(Grizzly));
    var r4 := UpdateAnimalHandler(store, Some(55), Some(BlackBear));
    var r5 := DeleteAnimalHandler(store, Some(55));
    var r6 := GetAnimalHandler(store, Some(55));
    rs := [r0, r1, r2, r3, r4, r5, r6];
  }

  /** A record created under a fresh non-zero id is what a lookup of that id then returns. */
  method CreateThenGet(store: InMemoryAnimalStore, animal: Animal) returns (err: Outcome, r: Result<Animal>)
    requires store.Valid()
    requires animal.id != 0 && animal.id !in store.animals
    modifies store
    ensures store.Valid()
    ensures err == Ok && r == Success(animal)
  {
    err := store.CreateAnimal(animal);
    r := store.GetAnimalByID(animal.id);
  }

  /** Creating the same non-zero id twice: the second create is a Conflict and changes nothing. */
  method CreateTwiceConflicts(store: InMemoryAnimalStore, animal: Animal, again: Animal)
    returns (first: Outcome, second: Outcome)
    requires store.Valid()
    requires animal.id != 0 && again.id == animal.id
    modifies store
    ensures store.Valid()
    ensures second == Err(Conflict)
    ensures animal.id !in old(store.animals) ==> first == Ok && store.animals == old(store.animals)[animal.id := animal]
    ensures animal.id in old(store.animals) ==> first == Err(Conflict) && store.animals == old(store.animals)
    ensures store.nextID == old(store.nextID)
  {
    first := store.CreateAnimal(animal);
    second := store.CreateAnimal(again);
  }

  /** Upserting twice with the same arguments leaves the store as upserting once does. */
  method UpsertTwiceIsUpsertOnce(store: InMemoryAnimalStore, id: int, animal: Animal)
    requires store.Valid()
    modifies store
    ensures store.Valid()
    ensures store.animals == old(store.animals)[id := WithID(animal, id)]
    ensures store.nextID == old(store.nextID)
  {
    var _ := store.UpsertAnimal(id, animal);
    var _ := store.UpsertAnimal(id, animal);
  }

  /** After a delete, whether or not it found the id, a lookup of that id is NotFound. */
  method DeleteThenGet(store: InMemoryAnimalStore, id: int) returns (err: Outcome, r: Result<Animal>)
    requires store.Valid()
    modifies store
    ensures store.Valid()
    ensures (err == Ok) == (id in old(store.animals))
    ensures r == Failure(NotFound)
  {
    err := store.DeleteAnimal(id);
    r := store.GetAnimalByID(id);
  }

  /** A store that has had one record created into it (by a non-zero id) lists exactly that record. */
  method ListAfterCreate(animal: Animal) returns (before: Result<seq<Animal>>, after: Result<seq<Animal>>)
    requires animal.id != 0
    ensures before == Failure(NotFound)
    ensures after == Success([animal])
  {
    var store := new InMemoryAnimalStore();
    before := store.GetAllAnimals();
    var _ := store.CreateAnimal(animal);
    after := store.GetAllAnimals();
    ValueOfKey(store.animals, animal.id);
    assert store.animals.Values == {animal};
    assert |after.value| == 1;
    assert after.value[0] in multiset(after.value);
    assert after.value == [animal];
  }

  /** Two records created one after the other into a new store, under distinct non-zero
      ids, are exactly what get-all then lists. */
  method ListAfterTwoCreates(first: Animal, second: Animal) returns (after: Result<seq<Animal>>)
    requires first.id != 0 && second.id != 0 && first.id != second.id
    ensures after.Success? && multiset(after.value) == multiset{first, second}
  {
    var store := new InMemoryAnimalStore();
    var _ := store.CreateAnimal(first);
    var _ := store.CreateAnimal(second);
    after := store.GetAllAnimals();
    assert store.animals == map[first.id := first, second.id := second];
    ValueOfKey(store.animals, first.id);
    ValueOfKey(store.animals, second.id);
    assert store.animals.Values == {first, second};
  }

  /** Two POSTs of the same new id whose store calls interleave: each handler takes the
      store's lock separately for its existence check (main.go:192) and for its create
      (main.go:199), so both checks can run before either create. Both requests then go on
      to create; the first gets 201 and the second reaches the 500 branch (main.go:202). */
  method RacingCreates(first: Animal, second: Animal) returns (s1: int, s2: int)
    requires first.id != 0 && second.id == first.id
    ensures s1 == StatusCreated && s2 == StatusInternalServerError
  {
    var store := new InMemoryAnimalStore();
    var seen1 := store.GetAnimalByID(first.id);
    var seen2 := store.GetAnimalByID(second.id);
    s1, s2 := StatusConflict, StatusConflict;
    if seen1.Failure? {
      var err := store.CreateAnimal(first);
      s1 := if err.Err? then StatusInternalServerError else StatusCreated;
    }
    if seen2.Failure? {
      var err := store.CreateAnimal(second);
      s2 := if err.Err? then StatusInternalServerError else StatusCreated;
    }
  }

  /** A PUT of an existing id with a whole DELETE of that id run between its existence check
      (main.go:232) and its update (main.go:236): the update finds no record, so the PUT
      reaches the 500 branch (main.go:237) after the DELETE answered 204. */
  method UpdateRacingDelete(body: Animal) returns (put: int, del: int)
    ensures del == StatusNoContent && put == StatusInternalServerError
  {
    var store := NewSeededStore();
    var animal := WithID(body, 1);
    var seen := store.GetAnimalByID(1);
    var r := DeleteAnimalHandler(store, Some(1));
    del := r.status;
    put := StatusCreated;
    if seen.Success? {
      var err := store.UpdateAnimal(1, animal);
      put := if err.Err? then StatusInternalServerError else StatusOK;
    }
  }
}
