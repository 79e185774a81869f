/** The in-memory animal store: a table keyed by id plus an auto-increment counter.
    Each store operation runs to completion before the next one starts (the source's mutex);
    a request handler makes two store calls, and another request may run between them. */
module Store {
  import opened ZooTypes

  /** The store's invariant: every stored record carries its own key as its id.
      So no two stored records share an id. */
  ghost predicate KeysMatchIDs(m: map<int, Animal>)
  {
    forall k :: k in m ==> m[k].id == k
  }

  /** The records stored under the keys in `keys`. */
  ghost function ValuesAt(m: map<int, Animal>, keys: set<int>): set<Animal>
  {
    set k | k in keys && k in m :: m[k]
  }

  /** Adding the record of one more key adds exactly one element, since ids tell records apart. */
  lemma ValuesAtAdd(m: map<int, Animal>, keys: set<int>, k: int)
    requires KeysMatchIDs(m)
    requires k in m && k !in keys
    ensures multiset(ValuesAt(m, keys + {k})) == multiset(ValuesAt(m, keys)) + multiset{m[k]}
  {
  }

  /** The record under a key is among the stored records. A proof step for the callers'
      listings, not a property of the store. */
  lemma ValueOfKey(m: map<int, Animal>, k: int)
    requires k in m
    ensures m[k] in m.Values
  {
  }

  /** The records of all keys are all the stored records. */
  lemma ValuesAtAllKeys(m: map<int, Animal>)
    ensures ValuesAt(m, m.Keys) == m.Values
  {
    forall a | a in m.Values ensures a in ValuesAt(m, m.Keys) {
      if forall k :: k in m.Keys ==> m[k] != a {
        assert false;
      }
      var k :| k in m.Keys && m[k] == a;
      assert a == m[k];
    }
  }

  /** A non-empty set of keys has a key to pick. It exists so that `GetAllAnimals` can choose
      its next key with `:|`; it is not a property of the store. */
  lemma SomeKey(s: set<int>)
    requires s != {}
    ensures exists x :: x in s
  {
    if forall x :: x !in s {
      assert false;
    }
  }

  /** A sequence with the same multiset of elements as a set lists no element twice. */
  lemma NoDuplicates<T>(s: seq<T>, vs: set<T>)
    requires multiset(s) == multiset(vs)
    ensures forall i, j :: 0 <= i < j < |s| ==> s[i] != s[j]
  {
    forall i, j | 0 <= i < j < |s| ensures s[i] != s[j] {
      assert s == s[..j] + s[j..];
      assert s[j..][0] == s[j];
      assert multiset(s)[s[j]] == multiset(s[..j])[s[j]] + multiset(s[j..])[s[j]];
      assert s[j] !in multiset(s[..j]);
      assert s[..j][i] == s[i];
    }
  }

  class InMemoryAnimalStore {
    /** The stored records, by id. */
    var animals: map<int, Animal>
    /** The id handed to the next record created with id 0. */
    var nextID: int

    ghost predicate Valid()
      reads this
    {
      KeysMatchIDs(animals)
    }

    /** An empty store whose auto-assigned ids start at 1. */
    constructor ()
      ensures Valid()
      ensures animals == map[] && nextID == 1
    {
      animals := map[];
      nextID := 1;
    }

    /** All stored records, in no particular order; an empty store is an error. */
    method GetAllAnimals() returns (r: Result<seq<Animal>>)
      requires Valid()
      ensures r.Failure? <==> |animals| == 0
      ensures r.Failure? ==> r.error == NotFound
      ensures r.Success? ==> |r.value| == |animals| && multiset(r.value) == multiset(animals.Values)
      ensures r.Success? ==> forall i, j :: 0 <= i < j < |r.value| ==> r.value[i] != r.value[j]
    {
      if |animals| == 0 {
        return Failure(NotFound);
      }
      var all: seq<Animal> := [];
      var rest := animals.Keys;
      while rest != {}
        invariant rest <= animals.Keys
        invariant |all| + |rest| == |animals|
        invariant multiset(all) == multiset(ValuesAt(animals, animals.Keys - rest))
        decreases |rest|
      {
        SomeKey(rest);
        var k :| k in rest;
        ValuesAtAdd(animals, animals.Keys - rest, k);
        assert animals.Keys - (rest - {k}) == (animals.Keys - rest) + {k};
        all := all + [animals[k]];
        rest := rest - {k};
      }
      assert animals.Keys - rest == animals.Keys;
      ValuesAtAllKeys(animals);
      NoDuplicates(all, animals.Values);
      return Success(all);
    }

    /** The record stored under `id`, or NotFound. */
    method GetAnimalByID(id: int) returns (r: Result<Animal>)
      requires Valid()
      ensures r.Success? <==> id in animals
      ensures r.Success? ==> r.value == animals[id] && r.value.id == id
      ensures r.Failure? ==> r.error == NotFound
    {
      if id !in animals {
        return Failure(NotFound);
      }
      return Success(animals[id]);
    }

    /** Stores `animal` under its own id, or, when that id is 0, under a fresh id from the
        counter. A non-zero id that is already a key is a Conflict. The id-0 branch does not
        look at the table, so it replaces whatever is stored under the counter's value. */
    method CreateAnimal(animal: Animal) returns (err: Outcome)
      requires Valid()
      modifies this
      ensures Valid()
      ensures animal.id == 0 ==>
                && err == Ok
                && animals == old(animals)[old(nextID) := WithID(animal, old(nextID))]
                && nextID == old(nextID) + 1
      ensures animal.id != 0 && animal.id in old(animals) ==>
                err == Err(Conflict) && animals == old(animals) && nextID == old(nextID)
      ensures animal.id != 0 && animal.id !in old(animals) ==>
                err == Ok && animals == old(animals)[animal.id := animal] && nextID == old(nextID)
    {
      var stored := animal;
      if stored.id == 0 {
        stored := WithID(stored, nextID);
        nextID := nextID + 1;
      } else if stored.id in animals {
        return Err(Conflict);
      }
      animals := animals[stored.id := stored];
      return Ok;
    }

    /** Replaces the record under an existing `id` (with its id forced to `id`); never adds a key. */
    method UpdateAnimal(id: int, animal: Animal) returns (err: Outcome)
      requires Valid()
      modifies this
      ensures Valid()
      ensures nextID == old(nextID)
      ensures err == Ok <==> id in old(animals)
      ensures err != Ok ==> err == Err(NotFound) && animals == old(animals)
      ensures err == Ok ==> animals == old(animals)[id := WithID(animal, id)]
      ensures animals.Keys == old(animals).Keys
    {
      if id !in animals {
        return Err(NotFound);
      }
      animals := animals[id := WithID(animal, id)];
      return Ok;
    }

    /** Stores `animal` under `id` (with its id forced to `id`), whether or not `id` was a key. */
    method UpsertAnimal(id: int, animal: Animal) returns (err: Outcome)
      requires Valid()
      modifies this
      ensures Valid()
      ensures err == Ok
      ensures nextID == old(nextID)
      ensures animals == old(animals)[id := WithID(animal, id)]
      ensures animals.Keys == old(animals).Keys + {id}
    {
      animals := animals[id := WithID(animal, id)];
      return Ok;
    }

    /** Removes the record under an existing `id`. */
    method DeleteAnimal(id: int) returns (err: Outcome)
      requires Valid()
      modifies this
      ensures Valid()
      ensures nextID == old(nextID)
      ensures err == Ok <==> id in old(animals)
      ensures err != Ok ==> err == Err(NotFound) && animals == old(animals)
      ensures err == Ok ==> animals == old(animals) - {id}
      ensures id !in animals
    {
      if id !in animals {
        return Err(NotFound);
      }
      animals := animals - {id};
      return Ok;
    }
  }
}
