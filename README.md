# AnekaZoo animal store, modelled in Dafny

AnekaZoo is a small CRUD service for "animal" records under the `/v1/animals` path. This
project models the two parts of `main.go` that make decisions:

- **The record store** `InMemoryAnimalStore`. It is a table from integer ids to `Animal`
  records plus an auto-increment counter `nextID`. Its operations are get-all, get-by-id,
  create, update, upsert and delete. The model is a Dafny class with a `map<int, Animal>`
  field and an `int` field, and its methods change them in place. The class invariant
  `Valid()` says that every stored record carries its own key as its id. Every mutator keeps
  it. Every method states the whole new state in terms of the old one.
- **The five HTTP handlers**. They are methods that take the store and the already-parsed
  request inputs: the path id, or `None` when it is not an integer, and the decoded body, or
  `None` when it does not decode. Each returns the status code and the kind of body written.
  Their contracts give the status for every input and the store state afterwards. A
  handler is modelled as running with no other request between its store calls. Under
  that assumption the contracts prove that no `500 Internal Server Error` branch is taken.
  `Scenarios.RacingCreates` and `Scenarios.UpdateRacingDelete` show two of those branches
  reached when requests interleave.

Files:

- `Types.dfy` (module `ZooTypes`): the `Animal` record, the store's errors (`NotFound`,
  `Conflict`), and the `Outcome`, `Result` and `Option` wrappers.
- `Store.dfy` (module `Store`): the invariant, the store class and the lemmas behind
  `GetAllAnimals`.
- `Handlers.dfy` (module `Handlers`): status codes, responses and the five handlers.
- `Scenarios.dfy` (module `Scenarios`): the start-up seeding from `main`, the documented
  request sequence, and caller methods that chain several operations.

Behaviour modelled as written:

- A create with id 0 takes its id from `nextID` and stores the record there without checking
  whether that key is in use. Creates with an explicit id never advance `nextID`. So after
  the three seed records (ids 1–3) an id-0 create replaces the lion at key 1.
  `Scenarios.AutoIDCreateOverwritesSeed` proves this. The HTTP create path rejects id 0
  before the store sees it, so it never reaches this branch.
- An empty store makes get-all fail, and GET `/v1/animals` then answers 404, not an empty
  array.
- `legs` is meant as a count of legs, but the code never rejects a negative value. The
  model follows the code: `legs` is an unconstrained `int`.

## Model

| member | source | states |
|---|---|---|
| `Store.InMemoryAnimalStore.constructor` | main.go:40-45 | a new store is empty, its counter starts at 1, and the invariant holds |
| `Store.InMemoryAnimalStore.GetAllAnimals` | main.go:48-61 | fails with NotFound exactly when the table is empty; otherwise returns one element per key, whose multiset is exactly the stored records, with no record listed twice; the store is not changed |
| `Store.InMemoryAnimalStore.GetAnimalByID` | main.go:64-73 | succeeds exactly when the id is a key, and then returns the record stored there, whose id is that key; otherwise NotFound |
| `Store.InMemoryAnimalStore.CreateAnimal` | main.go:77-93 | id 0: stores the record, with its id set to the old counter, under the old counter, overwriting any record there, and increments the counter; non-zero id already a key: Conflict, nothing changes; fresh non-zero id: adds exactly that key with that record, counter unchanged; invariant kept |
| `Store.InMemoryAnimalStore.UpdateAnimal` | main.go:97-108 | absent id: NotFound, nothing changes; present id: the record under id becomes the argument with its id forced to id, other entries unchanged; the key set never changes; invariant kept |
| `Store.InMemoryAnimalStore.UpsertAnimal` | main.go:111-118 | always succeeds; the record under id becomes the argument with its id forced to id, the key set becomes the old one plus id, other entries and the counter unchanged; invariant kept |
| `Store.InMemoryAnimalStore.DeleteAnimal` | main.go:122-131 | absent id: NotFound, nothing changes; present id: exactly that key is removed; afterwards id is never a key; invariant kept |
| `Store.NoDuplicates` | main.go:56-59 | a listing whose multiset equals a set of records lists no record twice, which is why get-all never repeats a record |
| `Handlers.GetAnimalsHandler` | main.go:136-151 | 404 exactly when the store is empty, otherwise 200 with every stored record (as a multiset); the 500 branch is unreachable |
| `Handlers.GetAnimalHandler` | main.go:154-172 | unparsable id: 400; absent id: 404; present id: 200 with the stored record |
| `Handlers.CreateAnimalHandler` | main.go:176-209 | undecodable body or id 0: 400; existing id: 409; in those cases the store is unchanged; otherwise 201 echoing the body, and exactly that key is added; the counter never changes; with no other request between its two store calls, the 500 branch is not taken, so the handler's pre-check and the store's duplicate check agree |
| `Handlers.UpdateAnimalHandler` | main.go:212-252 | unparsable path id or body: 400, store unchanged; otherwise the record under the path id becomes the body with its id forced to the path id, the response echoes that record, and the status is 200 if the id existed before and 201 if not; with no other request between the existence check and the store call, neither 500 branch is taken |
| `Handlers.DeleteAnimalHandler` | main.go:255-273 | unparsable id: 400; absent id: 404, store unchanged; present id: 204 with no body, exactly that key removed |
| `Scenarios.NewSeededStore` | main.go:277-282 | the start-up store holds lion, eagle and snake under ids 1, 2 and 3, and its counter is still 1 |
| `Scenarios.AutoIDCreateOverwritesSeed` | main.go:81-91 | on the seeded store an id-0 create reports success, takes id 1 and replaces the lion; the store still lists three records |
| `Scenarios.DocumentedScenarios` | main.go:176-273 | on the seeded store: POST panda gives 201 echoing it, POST again gives 409, GET 999 gives 404, PUT 55 twice gives 201 and then 200 with id 55 and the new name, DELETE 55 gives 204, and then GET 55 gives 404 |
| `Scenarios.CreateThenGet` | main.go:87-91 | after creating a record under a fresh non-zero id, a lookup of that id returns exactly that record |
| `Scenarios.CreateTwiceConflicts` | main.go:87-89 | a second create with the same non-zero id is a Conflict; the state is what the first create left, and the counter is unchanged |
| `Scenarios.UpsertTwiceIsUpsertOnce` | main.go:115-116 | two identical upserts leave the same state as one |
| `Scenarios.DeleteThenGet` | main.go:126-129 | after a delete, which succeeds exactly when the id was a key, a lookup of that id is NotFound |
| `Scenarios.ListAfterCreate` | main.go:52-59 | get-all on a new store is NotFound; after one create with a non-zero id it lists exactly that record |
| `Scenarios.ListAfterTwoCreates` | main.go:52-59 | after two creates into a new store with distinct non-zero ids, get-all lists exactly those two records |
| `Scenarios.RacingCreates` | main.go:192-202 | two POSTs of the same new id, both existence checks before either create: the first gets 201, the second gets 500 |
| `Scenarios.UpdateRacingDelete` | main.go:232-237 | a PUT of an existing id with a DELETE of it between its check and its update: the DELETE gets 204 and the PUT gets 500 |

## Left out

- Locking: the `sync.Mutex` in the store and every `Lock`/`Unlock`. Each store operation
  is modelled as atomic and the operations run one after another. Concurrent requests are
  not modelled in general. Only the two interleavings in `Scenarios` are written out.
- Handlers.CreateAnimalHandler: modelled as running with no other request between its
  existence check (main.go:192) and its create (main.go:199). Each of those calls takes the
  lock separately, so under interleaving the 500 at main.go:202 can be reached
  (`Scenarios.RacingCreates`). The contract's `status != 500` holds only for the
  uninterleaved run.
- Handlers.UpdateAnimalHandler: modelled as running with no other request between its
  existence check (main.go:232) and its update or upsert (main.go:236, 244). Under
  interleaving the 500 at main.go:237 can be reached (`Scenarios.UpdateRacingDelete`). The
  500 at main.go:245 cannot be reached in any interleaving, because an upsert always
  succeeds.
- The HTTP server, the router, route registration and the listening part of `main`
  (main.go:284-294). This is I/O and library plumbing. Only the seeding in `main` is
  modelled, by `Scenarios.NewSeededStore`.
- JSON decoding and encoding and `strconv.Atoi`. Inputs arrive already parsed as `Option`
  values, and responses carry the record or records they would encode. A body whose JSON
  has no `id` decodes to id 0, and the model covers that case through id 0. The
  `Content-Type` header is not modelled.
- Error message texts. Store errors are the datatype `NotFound | Conflict`, and handler
  error bodies are the single value `Message`. The source compares
  `err.Error() == "no animals found"` in the list handler. The model compares the error
  with `NotFound`, the only error get-all can return.
- The `AnimalStore` interface. The handlers take the in-memory store directly, because it
  is the only implementation.
- Map iteration order in get-all, which Go leaves unspecified. The model picks keys in an
  arbitrary order, and its contract is stated as a multiset.
- Overflow of Go's `int`, for ids, legs and `nextID`. All are unbounded integers.
