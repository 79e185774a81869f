/** The record kept by the animal store, and the outcomes its operations report. */
module ZooTypes {

  /** One animal record. Its JSON form is {"id", "name", "class", "legs"};
      `class` is a Dafny keyword, so that field is called `animalClass` here.
      The source does not check that `legs` is non-negative, so neither does the model. */
  datatype Animal = Animal(id: int, name: string, animalClass: string, legs: int)

  /** The two kinds of failure the store reports: a missing key, or a key already taken. */
  datatype StoreError = NotFound | Conflict

  /** The `error` result of a store mutator: `nil` or an error. */
  datatype Outcome = Ok | Err(error: StoreError)

  /** An input that was parsed (a path id, a decoded request body), or one that failed to parse. */
  datatype Option<+T> = None | Some(value: T)

  /** A value together with `nil`, or an error. */
  datatype Result<+T> = Success(value: T) | Failure(error: StoreError)

  /** The record `a` with its id replaced by `id`, as the store does for id-0 creates, updates and upserts. */
  function WithID(a: Animal, id: int): Animal
  {
    a.(id := id)
  }
}
