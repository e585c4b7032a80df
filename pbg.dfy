/** Types shared by both trainer stores and the session builder: the sentinel
    errors, the trainer record, identifiers and the Go-style optional values. */
module Pbg {

  /** A Go value that may be nil. */
  datatype Option<+T> = None | Some(value: T)

  /** The outcome of a call that either yields a value or fails with an error. */
  datatype Result<+T> = Success(value: T) | Failure(error: Error)

  /** The kinds of sentinel error the modelled operations return, plus any
      error produced by code outside the model (the trainer factory, a
      user-supplied session option). pbgServer/mem/data.go declares its own
      PokemonNotFound, MoveNotFound and TrainerNotFound values, distinct Go
      values from those of pbg/errors.go; each constructor here stands for the
      value of the store that returns it, and no contract compares errors of
      the two stores. */
  datatype Error =
    | PokemonNotFound
    | MoveNotFound
    | TrainerNotFound
    | IllegalTrainer
    | InvalidTrainerName
    | TrainerAlreadyExists
    | Other(message: string)

  /** A trainer. The stores only ever read its name; the password stands for
      the rest of the record, so two trainers with one name can still differ. */
  datatype Trainer = Trainer(name: string, password: string)

  /** An object identifier (a bson.ObjectId is a string). */
  type Id = string

  /** The identifier returned together with an error. */
  const NoId: Id := ""

  /** A point in time, as an abstract instant. */
  type Time = int
}
