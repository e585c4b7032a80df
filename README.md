# Trainer registry of PokemonBattleGo, modelled in Dafny

This project models the sequential behaviour of the trainer registry of the
PokemonBattleGo game server, together with the Pokédex/Movedex lookups and the
session builder around it.

The repository has two implementations of a store that maps object ids to
trainers:

- **The lock-based data mechanism** (`pbgServer/mem/data.go`, module
  `LockedStore`, class `MemData`). One mutex guards the trainer map. It also
  holds the Pokédex and the Movedex, which are looked up by 1-based position.
- **The single-owner trainer component** (`mem/trainer_interface.go`, module
  `ActorStore`, class `TrainerDBComponent`). Every operation is a closure that
  one worker runs against the map. The closure answers once, on a success
  channel or on an error channel, and the caller turns that answer into a Go
  result pair (`RequestingWithReturn`, `RequestingGet`).

In both, the lock or the worker is abstracted away. Each operation is one
atomic step on a `map<Id, Trainer>` field that the methods reassign. Loops over
the Go map become `while` loops that pick an arbitrary unvisited key, because Go
map iteration order is unspecified.

The two stores are not equivalent, and the model does not claim they are:

- The lock-based `AddTrainer` takes a trainer value and never checks names. A
  second trainer with a used name is stored too (`InsertUsedNameBreaksDistinct`,
  `Scenarios.LockedDuplicateAndEmptyName`).
- The actor `AddTrainer` builds the trainer with a factory, refuses a used
  name, and keeps names pairwise distinct (`TrainerDBComponent.Valid`).
- Only the lock-based `GetTrainerByName` rejects the empty name. A trainer
  called "" can be stored there but never found by name. The actor store finds
  it (`Scenarios.ActorEmptyName`).

The session builder (`mem/session_factory.go`, module `Sessions`) starts a
`Session` object from defaults and applies its options in order. The pure fold
`Fold` over the session's fields specifies `NewSession`. Lemmas state that the
first failing option decides the result, and that a list of built-in options
never fails and leaves each field set by the last option that sets it.

Shared types (errors, trainers, ids) are in module `Pbg`. Facts about inserting
into and deleting from the trainer map are in module `TrainerMaps`.

## Model

| member | source | states |
|---|---|---|
| `TrainerMaps.InsertUnusedName` | mem/trainer_interface.go:59-67 | inserting a trainer with an unused name keeps names distinct, even when the id was already a key, and under a fresh id grows the map by one |
| `TrainerMaps.InsertUsedNameBreaksDistinct` | pbgServer/mem/data.go:92-93 | inserting a trainer with a used name under a fresh id always leaves two trainers with that name |
| `TrainerMaps.RemovePresent` | mem/trainer_interface.go:110-114 | deleting a present key removes exactly that key, shrinks the map by one, keeps names distinct, and frees the deleted trainer's name |
| `LockedStore.MemData.Build` | pbgServer/mem/data.go:76-80 | a built store holds the given Pokédex and Movedex and an empty trainer map |
| `LockedStore.MemData.GetPokemons` | pbgServer/mem/data.go:109-111 | the returned list is the Pokédex as stored: entry i is what GetPokemonById(i + 1) finds, and no id outside 1..length finds anything |
| `LockedStore.MemData.GetMoves` | pbgServer/mem/data.go:113-115 | the returned list is the Movedex as stored: entry i is what GetMoveById(i + 1) finds, and no id outside 1..length finds anything |
| `LockedStore.MemData.GetMoveById` | pbgServer/mem/data.go:117-123 | fails with MoveNotFound exactly when id <= 0 or id > length; otherwise yields the move at position id - 1 |
| `LockedStore.MemData.GetPokemonById` | pbgServer/mem/data.go:125-131 | fails with PokemonNotFound exactly when id <= 0 or id > length; otherwise yields the Pokémon at position id - 1 |
| `LockedStore.PokedexRoundTrip` | pbgServer/mem/data.go:125-131 | for a Pokédex numbered by position, looking up an entry's declared id finds that entry, and every successful lookup finds the entry declaring that id |
| `LockedStore.MovedexRoundTrip` | pbgServer/mem/data.go:117-123 | for a Movedex numbered by position, looking up an entry's declared id finds that entry, and every successful lookup finds the entry declaring that id |
| `LockedStore.MemData.AddTrainer` | pbgServer/mem/data.go:84-95 | a nil trainer gives ("", IllegalTrainer) and no change; otherwise the given id now maps to the trainer (replacing any entry stored there) and the other entries are unchanged; under a fresh id the size grows by one and a used name ends up shared |
| `LockedStore.MemData.RemoveTrainer` | pbgServer/mem/data.go:97-107 | an absent id gives TrainerNotFound and no change; a present id is removed alone, with a nil error, and the size shrinks by one |
| `LockedStore.MemData.GetTrainerById` | pbgServer/mem/data.go:133-142 | returns the trainer stored under id, or TrainerNotFound when the id is absent; the map is only read |
| `LockedStore.MemData.GetTrainerByName` | pbgServer/mem/data.go:144-159 | the empty name gives InvalidTrainerName; otherwise it returns some stored trainer with that name, and TrainerNotFound exactly when none has it; the map is only read |
| `ActorStore.RequestingWithReturn` | mem/trainer_interface.go:14-28 | a closure's answer on the success channel becomes (value, nil) and one on the error channel becomes (nil, err); the pair never holds both |
| `ActorStore.RequestingGet` | mem/trainer_interface.go:30-42 | a lookup's answer becomes exactly one of a trainer and an error |
| `ActorStore.TrainerDBComponent.AddTrainer` | mem/trainer_interface.go:50-78 | a factory error is passed through with no change; a used name gives TrainerAlreadyExists with no change; otherwise the given id is returned and now maps to the new trainer (replacing any entry stored there), other entries unchanged, and under a fresh id the size grows by one; distinct names stay distinct |
| `ActorStore.TrainerDBComponent.GetTrainerByName` | mem/trainer_interface.go:80-93 | returns some stored trainer with that name (the only one while names are distinct), and TrainerNotFound exactly when none has it; no empty-name check; exactly one of trainer and error; the map is only read |
| `ActorStore.TrainerDBComponent.GetTrainerById` | mem/trainer_interface.go:95-105 | returns the trainer stored under id, or TrainerNotFound when the id is absent; the map is only read |
| `ActorStore.TrainerDBComponent.DeleteTrainer` | mem/trainer_interface.go:107-120 | an absent id gives TrainerNotFound and no change; a present id is removed alone and a nil error is returned; afterwards the id and the deleted trainer's name are gone; distinct names stay distinct |
| `Sessions.Step` | mem/session_factory.go:26-45 | WithReference, WithToken and WithExpiringDate never fail and each sets only its own field |
| `Sessions.FoldAppend` | mem/session_factory.go:17-21 | applying options a then b is applying a and, if that succeeded, applying b to its result |
| `Sessions.FirstFailureAborts` | mem/session_factory.go:17-21 | when options before position i succeed and option i fails, that error is the result and later options are not applied |
| `Sessions.BuiltInFoldLastWins` | mem/session_factory.go:17-45 | a list of built-in options always succeeds, and each field holds the value of the last option setting it, or its starting value |
| `Sessions.Session.constructor` | mem/session_factory.go:15 | a new session has no user, an empty token, and the construction time as expiry |
| `Sessions.Session.Apply` | mem/session_factory.go:26-45 | running an option on a session sets the fields as the option's step says and reports no error, or reports the option's error |
| `Sessions.NewSession` | mem/session_factory.go:14-24 | returns the session holding the fold of the options over the defaults when every option succeeds, and (nil, err) with the first error otherwise; with no options the session has the defaults |
| `Scenarios.ActorNameReuse` | mem/trainer_interface.go:50-120 | on the actor store: a second "ash" is refused, "ash" is found, after deleting it the id lookup fails, and "ash" can be added again |
| `Scenarios.LockedDuplicateAndEmptyName` | pbgServer/mem/data.go:84-159 | on the lock-based store: two trainers called "ash" are stored under distinct ids, a trainer called "" is stored, and looking up "" is refused |
| `Scenarios.LockedIdCollision` | pbgServer/mem/data.go:92-94 | on the lock-based store, two adds given the same id both succeed; the second trainer replaces the first and the map holds one entry |
| `Scenarios.ActorEmptyName` | mem/trainer_interface.go:80-93 | on the actor store, a trainer called "" is found by the empty name |

## Left out

- The `sync.Mutex`, the request channel, the response channels and the worker goroutine. Each operation is modelled as one atomic sequential step; linearizability is not verified.
- `bson.NewObjectIdWithTime(time.Now())`: a clock-based foreign call. The id is a parameter `newId` on which nothing is assumed. As in the source, an id that is already a key makes `AddTrainer` overwrite that entry (`trainers[id] = trainer`); the size then stays the same. The foreign call fills only a seconds timestamp, so two adds in one second can get the same id; the model does not model the clock and makes no claim about when ids collide or how they are ordered.
- File reading, JSON decoding and the panics in `Build`, and `convertLtoPL`/`convertLtoML`. These are not part of this model. `Build` takes the already converted lists.
- The fields of Pokémon and moves other than their declared id. The stores never look at them.
- The trainer factory `tdb.factory`, `WithTrainerName` and `WithTrainerPassword`. These are not part of this model. The factory is an arbitrary total function from name and password to a trainer or an error.
- The component's own construction and its worker loop. These are not part of this model; `TrainerDBComponent` starts from an empty map.
- `Log` and the logger option of `mem/trainer_option.go`: they only write to a foreign logger.
- `time.Now()` in `NewSession`: the construction time is the parameter `now`.
- Go `nil` values: the lock-based map never holds a nil trainer, because `AddTrainer` rejects one, so `trainers[id] == nil` is modelled as the key being absent. A nil trainer argument is `None`.
- `ActorStore.RequestingGet`: requires that the closure did not answer a nil error, because the type assertion at mem/trainer_interface.go:40 would then panic. No lookup closure answers that way.
- `Sessions.Session.Apply`: a user-supplied option that fails leaves the session unchanged here. A Go option could change fields before failing, but `NewSession` discards that session, so the difference is not observable.
