/** Call sequences against each store whose outcomes follow from the stores'
    contracts alone; they show where the two stores differ. */
module Scenarios {
  import opened Pbg
  import opened TrainerMaps
  import LockedStore
  import ActorStore

  /** A trainer factory that accepts every name and password. */
  function PlainFactory(user: string, pass: string): Result<Trainer>
  {
    Success(Trainer(user, pass))
  }

  /** On the actor store: add "ash", add "ash" again, look "ash" up, delete
      it, look its id up, add "ash" once more. The second add is refused, the
      lookup by id after the delete fails, and the name is free again. */
  method ActorNameReuse(id1: Id, id2: Id, id3: Id) returns (errs: seq<Option<Error>>, found: Option<Trainer>)
    requires id1 != id2 && id1 != id3
    ensures errs == [None, Some(TrainerAlreadyExists), None, None, Some(TrainerNotFound), None]
    ensures found == Some(Trainer("ash", "pw1"))
  {
    var store := new ActorStore.TrainerDBComponent(PlainFactory);
    var a1, e1 := store.AddTrainer("ash", "pw1", id1);
    assert store.trainers.Keys == {id1};
    var a2, e2 := store.AddTrainer("ash", "pw2", id2);
    var t3, e3 := store.GetTrainerByName("ash");
    var e4 := store.DeleteTrainer(a1);
    var t5, e5 := store.GetTrainerById(a1);
    var a6, e6 := store.AddTrainer("ash", "pw3", id3);
    errs, found := [e1, e2, e3, e4, e5, e6], t3;
  }

  /** On the lock-based store: a second trainer called "ash" is accepted
      under its own id, leaving two trainers with one name; a trainer called
      "" is accepted as well, yet looking up "" by name is refused before the
      map is read. */
  method LockedDuplicateAndEmptyName(id1: Id, id2: Id, id3: Id)
    returns (errs: seq<Option<Error>>, byId1: Option<Trainer>, byId2: Option<Trainer>)
    requires id1 != id2 && id1 != id3 && id2 != id3
    ensures errs == [None, None, None, Some(InvalidTrainerName), None]
    ensures byId1 == Some(Trainer("ash", "pw1")) && byId2 == Some(Trainer("ash", "pw2"))
  {
    var store := new LockedStore.MemData.Build([], []);
    var a1, e1 := store.AddTrainer(Some(Trainer("ash", "pw1")), id1);
    var a2, e2 := store.AddTrainer(Some(Trainer("ash", "pw2")), id2);
    var a3, e3 := store.AddTrainer(Some(Trainer("", "pw3")), id3);
    var t4, e4 := store.GetTrainerByName("");
    assert store.trainers[id1].name == "ash";
    var t5, e5 := store.GetTrainerByName("ash");
    var e6, e7;
    byId1, e6 := store.GetTrainerById(a1);
    byId2, e7 := store.GetTrainerById(a2);
    errs := [e1, e2, e3, e4, e5];
  }

  /** On the lock-based store, two adds that are handed the same id both
      succeed and return that id; the second trainer replaces the first, so the
      first caller's id now names the second trainer and the map holds one
      entry. */
  method LockedIdCollision(id: Id) returns (errs: seq<Option<Error>>, byId: Option<Trainer>, size: nat)
    ensures errs == [None, None]
    ensures byId == Some(Trainer("misty", "pw2")) && size == 1
  {
    var store := new LockedStore.MemData.Build([], []);
    var a1, e1 := store.AddTrainer(Some(Trainer("ash", "pw1")), id);
    var a2, e2 := store.AddTrainer(Some(Trainer("misty", "pw2")), id);
    var e3;
    byId, e3 := store.GetTrainerById(a1);
    errs, size := [e1, e2], |store.trainers|;
  }

  /** The same empty-name lookup on the actor store finds the trainer. */
  method ActorEmptyName(id: Id) returns (t: Option<Trainer>, err: Option<Error>)
    ensures t == Some(Trainer("", "pw")) && err == None
  {
    var store := new ActorStore.TrainerDBComponent(PlainFactory);
    var a, e := store.AddTrainer("", "pw", id);
    t, err := store.GetTrainerByName("");
    assert store.trainers == map[id := Trainer("", "pw")];
  }
}
