/** The single-owner trainer component of mem/trainer_interface.go. Every
    operation is a request closure that the component's one worker runs
    against the trainer map; the closure answers exactly once, either with a
    value on its success channel or with an error (possibly nil) on its error
    channel, and the caller turns that answer into a Go result pair. The
    worker and the channels are abstracted away: each method is one atomic
    step on the map followed by that conversion. */
module ActorStore {
  import opened Pbg
  import opened TrainerMaps

  /** What a request closure sends: one value on the success channel, or one
      error value (which may be nil) on the error channel. */
  datatype Answer<+T> = Sent(value: T) | Raised(err: Option<Error>)

  /** requestingWithReturn: a value received on the success channel becomes
      (value, nil); an error received on the error channel becomes (nil, err).
      The pair never holds both a value and an error. */
  function RequestingWithReturn<T>(answer: Answer<T>): (r: (Option<T>, Option<Error>))
    ensures r.0.None? || r.1.None?
    ensures r.0.Some? <==> answer.Sent?
    ensures answer.Sent? ==> r.0.value == answer.value
    ensures answer.Raised? ==> r.1 == answer.err
  {
    match answer
    case Sent(v) => (Some(v), None)
    case Raised(e) => (None, e)
  }

  /** requestingGet: as requestingWithReturn, after which a nil error means
      the value is a trainer. A closure that sent a nil error would make the
      type assertion panic; none of the lookups does, and the precondition
      excludes it. The result holds exactly one of a trainer and an error. */
  function RequestingGet(answer: Answer<Trainer>): (r: (Option<Trainer>, Option<Error>))
    requires answer.Sent? || answer.err.Some?
    ensures r.0.Some? != r.1.Some?
    ensures answer.Sent? ==> r == (Some(answer.value), None)
    ensures answer.Raised? ==> r == (None, answer.err)
  {
    var (v, e) := RequestingWithReturn(answer);
    if e.Some? then (None, e) else (v, None)
  }

  class TrainerDBComponent {
    /** Builds a trainer from a name and a password, or fails. */
    const factory: (string, string) -> Result<Trainer>
    /** The map owned by the worker. */
    var trainers: map<Id, Trainer>

    /** The invariant the request closures keep: names are pairwise distinct. */
    ghost predicate Valid()
      reads this
    {
      NamesDistinct(trainers)
    }

    /** A component with the given trainer factory and no trainers. */
    constructor (factory: (string, string) -> Result<Trainer>)
      ensures this.factory == factory && trainers == map[]
      ensures Valid()
    {
      this.factory := factory;
      trainers := map[];
    }

    /** Calls the factory first and passes its error through; then fails with
        TrainerAlreadyExists if a stored trainer has the new trainer's name;
        otherwise stores the trainer under the given id (replacing any entry
        already stored there) and returns that id. Distinct names stay
        distinct. */
    method AddTrainer(user: string, pass: string, newId: Id) returns (id: Id, err: Option<Error>)
      modifies this`trainers
      ensures factory(user, pass).Failure? ==>
                id == NoId && err == Some(factory(user, pass).error) && trainers == old(trainers)
      ensures factory(user, pass).Success? && HasName(old(trainers), factory(user, pass).value.name) ==>
                id == NoId && err == Some(TrainerAlreadyExists) && trainers == old(trainers)
      ensures factory(user, pass).Success? && !HasName(old(trainers), factory(user, pass).value.name) ==>
                id == newId && err == None && trainers == old(trainers)[newId := factory(user, pass).value]
      ensures (factory(user, pass).Success? && !HasName(old(trainers), factory(user, pass).value.name)
               && newId !in old(trainers)) ==> |trainers| == |old(trainers)| + 1
      ensures old(Valid()) ==> Valid()
    {
      var answer: Answer<Id>;
      var made := factory(user, pass);
      if made.Failure? {
        answer := Raised(Some(made.error));
      } else {
        var clash := false;
        var unseen := trainers.Keys;
        while unseen != {}
          invariant unseen <= trainers.Keys
          invariant forall k :: k in trainers && k !in unseen ==> trainers[k].name != made.value.name
          decreases unseen
        {
          var k :| k in unseen;
          if trainers[k].name == made.value.name {
            clash := true;
            break;
          }
          unseen := unseen - {k};
        }
        if clash {
          answer := Raised(Some(TrainerAlreadyExists));
        } else {
          assert NamesDistinct(trainers) ==> NamesDistinct(trainers[newId := made.value]) by {
            if NamesDistinct(trainers) {
              InsertUnusedName(trainers, newId, made.value);
            }
          }
          trainers := trainers[newId := made.value];
          answer := Sent(newId);
        }
      }
      var (v, e) := RequestingWithReturn(answer);
      if e.Some? {
        return NoId, e;
      }
      return v.value, None;
    }

    /** Some stored trainer with the given name, or TrainerNotFound exactly
        when there is none; the empty name is looked up like any other. The
        map is not changed, and while names are distinct the trainer found is
        the only one with that name. */
    method GetTrainerByName(name: string) returns (t: Option<Trainer>, err: Option<Error>)
      ensures t.Some? != err.Some?
      ensures HasName(trainers, name) ==>
                err == None && t.Some? && t.value.name == name && t.value in trainers.Values
      ensures !HasName(trainers, name) ==> t == None && err == Some(TrainerNotFound)
      ensures Valid() && t.Some? ==> forall k :: k in trainers && trainers[k].name == name ==> trainers[k] == t.value
    {
      var answer: Answer<Trainer> := Raised(Some(TrainerNotFound));
      var unseen := trainers.Keys;
      while unseen != {}
        invariant unseen <= trainers.Keys
        invariant answer == Raised(Some(TrainerNotFound))
        invariant forall k :: k in trainers && k !in unseen ==> trainers[k].name != name
        decreases unseen
      {
        var k :| k in unseen;
        if trainers[k].name == name {
          answer := Sent(trainers[k]);
          break;
        }
        unseen := unseen - {k};
      }
      var r := RequestingGet(answer);
      t, err := r.0, r.1;
    }

    /** The trainer stored under id, or TrainerNotFound; the map is not changed. */
    method GetTrainerById(id: Id) returns (t: Option<Trainer>, err: Option<Error>)
      ensures id in trainers ==> t == Some(trainers[id]) && err == None
      ensures id !in trainers ==> t == None && err == Some(TrainerNotFound)
    {
      var answer: Answer<Trainer>;
      if id !in trainers {
        answer := Raised(Some(TrainerNotFound));
      } else {
        answer := Sent(trainers[id]);
      }
      var r := RequestingGet(answer);
      t, err := r.0, r.1;
    }

    /** Fails with TrainerNotFound and changes nothing when id is absent;
        otherwise removes exactly that entry and answers a nil error. Distinct
        names stay distinct, and the deleted trainer's name is then unused. */
    method DeleteTrainer(id: Id) returns (err: Option<Error>)
      modifies this`trainers
      ensures id !in old(trainers) ==> err == Some(TrainerNotFound) && trainers == old(trainers)
      ensures id in old(trainers) ==> err == None && trainers == old(trainers) - {id}
      ensures id in old(trainers) ==> id !in trainers && |trainers| == |old(trainers)| - 1
      ensures old(Valid()) ==> Valid()
      ensures old(Valid()) && id in old(trainers) ==> !HasName(trainers, old(trainers)[id].name)
    {
      var answer: Answer<()>;
      if id !in trainers {
        answer := Raised(Some(TrainerNotFound));
      } else {
        RemovePresent(trainers, id);
        trainers := trainers - {id};
        answer := Raised(None);
      }
      err := RequestingWithReturn(answer).1;
    }
  }
}
