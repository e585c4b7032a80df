/** The mutex-guarded data mechanism of pbgServer/mem/data.go: a Pokédex and a
    Movedex loaded once, and a trainer map that every trainer operation reads or
    changes while holding one lock. The lock is abstracted away: each method is
    one atomic step on the map. */
module LockedStore {
  import opened Pbg
  import opened TrainerMaps

  /** A Pokédex entry; only its declared id is modelled. */
  datatype Pokemon = Pokemon(id: int)

  /** A Movedex entry; only its declared id is modelled. */
  datatype Move = Move(id: int)

  /** Entries are numbered from 1 in list order. */
  ghost predicate PokedexNumbered(dex: seq<Pokemon>)
  {
    forall i :: 0 <= i < |dex| ==> dex[i].id == i + 1
  }

  ghost predicate MovedexNumbered(dex: seq<Move>)
  {
    forall i :: 0 <= i < |dex| ==> dex[i].id == i + 1
  }

  class MemData {
    const pokedex: seq<Pokemon>
    const movedex: seq<Move>
    var trainers: map<Id, Trainer>

    /** The store that Build returns once the data file has been decoded: the
        given lists and no trainers. */
    constructor Build(pokedex: seq<Pokemon>, movedex: seq<Move>)
      ensures this.pokedex == pokedex && this.movedex == movedex
      ensures trainers == map[]
    {
      this.pokedex := pokedex;
      this.movedex := movedex;
      trainers := map[];
    }

    /** The whole Pokédex; entry i of it is what GetPokemonById(i + 1) finds,
        and no other id finds anything. */
    function GetPokemons(): (r: seq<Pokemon>)
      ensures forall i :: 0 <= i < |r| ==> GetPokemonById(i + 1) == Success(r[i])
      ensures forall id :: GetPokemonById(id).Success? ==> 1 <= id <= |r|
    {
      pokedex
    }

    /** The whole Movedex; entry i of it is what GetMoveById(i + 1) finds, and
        no other id finds anything. */
    function GetMoves(): (r: seq<Move>)
      ensures forall i :: 0 <= i < |r| ==> GetMoveById(i + 1) == Success(r[i])
      ensures forall id :: GetMoveById(id).Success? ==> 1 <= id <= |r|
    {
      movedex
    }

    /** 1-based lookup: fails with MoveNotFound exactly when id is not in
        1..|movedex|, and otherwise yields the entry at position id - 1. */
    function GetMoveById(id: int): (r: Result<Move>)
      ensures r.Failure? <==> id <= 0 || id > |movedex|
      ensures r.Failure? ==> r.error == MoveNotFound
      ensures r.Success? ==> r.value == movedex[id - 1]
    {
      if id <= 0 || id > |movedex| then Failure(MoveNotFound) else Success(movedex[id - 1])
    }

    /** 1-based lookup: fails with PokemonNotFound exactly when id is not in
        1..|pokedex|, and otherwise yields the entry at position id - 1. */
    function GetPokemonById(id: int): (r: Result<Pokemon>)
      ensures r.Failure? <==> id <= 0 || id > |pokedex|
      ensures r.Failure? ==> r.error == PokemonNotFound
      ensures r.Success? ==> r.value == pokedex[id - 1]
    {
      if id <= 0 || id > |pokedex| then Failure(PokemonNotFound) else Success(pokedex[id - 1])
    }

    /** Rejects a nil trainer; otherwise stores it under the given id and
        returns that id, replacing any entry already stored there. Names are
        not checked: a second trainer with a used name is stored as well. */
    method AddTrainer(trainer: Option<Trainer>, newId: Id) returns (id: Id, err: Option<Error>)
      modifies this`trainers
      ensures trainer.None? ==> id == NoId && err == Some(IllegalTrainer) && trainers == old(trainers)
      ensures trainer.Some? ==> id == newId && err == None
      ensures trainer.Some? ==> trainers == old(trainers)[newId := trainer.value]
      ensures trainer.Some? && newId !in old(trainers) ==> |trainers| == |old(trainers)| + 1
      ensures trainer.Some? && newId !in old(trainers) && HasName(old(trainers), trainer.value.name) ==>
                !NamesDistinct(trainers)
    {
      if trainer.None? {
        return NoId, Some(IllegalTrainer);
      }
      assert newId !in trainers && HasName(trainers, trainer.value.name) ==>
               !NamesDistinct(trainers[newId := trainer.value]) by {
        if newId !in trainers && HasName(trainers, trainer.value.name) {
          InsertUsedNameBreaksDistinct(trainers, newId, trainer.value);
        }
      }
      trainers := trainers[newId := trainer.value];
      return newId, None;
    }

    /** Deletes the entry for id, or fails with TrainerNotFound when there is
        none and changes nothing. */
    method RemoveTrainer(id: Id) returns (err: Option<Error>)
      modifies this`trainers
      ensures id !in old(trainers) ==> err == Some(TrainerNotFound) && trainers == old(trainers)
      ensures id in old(trainers) ==> err == None && trainers == old(trainers) - {id}
      ensures id in old(trainers) ==> trainers.Keys == old(trainers).Keys - {id}
      ensures id in old(trainers) ==> |trainers| == |old(trainers)| - 1
    {
      if id !in trainers {
        return Some(TrainerNotFound);
      }
      RemovePresent(trainers, id);
      trainers := trainers - {id};
      return None;
    }

    /** The trainer stored under id, or TrainerNotFound; the map is not changed. */
    method GetTrainerById(id: Id) returns (t: Option<Trainer>, err: Option<Error>)
      ensures id in trainers ==> t == Some(trainers[id]) && err == None
      ensures id !in trainers ==> t == None && err == Some(TrainerNotFound)
    {
      if id !in trainers {
        return None, Some(TrainerNotFound);
      }
      return Some(trainers[id]), None;
    }

    /** Rejects the empty name with InvalidTrainerName. Otherwise scans the
        map in no particular order and returns some stored trainer with that
        name, failing with TrainerNotFound exactly when there is none. The map
        is not changed. */
    method GetTrainerByName(name: string) returns (t: Option<Trainer>, err: Option<Error>)
      ensures name == "" ==> t == None && err == Some(InvalidTrainerName)
      ensures name != "" && HasName(trainers, name) ==>
                err == None && t.Some? && t.value.name == name && t.value in trainers.Values
      ensures name != "" && !HasName(trainers, name) ==> t == None && err == Some(TrainerNotFound)
    {
      if name == "" {
        return None, Some(InvalidTrainerName);
      }
      var unseen := trainers.Keys;
      while unseen != {}
        invariant unseen <= trainers.Keys
        invariant forall id :: id in trainers && id !in unseen ==> trainers[id].name != name
        decreases unseen
      {
        var id :| id in unseen;
        if trainers[id].name == name {
          return Some(trainers[id]), None;
        }
        unseen := unseen - {id};
      }
      return None, Some(TrainerNotFound);
    }
  }

  /** For a dex numbered by position, looking up an entry's declared id finds
      that entry, and every successful lookup finds the entry declaring it. */
  lemma PokedexRoundTrip(d: MemData, i: int, id: int)
    requires PokedexNumbered(d.pokedex)
    ensures 0 <= i < |d.pokedex| ==> d.GetPokemonById(d.pokedex[i].id) == Success(d.pokedex[i])
    ensures d.GetPokemonById(id).Success? ==> d.GetPokemonById(id).value.id == id
  {
  }

  lemma MovedexRoundTrip(d: MemData, i: int, id: int)
    requires MovedexNumbered(d.movedex)
    ensures 0 <= i < |d.movedex| ==> d.GetMoveById(d.movedex[i].id) == Success(d.movedex[i])
    ensures d.GetMoveById(id).Success? ==> d.GetMoveById(id).value.id == id
  {
  }
}
