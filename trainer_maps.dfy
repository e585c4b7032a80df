/** Vocabulary for the map from identifiers to trainers that both stores keep,
    and facts about how inserting and deleting one entry affects it. */
module TrainerMaps {
  import opened Pbg

  /** Some stored trainer is called `name`. */
  ghost predicate HasName(m: map<Id, Trainer>, name: string)
  {
    exists id :: id in m && m[id].name == name
  }

  /** No two stored trainers share a name (the actor store's invariant). */
  ghost predicate NamesDistinct(m: map<Id, Trainer>)
  {
    forall a, b :: a in m && b in m && m[a].name == m[b].name ==> a == b
  }

  /** Inserting a trainer whose name is not yet taken keeps names distinct,
      whether or not the id was already a key; under a fresh id it grows the
      map by exactly one entry. */
  lemma InsertUnusedName(m: map<Id, Trainer>, id: Id, t: Trainer)
    requires NamesDistinct(m) && !HasName(m, t.name)
    ensures NamesDistinct(m[id := t])
    ensures id !in m ==> |m[id := t]| == |m| + 1
  {
  }

  /** Inserting a trainer whose name is already taken, under a fresh id, always
      breaks name distinctness, whatever the rest of the map holds. */
  lemma InsertUsedNameBreaksDistinct(m: map<Id, Trainer>, id: Id, t: Trainer)
    requires id !in m && HasName(m, t.name)
    ensures !NamesDistinct(m[id := t])
  {
    var other :| other in m && m[other].name == t.name;
    assert other != id && m[id := t][other].name == m[id := t][id].name;
  }

  /** Deleting a present entry keeps names distinct, shrinks the map by one,
      and (when names were distinct) leaves no trainer with the deleted name. */
  lemma RemovePresent(m: map<Id, Trainer>, id: Id)
    requires id in m
    ensures (m - {id}).Keys == m.Keys - {id}
    ensures |m - {id}| == |m| - 1
    ensures NamesDistinct(m) ==> NamesDistinct(m - {id})
    ensures NamesDistinct(m) ==> !HasName(m - {id}, m[id].name)
  {
  }
}
