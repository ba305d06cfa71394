/** The data crate's keyed store `DataMap<T>`: entities held under their
    `HasId` id. `HasId::id` of the element type is the `id` function the map
    is created with. */
module DataMaps {
  import opened Common

  /** Every key names its own entity: what `add` maintains. */
  ghost predicate KeysAgree<T>(id: T -> string, entities: map<string, T>) {
    forall k :: k in entities ==> id(entities[k]) == k
  }

  class DataMap<T> {
    var entities: map<string, T>
    const id: T -> string

    /** `DataMap::new`: no entity, so every lookup misses. */
    constructor New(id: T -> string)
      ensures this.id == id && entities == map[]
      ensures forall k :: Get(k).None?
      ensures KeysAgree(id, entities)
    {
      this.id := id;
      entities := map[];
    }

    /** `add`: stores the entity under its own id, replacing an entity that
        already had that id and leaving every other id alone. */
    method Add(entity: T)
      modifies this
      ensures entities == old(entities)[id(entity) := entity]
      ensures Get(id(entity)) == Some(entity)
      ensures forall k :: k != id(entity) ==> Get(k) == old(Get(k))
      ensures KeysAgree(id, old(entities)) ==> KeysAgree(id, entities)
    {
      entities := entities[id(entity) := entity];
    }

    function Get(k: string): (r: Option<T>)
      reads this
      ensures r.Some? <==> k in entities
      ensures r.Some? ==> r.value == entities[k]
    {
      if k in entities then Some(entities[k]) else None
    }

    /** `deserialize`: the entities come back under the keys they were
        written with; the ids are not consulted, so the map agrees with `id`
        only if the serialised map already did. */
    constructor Deserialize(id: T -> string, serialized: map<string, T>)
      ensures this.id == id && entities == serialized
      ensures KeysAgree(id, entities) <==> KeysAgree(id, serialized)
    {
      this.id := id;
      entities := serialized;
    }
  }

  /** A serialised entry whose key is not its entity's id survives
      deserialisation: `get` by the key finds it, `get` by its id does not. */
  lemma DeserializeKeepsForeignKey<T>(m: DataMap<T>, key: string, entity: T)
    requires m.entities == map[key := entity] && m.id(entity) != key
    ensures m.Get(key) == Some(entity)
    ensures m.Get(m.id(entity)).None?
    ensures !KeysAgree(m.id, m.entities)
  {
    assert m.entities[key] == entity;
  }
}
