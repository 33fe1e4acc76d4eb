/**
 * The key-indexed store behind both controllers (Spring Data's repository for one entity type),
 * modelled as a map from identifier to record. The repository knows how to read an entity's
 * identifier, as the `@Id` annotation tells the real one.
 */
module Persistence {
  import opened Domain

  /** One call made on a repository; the log of these is what the tests count with `verify`. */
  datatype Call<V> =
    | FindAllCall
    | FindByIdCall(id: Long)
    | SaveCall(entity: V)
    | DeleteByIdCall(id: Long)

  /** Every record is stored under its own identifier. */
  ghost predicate Keyed<V>(store: map<Long, V>, key: V -> Long) {
    forall k :: k in store ==> key(store[k]) == k
  }

  /** In a keyed store no two identifiers hold the same record, so listing the records loses none. */
  lemma {:induction false} KeyedValuesCount<V>(store: map<Long, V>, key: V -> Long)
    requires Keyed(store, key)
    ensures |store.Values| == |store|
    decreases |store|
  {
    if store != map[] {
      var k :| k in store;
      var rest := store - {k};
      assert Keyed(rest, key);
      KeyedValuesCount(rest, key);
      assert store[k] !in rest.Values;
      assert store.Values == rest.Values + {store[k]} by {
        forall v | v in store.Values ensures v in rest.Values + {store[k]} {
          var j :| j in store && store[j] == v;
          if j != k { assert rest[j] == v; }
        }
      }
      assert store.Keys == rest.Keys + {k};
    }
  }

  class Repository<V(==)> {
    var store: map<Long, V>
    ghost var calls: seq<Call<V>>
    const key: V -> Long

    ghost predicate Valid()
      reads this
    {
      Keyed(store, key)
    }

    constructor (key: V -> Long)
      ensures Valid() && this.key == key
      ensures store == map[] && calls == []
    {
      this.key := key;
      store := map[];
      calls := [];
    }

    /** `findAll`: every stored record, one per identifier. */
    method FindAll() returns (r: set<V>)
      requires Valid()
      modifies this`calls
      ensures r == store.Values && |r| == |store|
      ensures calls == old(calls) + [FindAllCall]
    {
      KeyedValuesCount(store, key);
      r := store.Values;
      calls := calls + [FindAllCall];
    }

    /** `findById`: the record under `id`, if any. */
    method FindById(id: Long) returns (r: Option<V>)
      requires Valid()
      modifies this`calls
      ensures r.Some? <==> id in store
      ensures r.Some? ==> r.value == store[id] && key(r.value) == id
      ensures calls == old(calls) + [FindByIdCall(id)]
    {
      r := Get(store, id);
      calls := calls + [FindByIdCall(id)];
    }

    /** `save`: writes `v` under its own identifier, replacing what was there, and returns it. */
    method Save(v: V) returns (r: V)
      requires Valid()
      modifies this`store, this`calls
      ensures Valid()
      ensures store == old(store)[key(v) := v]
      ensures r == v
      ensures calls == old(calls) + [SaveCall(v)]
    {
      store := store[key(v) := v];
      calls := calls + [SaveCall(v)];
      r := v;
    }

    /** `deleteById`: removes `id`; an absent `id` is not an error. */
    method DeleteById(id: Long)
      requires Valid()
      modifies this`store, this`calls
      ensures Valid()
      ensures store == old(store) - {id}
      ensures id !in store && forall k :: k in old(store) && k != id ==> k in store && store[k] == old(store)[k]
      ensures calls == old(calls) + [DeleteByIdCall(id)]
    {
      store := store - {id};
      calls := calls + [DeleteByIdCall(id)];
    }
  }
}
