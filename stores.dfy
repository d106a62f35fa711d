/**
 * The two backends the services are given: a Redis client (key to bytes, with
 * an expiry per key) and an Elasticsearch client (index name to id to
 * document, plus full-text search). Each client records the calls made on it,
 * so that a service's contract can say exactly which store it read or wrote.
 */
module Stores {
  import opened Wrappers
  import opened Query

  type Bytes = seq<bv8>

  /** What `SET key value EX ttl` leaves in Redis: the value and the expiry it was given, in seconds. */
  datatype Entry = Entry(value: Bytes, ttl: nat)

  datatype CacheCall = CacheGet(key: string) | CacheSet(key: string, value: Bytes, ex: nat)

  datatype IndexCall = GetDoc(index: string, id: string) | SearchDocs(index: string, body: Body)

  /** The document `id` of index `index` exists. */
  predicate Indexed<D>(indices: map<string, map<string, D>>, index: string, id: string) {
    index in indices && id in indices[index]
  }

  class Redis {
    var store: map<string, Entry>
    var log: seq<CacheCall>

    constructor (store: map<string, Entry>)
      ensures this.store == store && log == []
    {
      this.store := store;
      log := [];
    }

    /** `GET key`: the stored value, or nothing for an absent key. */
    method Get(key: string) returns (value: Option<Bytes>)
      modifies this`log
      ensures value == if key in store then Some(store[key].value) else None
      ensures log == old(log) + [CacheGet(key)]
    {
      value := if key in store then Some(store[key].value) else None;
      log := log + [CacheGet(key)];
    }

    /** `SET key value EX ex`: overwrites the key, whatever it held. */
    method Set(key: string, value: Bytes, ex: nat)
      modifies this
      ensures store == old(store)[key := Entry(value, ex)]
      ensures log == old(log) + [CacheSet(key, value, ex)]
    {
      store := store[key := Entry(value, ex)];
      log := log + [CacheSet(key, value, ex)];
    }
  }

  /**
   * The index contents are read-only here. How a search body ranks and selects
   * documents is Elasticsearch's business: `ranking` stands for it.
   */
  class Elastic<D> {
    const indices: map<string, map<string, D>>
    const ranking: (string, Body) -> seq<D>
    var log: seq<IndexCall>

    constructor (indices: map<string, map<string, D>>, ranking: (string, Body) -> seq<D>)
      ensures this.indices == indices && this.ranking == ranking && log == []
    {
      this.indices := indices;
      this.ranking := ranking;
      log := [];
    }

    /** `get(index=, id=)`: the document, or nothing where the client raises NotFoundError. */
    method Get(index: string, id: string) returns (doc: Option<D>)
      modifies this
      ensures doc == if Indexed(indices, index, id) then Some(indices[index][id]) else None
      ensures log == old(log) + [GetDoc(index, id)]
    {
      doc := if Indexed(indices, index, id) then Some(indices[index][id]) else None;
      log := log + [GetDoc(index, id)];
    }

    /** `search(index=, body=)`: the hits, in Elasticsearch's order. */
    method Search(index: string, body: Body) returns (hits: seq<D>)
      modifies this
      ensures hits == ranking(index, body)
      ensures log == old(log) + [SearchDocs(index, body)]
    {
      hits := ranking(index, body);
      log := log + [SearchDocs(index, body)];
    }
  }
}
