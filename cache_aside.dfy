/**
 * The read-through lookup that each service's `get_by_id` performs: read
 * `<kind>:<id>` from Redis; a non-empty value is decoded and returned; otherwise
 * the document is fetched from the entity's index, a missing document is a
 * 404, and a found one is written back to Redis with an expiry and returned.
 */
module CacheAside {
  import opened Wrappers
  import opened Stores

  /** A record type's JSON codec (`model_dump_json` / `model_validate_json`), left uninterpreted. */
  datatype Codec<!R> = Codec(encode: R -> Bytes, decode: Bytes -> Option<R>)

  datatype Error =
    | HttpException(status: nat, detail: string)  // raised for a document the index does not hold
    | ValidationError                             // a cached value that does not decode

  const NOT_FOUND := 404

  /** What one lookup returns, what it leaves in Redis, and the calls it makes on each store. */
  datatype Outcome<R> = Outcome(
    result: Result<R, Error>,
    cache: map<string, Entry>,
    cacheCalls: seq<CacheCall>,
    indexCalls: seq<IndexCall>)

  /** `f"<kind>:{id}"`: the kind, one ':' and the id. */
  function Key(kind: string, id: string): (k: string)
    ensures |k| == |kind| + 1 + |id|
    ensures k[..|kind|] == kind && k[|kind|] == ':' && k[|kind| + 1..] == id
  {
    kind + ":" + id
  }

  /** Python truthiness of the value `GET` returns: an absent key and an empty value both miss. */
  predicate Hit(cache: map<string, Entry>, key: string)
    ensures key !in cache ==> !Hit(cache, key)
    ensures key in cache && cache[key].value == [] ==> !Hit(cache, key)
    ensures key in cache && cache[key].value != [] ==> Hit(cache, key)
  {
    key in cache && cache[key].value != []
  }

  /** `model_validate_json(value)`: the decoded record, or the ValidationError it raises. */
  function Decoded<R>(codec: Codec<R>, value: Bytes): (r: Result<R, Error>)
    ensures r.Success? <==> codec.decode(value).Some?
    ensures r.Success? ==> codec.decode(value) == Some(r.value)
    ensures r.Failure? ==> r.error == ValidationError
  {
    match codec.decode(value)
    case Some(r) => Success(r)
    case None => Failure(ValidationError)
  }

  function Lookup<R>(kind: string, index: string, ttl: nat, codec: Codec<R>,
                     cache: map<string, Entry>, indices: map<string, map<string, R>>,
                     id: string): (o: Outcome<R>)
    // The key read first is always `<kind>:<id>`.
    ensures |o.cacheCalls| >= 1 && o.cacheCalls[0] == CacheGet(kind + ":" + id)
    // The index is read, once, exactly when the cache missed.
    ensures o.indexCalls == if Hit(cache, Key(kind, id)) then [] else [GetDoc(index, id)]
    // A hit is answered from the cached bytes alone; a value that does not decode is an error, not a miss.
    ensures Hit(cache, Key(kind, id)) ==>
      o.result == Decoded(codec, cache[Key(kind, id)].value) && o.cache == cache && |o.cacheCalls| == 1
    // A miss on a document the index lacks is a 404 and writes nothing.
    ensures !Hit(cache, Key(kind, id)) && !Indexed(indices, index, id) ==>
      o.result == Failure(HttpException(NOT_FOUND, kind + " not found")) && o.cache == cache && |o.cacheCalls| == 1
    // A miss on an indexed document returns it and stores its encoding under the key with the given expiry.
    ensures !Hit(cache, Key(kind, id)) && Indexed(indices, index, id) ==>
      var doc := indices[index][id];
      && o.result == Success(doc)
      && o.cache == cache[Key(kind, id) := Entry(codec.encode(doc), ttl)]
      && o.cacheCalls == [CacheGet(Key(kind, id)), CacheSet(Key(kind, id), codec.encode(doc), ttl)]
    // No other key changes.
    ensures forall k :: k != Key(kind, id) ==>
      (k in o.cache <==> k in cache) && (k in cache ==> o.cache[k] == cache[k])
  {
    var key := Key(kind, id);
    if Hit(cache, key) then
      Outcome(Decoded(codec, cache[key].value), cache, [CacheGet(key)], [])
    else if !Indexed(indices, index, id) then
      Outcome(Failure(HttpException(NOT_FOUND, kind + " not found")), cache, [CacheGet(key)], [GetDoc(index, id)])
    else
      var doc := indices[index][id];
      var value := codec.encode(doc);
      Outcome(Success(doc), cache[key := Entry(value, ttl)], [CacheGet(key), CacheSet(key, value, ttl)], [GetDoc(index, id)])
  }

  /** Within one kind, different ids never share a key. */
  lemma {:induction false} KeyInjective(kind: string, a: string, b: string)
    requires Key(kind, a) == Key(kind, b)
    ensures a == b
  {
    assert a == Key(kind, a)[|kind| + 1..];
    assert b == Key(kind, b)[|kind| + 1..];
  }

  /** Two different kinds without ':' in their names never share a key, whatever the ids. */
  lemma {:induction false} KindsNeverShareKeys(kind1: string, kind2: string, a: string, b: string)
    requires kind1 != kind2 && ':' !in kind1 && ':' !in kind2
    ensures Key(kind1, a) != Key(kind2, b)
  {
    var k1, k2 := Key(kind1, a), Key(kind2, b);
    if |kind1| < |kind2| {
      assert k1[|kind1|] == ':' != kind2[|kind1|] == k2[|kind1|];
    } else if |kind2| < |kind1| {
      assert k2[|kind2|] == ':' != kind1[|kind2|] == k1[|kind2|];
    } else {
      var i :| 0 <= i < |kind1| && kind1[i] != kind2[i];
      assert k1[i] == kind1[i] != kind2[i] == k2[i];
    }
  }

  /** A lookup of one kind leaves every key of another kind as it was. */
  lemma {:induction false} LookupIsolatesKinds<R>(kind: string, index: string, ttl: nat, codec: Codec<R>,
                                                  cache: map<string, Entry>, indices: map<string, map<string, R>>,
                                                  id: string, other: string, otherId: string)
    requires kind != other && ':' !in kind && ':' !in other
    ensures var o := Lookup(kind, index, ttl, codec, cache, indices, id);
      var k := Key(other, otherId);
      (k in o.cache <==> k in cache) && (k in cache ==> o.cache[k] == cache[k])
  {
    KindsNeverShareKeys(other, kind, otherId, id);
  }

  /**
   * Once a miss has been resolved from the index, the next lookup of the same id
   * (before the entry expires) is a hit: it reads only Redis, leaves it unchanged
   * and answers with the decoding of exactly the bytes that were written.
   */
  lemma SecondLookupHits<R>(kind: string, index: string, ttl: nat, codec: Codec<R>,
                            cache: map<string, Entry>, indices: map<string, map<string, R>>, id: string)
    requires !Hit(cache, Key(kind, id)) && Indexed(indices, index, id)
    requires codec.encode(indices[index][id]) != []
    ensures var first := Lookup(kind, index, ttl, codec, cache, indices, id);
      var second := Lookup(kind, index, ttl, codec, first.cache, indices, id);
      && first.indexCalls == [GetDoc(index, id)]
      && second.indexCalls == []
      && second.cacheCalls == [CacheGet(Key(kind, id))]
      && second.cache == first.cache
      && second.result == Decoded(codec, codec.encode(indices[index][id]))
  {
  }

  /**
   * When the codec cannot read back what it writes (the dump names the id `uuid`,
   * validation asks for `id`), the lookup after a resolved miss is a hit on the
   * freshly written bytes, and so a ValidationError rather than the record.
   */
  lemma UnreadableEncodingFailsNextLookup<R>(kind: string, index: string, ttl: nat, codec: Codec<R>,
                                             cache: map<string, Entry>, indices: map<string, map<string, R>>,
                                             id: string)
    requires !Hit(cache, Key(kind, id)) && Indexed(indices, index, id)
    requires codec.encode(indices[index][id]) != []
    requires codec.decode(codec.encode(indices[index][id])).None?
    ensures var first := Lookup(kind, index, ttl, codec, cache, indices, id);
      var second := Lookup(kind, index, ttl, codec, first.cache, indices, id);
      && first.result == Success(indices[index][id])
      && second.result == Failure(ValidationError)
      && second.indexCalls == []
  {
    SecondLookupHits(kind, index, ttl, codec, cache, indices, id);
  }

  /** A 404 is not cached: the next lookup of the same id goes to the index again. */
  lemma NoNegativeCaching<R>(kind: string, index: string, ttl: nat, codec: Codec<R>,
                             cache: map<string, Entry>, indices: map<string, map<string, R>>, id: string)
    requires Lookup(kind, index, ttl, codec, cache, indices, id).result.Failure?
    requires Lookup(kind, index, ttl, codec, cache, indices, id).result.error.HttpException?
    ensures var first := Lookup(kind, index, ttl, codec, cache, indices, id);
      var second := Lookup(kind, index, ttl, codec, first.cache, indices, id);
      && first.cache == cache
      && second.indexCalls == [GetDoc(index, id)]
      && second.result == first.result
  {
  }

  /** Redis is written only when the index returned the document, and only under the looked-up key. */
  lemma CacheWrittenOnlyWhenIndexed<R>(kind: string, index: string, ttl: nat, codec: Codec<R>,
                                          cache: map<string, Entry>, indices: map<string, map<string, R>>, id: string)
    ensures var o := Lookup(kind, index, ttl, codec, cache, indices, id);
      forall c :: c in o.cacheCalls && c.CacheSet? ==>
        && c.key == Key(kind, id)
        && o.indexCalls == [GetDoc(index, id)]
        && Indexed(indices, index, id)
        && o.result == Success(indices[index][id])
  {
  }
}
