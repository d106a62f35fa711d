/**
 * The person service: a person by id through the Redis cache, and the person list
 * and fuzzy name search as Elasticsearch queries on the "persons" index.
 */
module Persons {
  import opened Wrappers
  import opened Query
  import opened Models
  import opened Stores
  import opened CacheAside

  const KIND := "person"
  const CACHE_TTL: nat := 60 * 5
  const INDEX := "persons"

  /** The body of the person list: every person, ascending by exact full name, one page. */
  function ListBody(pageSize: int, pageNumber: int): (b: Body)
    requires ValidPage(pageSize, pageNumber)
    ensures b.query == MatchAll
    ensures b.sort == Some(SortKey("full_name.keyword", Asc))
    ensures b.from == PageFrom(pageSize, pageNumber) && b.size == pageSize
  {
    Body(MatchAll, Some(SortKey("full_name.keyword", Asc)), PageFrom(pageSize, pageNumber), pageSize)
  }

  /** The body of the person search: a fuzzy match of the text on `full_name`, no sort, one page. */
  function SearchBody(text: string, pageSize: int, pageNumber: int): (b: Body)
    requires ValidPage(pageSize, pageNumber)
    ensures b.query == Match("full_name", text, "auto")
    ensures b.sort.None?
    ensures b.from == PageFrom(pageSize, pageNumber) && b.size == pageSize
  {
    Body(Match("full_name", text, "auto"), None, PageFrom(pageSize, pageNumber), pageSize)
  }

  /** The list's fixed sort is the one a `?sort=full_name.keyword` parameter would give. */
  lemma ListSortIsAscendingName(pageSize: int, pageNumber: int)
    requires ValidPage(pageSize, pageNumber)
    ensures ListBody(pageSize, pageNumber).sort == ParseSort(Some("full_name.keyword"))
  {
  }

  class PersonService {
    const redis: Redis
    const elastic: Elastic<Person>
    const codec: Codec<Person>

    constructor (redis: Redis, elastic: Elastic<Person>, codec: Codec<Person>)
      ensures this.redis == redis && this.elastic == elastic && this.codec == codec
    {
      this.redis := redis;
      this.elastic := elastic;
      this.codec := codec;
    }

    /** The person `personId`, from Redis if cached under `person:<id>`, else from the index, then cached for 300 s. */
    method GetById(personId: string) returns (r: Result<Person, Error>)
      modifies redis, elastic
      ensures var o := Lookup(KIND, INDEX, CACHE_TTL, codec, old(redis.store), elastic.indices, personId);
        && r == o.result
        && redis.store == o.cache
        && redis.log == old(redis.log) + o.cacheCalls
        && elastic.log == old(elastic.log) + o.indexCalls
    {
      assert "person:" + personId == Key(KIND, personId);
      var cached := redis.Get("person:" + personId);
      if cached.Some? && cached.value != [] {
        r := Decoded(codec, cached.value);
        return;
      }
      var doc := elastic.Get(INDEX, personId);
      if doc.None? {
        assert "person not found" == KIND + " not found";
        r := Failure(HttpException(NOT_FOUND, "person not found"));
        return;
      }
      var person := doc.value;
      redis.Set("person:" + personId, codec.encode(person), CACHE_TTL);
      r := Success(person);
    }

    /** One page of persons in full-name order; Redis is not touched. */
    method List(pageSize: int, pageNumber: int) returns (persons: seq<Person>)
      requires ValidPage(pageSize, pageNumber)
      modifies elastic
      ensures var body := ListBody(pageSize, pageNumber);
        && elastic.log == old(elastic.log) + [SearchDocs(INDEX, body)]
        && persons == elastic.ranking(INDEX, body)
      ensures unchanged(redis)
    {
      var hits := elastic.Search(INDEX, ListBody(pageSize, pageNumber));
      persons := seq(|hits|, i requires 0 <= i < |hits| => hits[i]);
    }

    /** One page of persons whose full name fuzzily matches `query`; Redis is not touched. */
    method Search(query: string, pageSize: int, pageNumber: int) returns (persons: seq<Person>)
      requires ValidPage(pageSize, pageNumber)
      modifies elastic
      ensures var body := SearchBody(query, pageSize, pageNumber);
        && elastic.log == old(elastic.log) + [SearchDocs(INDEX, body)]
        && persons == elastic.ranking(INDEX, body)
      ensures unchanged(redis)
    {
      var hits := elastic.Search(INDEX, SearchBody(query, pageSize, pageNumber));
      persons := seq(|hits|, i requires 0 <= i < |hits| => hits[i]);
    }
  }
}
