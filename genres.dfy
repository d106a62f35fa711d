/**
 * The genre service: a genre by id through the Redis cache, and the genre list
 * and fuzzy name search as Elasticsearch queries on the "genres" index.
 */
module Genres {
  import opened Wrappers
  import opened Query
  import opened Models
  import opened Stores
  import opened CacheAside

  const KIND := "genre"
  const CACHE_TTL: nat := 60 * 5
  const INDEX := "genres"

  /** The body of the genre list: every genre, ascending by exact name, one page. */
  function ListBody(pageSize: int, pageNumber: int): (b: Body)
    requires ValidPage(pageSize, pageNumber)
    ensures b.query == MatchAll
    ensures b.sort == Some(SortKey("name.keyword", Asc))
    ensures b.from == PageFrom(pageSize, pageNumber) && b.size == pageSize
  {
    Body(MatchAll, Some(SortKey("name.keyword", Asc)), PageFrom(pageSize, pageNumber), pageSize)
  }

  /** The body of the genre search: a fuzzy match of the text on `name`, no sort, one page. */
  function SearchBody(text: string, pageSize: int, pageNumber: int): (b: Body)
    requires ValidPage(pageSize, pageNumber)
    ensures b.query == Match("name", text, "auto")
    ensures b.sort.None?
    ensures b.from == PageFrom(pageSize, pageNumber) && b.size == pageSize
  {
    Body(Match("name", text, "auto"), None, PageFrom(pageSize, pageNumber), pageSize)
  }

  /** The list's fixed sort is the one a `?sort=name.keyword` parameter would give. */
  lemma ListSortIsAscendingName(pageSize: int, pageNumber: int)
    requires ValidPage(pageSize, pageNumber)
    ensures ListBody(pageSize, pageNumber).sort == ParseSort(Some("name.keyword"))
  {
  }

  class GenreService {
    const redis: Redis
    const elastic: Elastic<Genre>
    const codec: Codec<Genre>

    constructor (redis: Redis, elastic: Elastic<Genre>, codec: Codec<Genre>)
      ensures this.redis == redis && this.elastic == elastic && this.codec == codec
    {
      this.redis := redis;
      this.elastic := elastic;
      this.codec := codec;
    }

    /** The genre `genreId`, from Redis if cached under `genre:<id>`, else from the index, then cached for 300 s. */
    method GetById(genreId: string) returns (r: Result<Genre, Error>)
      modifies redis, elastic
      ensures var o := Lookup(KIND, INDEX, CACHE_TTL, codec, old(redis.store), elastic.indices, genreId);
        && r == o.result
        && redis.store == o.cache
        && redis.log == old(redis.log) + o.cacheCalls
        && elastic.log == old(elastic.log) + o.indexCalls
    {
      assert "genre:" + genreId == Key(KIND, genreId);
      var cached := redis.Get("genre:" + genreId);
      if cached.Some? && cached.value != [] {
        r := Decoded(codec, cached.value);
        return;
      }
      var doc := elastic.Get(INDEX, genreId);
      if doc.None? {
        assert "genre not found" == KIND + " not found";
        r := Failure(HttpException(NOT_FOUND, "genre not found"));
        return;
      }
      var genre := doc.value;
      redis.Set("genre:" + genreId, codec.encode(genre), CACHE_TTL);
      r := Success(genre);
    }

    /** One page of genres in name order; Redis is not touched. */
    method List(pageSize: int, pageNumber: int) returns (genres: seq<Genre>)
      requires ValidPage(pageSize, pageNumber)
      modifies elastic
      ensures var body := ListBody(pageSize, pageNumber);
        && elastic.log == old(elastic.log) + [SearchDocs(INDEX, body)]
        && genres == elastic.ranking(INDEX, body)
      ensures unchanged(redis)
    {
      var hits := elastic.Search(INDEX, ListBody(pageSize, pageNumber));
      genres := seq(|hits|, i requires 0 <= i < |hits| => hits[i]);
    }

    /** One page of genres whose name fuzzily matches `query`; Redis is not touched. */
    method Search(query: string, pageSize: int, pageNumber: int) returns (genres: seq<Genre>)
      requires ValidPage(pageSize, pageNumber)
      modifies elastic
      ensures var body := SearchBody(query, pageSize, pageNumber);
        && elastic.log == old(elastic.log) + [SearchDocs(INDEX, body)]
        && genres == elastic.ranking(INDEX, body)
      ensures unchanged(redis)
    {
      var hits := elastic.Search(INDEX, SearchBody(query, pageSize, pageNumber));
      genres := seq(|hits|, i requires 0 <= i < |hits| => hits[i]);
    }
  }
}
