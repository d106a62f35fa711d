/**
 * The film service: the full film card by id through the Redis cache, and the
 * film list and full-text search as Elasticsearch queries on the "movies" index.
 */
module Films {
  import opened Wrappers
  import opened Query
  import opened Models
  import opened Stores
  import opened CacheAside

  const KIND := "film"
  const CACHE_TTL: nat := 60 * 5
  const INDEX := "movies"

  /** The keyword field the genre filter matches exactly. */
  const GENRE_FIELD := "genres"

  /** The multi_match fields of the search, the title boosted three times. */
  const SEARCH_FIELDS := [
    Weighted("title", 3),
    Weighted("description", 1),
    Weighted("actors.full_name", 1),
    Weighted("writers.full_name", 1),
    Weighted("directors.full_name", 1)
  ]

  /** The body of the film list: optional exact genre filter, optional sort, one page. */
  function ListBody(sort: Option<string>, genre: Option<string>, pageSize: int, pageNumber: int): (b: Body)
    requires ValidPage(pageSize, pageNumber)
    ensures b.query == MatchAll <==> (genre.None? || genre.value == [])
    ensures b.query != MatchAll ==> b.query == BoolMust([Term(GENRE_FIELD, genre.value)])
    ensures b.sort == ParseSort(sort)
    ensures b.from == PageFrom(pageSize, pageNumber) && b.size == pageSize
  {
    var must := if genre.Some? && genre.value != [] then [Term(GENRE_FIELD, genre.value)] else [];
    var query := if must != [] then BoolMust(must) else MatchAll;
    Body(query, ParseSort(sort), PageFrom(pageSize, pageNumber), pageSize)
  }

  /** The body of the film search: weighted multi_match over the text, no sort, one page. */
  function SearchBody(text: string, pageSize: int, pageNumber: int): (b: Body)
    requires ValidPage(pageSize, pageNumber)
    ensures b.query.MultiMatch? && b.query.text == text
    ensures b.query.fields == [
      Weighted("title", 3),
      Weighted("description", 1),
      Weighted("actors.full_name", 1),
      Weighted("writers.full_name", 1),
      Weighted("directors.full_name", 1)
    ]
    ensures b.sort.None?
    ensures b.from == PageFrom(pageSize, pageNumber) && b.size == pageSize
  {
    Body(MultiMatch(text, SEARCH_FIELDS), None, PageFrom(pageSize, pageNumber), pageSize)
  }

  /** The searched paths are the title, the description and the three people lists, each once. */
  lemma SearchFieldsDistinct(text: string, pageSize: int, pageNumber: int)
    requires ValidPage(pageSize, pageNumber)
    ensures var fields := SearchBody(text, pageSize, pageNumber).query.fields;
      forall i, j :: 0 <= i < j < |fields| ==> fields[i].path != fields[j].path
  {
  }

  /** The title outweighs every other searched field. */
  lemma TitleOutweighsOtherFields(text: string, pageSize: int, pageNumber: int)
    requires ValidPage(pageSize, pageNumber)
    ensures var fields := SearchBody(text, pageSize, pageNumber).query.fields;
      forall i :: 0 <= i < |fields| && fields[i].path != "title" ==> fields[i].boost < fields[0].boost
  {
  }

  /** Two worked list bodies: a descending rating sort on page 2, and a genre filter on page 1. */
  lemma ListExamples()
    ensures ListBody(Some("-imdb_rating"), None, 10, 2) == Body(MatchAll, Some(SortKey("imdb_rating", Desc)), 10, 10)
    ensures ListBody(None, Some("Action"), 50, 1) == Body(BoolMust([Term("genres", "Action")]), None, 0, 50)
  {
  }

  class FilmService {
    const redis: Redis
    const elastic: Elastic<Film>
    const codec: Codec<Film>

    constructor (redis: Redis, elastic: Elastic<Film>, codec: Codec<Film>)
      ensures this.redis == redis && this.elastic == elastic && this.codec == codec
    {
      this.redis := redis;
      this.elastic := elastic;
      this.codec := codec;
    }

    /** The film `filmId`, from Redis if cached under `film:<id>`, else from the index, then cached for 300 s. */
    method GetById(filmId: string) returns (r: Result<Film, Error>)
      modifies redis, elastic
      ensures var o := Lookup(KIND, INDEX, CACHE_TTL, codec, old(redis.store), elastic.indices, filmId);
        && r == o.result
        && redis.store == o.cache
        && redis.log == old(redis.log) + o.cacheCalls
        && elastic.log == old(elastic.log) + o.indexCalls
    {
      var key := "film:" + filmId;
      assert key == Key(KIND, filmId);
      var cached := redis.Get(key);
      if cached.Some? && cached.value != [] {
        r := Decoded(codec, cached.value);
        return;
      }
      var doc := elastic.Get(INDEX, filmId);
      if doc.None? {
        assert "film not found" == KIND + " not found";
        r := Failure(HttpException(NOT_FOUND, "film not found"));
        return;
      }
      var film := doc.value;
      redis.Set(key, codec.encode(film), CACHE_TTL);
      r := Success(film);
    }

    /** One page of short film cards for the list body; Redis is not touched. */
    method List(sort: Option<string>, genre: Option<string>, pageSize: int, pageNumber: int)
      returns (films: seq<ShortFilm>)
      requires ValidPage(pageSize, pageNumber)
      modifies elastic
      ensures var body := ListBody(sort, genre, pageSize, pageNumber);
        var hits := elastic.ranking(INDEX, body);
        && elastic.log == old(elastic.log) + [SearchDocs(INDEX, body)]
        && |films| == |hits|
        && forall i :: 0 <= i < |hits| ==> films[i] == Short(hits[i])
      ensures unchanged(redis)
    {
      var must := [];
      if genre.Some? && genre.value != [] {
        must := must + [Term(GENRE_FIELD, genre.value)];
      }
      var body := Body(if must != [] then BoolMust(must) else MatchAll, None,
                       PageFrom(pageSize, pageNumber), pageSize);
      if sort.Some? && sort.value != [] {
        var order := if sort.value[0] == '-' then Desc else Asc;
        body := body.(sort := Some(SortKey(StripLeadingDashes(sort.value), order)));
      }
      assert body == ListBody(sort, genre, pageSize, pageNumber);
      var hits := elastic.Search(INDEX, body);
      films := seq(|hits|, i requires 0 <= i < |hits| => Short(hits[i]));
    }

    /** One page of short film cards matching `query`, in Elasticsearch's relevance order; Redis is not touched. */
    method Search(query: string, pageSize: int, pageNumber: int) returns (films: seq<ShortFilm>)
      requires ValidPage(pageSize, pageNumber)
      modifies elastic
      ensures var body := SearchBody(query, pageSize, pageNumber);
        var hits := elastic.ranking(INDEX, body);
        && elastic.log == old(elastic.log) + [SearchDocs(INDEX, body)]
        && |films| == |hits|
        && forall i :: 0 <= i < |hits| ==> films[i] == Short(hits[i])
      ensures unchanged(redis)
    {
      var hits := elastic.Search(INDEX, SearchBody(query, pageSize, pageNumber));
      films := seq(|hits|, i requires 0 <= i < |hits| => Short(hits[i]));
    }
  }
}
