# Movies API catalogue services — a Dafny model

The movies API serves three catalogue entities (films, genres and persons). An Elasticsearch
index holds each entity, and Redis caches the full record of each one. Each entity has a
service class with three operations:

- `get_by_id` is a cache-aside lookup. It reads the key `<kind>:<id>` from Redis. If the cached
  value is non-empty, the service decodes it and returns it. Otherwise it fetches the document
  from the entity's index (`movies`, `genres` or `persons`). A missing document raises HTTP 404
  ("<kind> not found"). A found document is written back to Redis with `ex=300` and then
  returned.
- `list` and `search` build an Elasticsearch request body and send it to the entity's index.
  Each hit becomes a record. They never read or write Redis.
  - The body holds a query (`match_all`, `bool.must` of `term`s, a weighted `multi_match`, or a
    fuzzy `match`). It has an optional single sort key, and `from`/`size` pagination with
    `from = (page_number - 1) * page_size`.

How the model is laid out:

- `query.dfy` holds the request bodies, pagination and the parsing of the film list's `sort`
  parameter. In that parameter a leading `-` means descending, and every leading `-` is
  stripped from the field name.
- `models.dfy` holds the records.
- `stores.dfy` holds the two clients as classes. Each client keeps a log of the calls made on
  it.
- `cache_aside.dfy` holds the lookup as a specification function, `Lookup`, and the lemmas
  about it. Examples: a resolved miss makes the next lookup a hit, a 404 is not cached, and
  lookups of one kind never touch another kind's keys.
- `films.dfy`, `genres.dfy` and `persons.dfy` hold one service class each. The methods of each
  class are proved against `Lookup` and the body builders.
- `catalog.dfy` holds the facts that span the three services.

Four behaviours of the code that a reader might not expect:

- A cached value that does not decode is an error (`ValidationError`). It is not treated as a
  miss.
- A `sort` of `"-"` (or only dashes) is not rejected. It sorts descending on the empty field
  name.
- A cached value may never read back. The dump writes the id under `uuid`
  (src/models/film.py:6), while validation reads the alias `id`. Read this way, every hit on a
  value this code wrote is a `ValidationError` (`UnreadableEncodingFailsNextLookup`). This
  follows from the source text; nothing was executed.
- There is no best-effort handling of a failed cache write. The code has none: a raised
  exception fails the lookup.

## Model

| member | source | states |
|---|---|---|
| `Query.ValidPage` | src/api/v1/films.py:22-23 | the routes' bounds: a page size above 100, a page size below 1 or a page number below 1 is never passed on |
| `Query.PageFrom` | src/services/film.py:62 | page 1 starts at 0, and page `n` ends where `n * page_size` begins |
| `Query.PageOfOffset` | src/services/film.py:62-63 | offset `i` lies in the window of page `p` if and only if `p == i / page_size + 1` |
| `Query.ConsecutivePagesAdjoin` | src/services/film.py:62-63 | page `p + 1` starts exactly where page `p` ends |
| `Query.StripLeadingDashes` | src/services/film.py:67 | `lstrip('-')`: the result is a suffix of the input, everything dropped is `-`, and the result does not start with `-` |
| `Query.ParseSort` | src/services/film.py:65-67 | no sort key for an absent or empty parameter; otherwise the order is descending if and only if the parameter starts with `-`, and the field is the longest suffix that does not start with `-` |
| `Query.ParseSortParam` | src/services/film.py:65-67 | parsing `-f` or `f` gives back the key `(f, desc)` or `(f, asc)` for any non-empty field `f` that does not start with `-` |
| `Query.DashesOnlySort` | src/services/film.py:65-67 | a parameter made only of dashes is accepted and sorts descending on field `""` |
| `Query.SortParamCanonical` | src/services/film.py:65-67 | the key parsed from a parameter writes back to that same parameter if and only if the parameter does not start with two dashes |
| `Stores.Redis.constructor` | src/services/film.py:27-28 | a Redis client over the given contents, with no calls made yet |
| `Stores.Redis.Get` | src/services/film.py:33 | returns the stored value or nothing, logs one `GET`, and changes no data |
| `Stores.Redis.Set` | src/services/film.py:43 | overwrites the key with the value and expiry, and logs one `SET` |
| `Stores.Elastic.constructor` | src/services/film.py:27-29 | an Elasticsearch client over the given indices and ranking, with no calls made yet |
| `Stores.Elastic.Get` | src/services/film.py:37-40 | returns the document, or nothing where the client raises NotFoundError, and logs one get |
| `Stores.Elastic.Search` | src/services/film.py:69 | returns the ranking's hits for the body and logs one search |
| `CacheAside.Key` | src/services/film.py:32 | the key is the kind, one `:` and then the id |
| `CacheAside.Hit` | src/services/film.py:34 | an absent key and an empty value are both misses; any non-empty value is a hit |
| `CacheAside.Decoded` | src/services/film.py:35 | the decoded record when the cached bytes validate, otherwise a `ValidationError` |
| `CacheAside.Lookup` | src/services/film.py:31-44 | reads `<kind>:<id>` first. A non-empty value is decoded with no index call and no write, and a value that does not decode is an error. On a miss the index is read exactly once. An absent document gives 404 "<kind> not found" and no write. A found document is returned and cached under the key with the given TTL. No other key changes |
| `CacheAside.KeyInjective` | src/services/film.py:32 | within one kind, equal keys mean equal ids |
| `CacheAside.KindsNeverShareKeys` | src/services/film.py:32 | keys of two different kinds (names without `:`) never coincide |
| `CacheAside.LookupIsolatesKinds` | src/services/film.py:32-43 | a lookup of one kind leaves every key of another kind as it was |
| `CacheAside.SecondLookupHits` | src/services/film.py:33-44 | after a miss resolved from the index, the next lookup reads only Redis, writes nothing, and answers with the decoding of the bytes written |
| `CacheAside.UnreadableEncodingFailsNextLookup` | src/services/film.py:33-43 | if the codec cannot decode what it encodes, the lookup after a resolved miss fails with `ValidationError` and does not read the index |
| `CacheAside.NoNegativeCaching` | src/services/film.py:37-40 | a 404 leaves the cache as it was, so the next lookup reads the index again and gives the same 404 |
| `CacheAside.CacheWrittenOnlyWhenIndexed` | src/services/film.py:37-43 | every cache write is to the looked-up key, and happens only when the index returned the document that the lookup then returns |
| `Models.Short` | src/services/film.py:70 | the short card keeps the film's id, title and rating |
| `Films.ListBody` | src/services/film.py:55-67 | `match_all` if and only if there is no genre or an empty one. Otherwise `bool.must` holds exactly the one term `genres = genre`. The sort is `ParseSort(sort)`. The paging is `PageFrom` and `size = page_size` |
| `Films.SearchBody` | src/services/film.py:75-90 | a `multi_match` of the text over exactly `title^3`, `description`, `actors.full_name`, `writers.full_name` and `directors.full_name`, in that order. No sort key, and the same paging |
| `Films.SearchFieldsDistinct` | src/services/film.py:79-85 | each path searched by the built body appears once |
| `Films.TitleOutweighsOtherFields` | src/services/film.py:79-85 | the title's weight is strictly greater than that of every other searched field |
| `Films.ListExamples` | src/services/film.py:55-67 | `sort=-imdb_rating` on page 2 of 10 gives from 10, size 10, descending `imdb_rating` and `match_all`. `genre=Action` on page 1 of 50 gives from 0, size 50, one `genres` term and no sort |
| `Films.FilmService.constructor` | src/services/film.py:27-29 | the service keeps the Redis and Elasticsearch clients it is given |
| `Films.FilmService.GetById` | src/services/film.py:31-44 | its result, the new Redis contents and the calls on each store are those of `Lookup("film", "movies", 300, …)` |
| `Films.FilmService.List` | src/services/film.py:46-70 | sends `ListBody(…)` to `movies` once, returns the short card of each hit in order, and leaves Redis unchanged |
| `Films.FilmService.Search` | src/services/film.py:72-92 | sends `SearchBody(…)` to `movies` once, returns the short card of each hit in order, and leaves Redis unchanged |
| `Genres.ListBody` | src/services/genre.py:37-42 | `match_all`, sorted ascending on `name.keyword`, with paging from `PageFrom` and `size = page_size` |
| `Genres.SearchBody` | src/services/genre.py:47-50 | a `match` on `name` with fuzziness `auto`, no sort key, and the same paging |
| `Genres.ListSortIsAscendingName` | src/services/genre.py:39 | the fixed sort is the one that a `sort=name.keyword` parameter parses to |
| `Genres.GenreService.constructor` | src/services/genre.py:18-20 | the service keeps the clients it is given |
| `Genres.GenreService.GetById` | src/services/genre.py:22-34 | the same as `Lookup("genre", "genres", 300, …)`; the key read and the key written are both `genre:<id>` |
| `Genres.GenreService.List` | src/services/genre.py:36-44 | sends `ListBody(…)` to `genres` once, returns the hits in order, and leaves Redis unchanged |
| `Genres.GenreService.Search` | src/services/genre.py:46-53 | sends `SearchBody(…)` to `genres` once, returns the hits in order, and leaves Redis unchanged |
| `Persons.ListBody` | src/services/person.py:37-42 | `match_all`, sorted ascending on `full_name.keyword`, with paging from `PageFrom` and `size = page_size` |
| `Persons.SearchBody` | src/services/person.py:47-50 | a `match` on `full_name` with fuzziness `auto`, no sort key, and the same paging |
| `Persons.ListSortIsAscendingName` | src/services/person.py:39 | the fixed sort is the one that a `sort=full_name.keyword` parameter parses to |
| `Persons.PersonService.constructor` | src/services/person.py:18-20 | the service keeps the clients it is given |
| `Persons.PersonService.GetById` | src/services/person.py:22-34 | the same as `Lookup("person", "persons", 300, …)`; the key read and the key written are both `person:<id>` |
| `Persons.PersonService.List` | src/services/person.py:36-44 | sends `ListBody(…)` to `persons` once, returns the hits in order, and leaves Redis unchanged |
| `Persons.PersonService.Search` | src/services/person.py:46-53 | sends `SearchBody(…)` to `persons` once, returns the hits in order, and leaves Redis unchanged |
| `Catalog.EntityKeysDisjoint` | src/services/genre.py:23 | film, genre and person cache keys are pairwise different, whatever the ids |
| `Catalog.SameExpiryEverywhere` | src/services/film.py:13 | all three services use a 300-second cache expiry |

## Left out

- JSON encoding and decoding (`model_dump_json`, `model_validate_json`) are an uninterpreted
  `Codec` given to each service. No round trip is assumed, because the dump writes the field
  `uuid` while validation reads the alias `id`. So `SecondLookupHits` speaks of the decoding of
  the written bytes, not of the record itself.
- Validation of index documents into records (`Film(**doc["_source"])` and the others) is
  assumed to succeed. The model's indices hold records that are already typed.
- Elasticsearch's ranking, fuzziness and boost arithmetic are not modelled. `Elastic.ranking`
  is an uninterpreted function from (index, body) to hits. The model records only the query
  shape, the fields and their weights.
- Redis expiry is not modelled. The model records only the `ex` value passed with each `SET`.
- I/O failures are not modelled: connection errors, timeouts and a failed `SET`. In the code
  they propagate as exceptions.
- Concurrency is not modelled. Each call runs to completion and the calls are sequential.
- The docs-only mode is not modelled. In it, `get_redis` / `get_elastic` raise `RuntimeError`
  (src/db/redis.py:7-10, src/db/elastic.py:5-7). The model's services are always built with
  both clients.
- The `lru_cache` service factories (`get_film_service` and the others) are dependency
  injection only.
- The HTTP routes, configuration, logging and application start-up are left out.
  - The routes' bounds on `page_size` (1..100) and `page_number` (>= 1) are the `ValidPage`
    precondition.
- `imdb_rating` is a float. The model treats it as an opaque `Rating`.
