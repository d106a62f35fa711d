/** Facts that span the three services sharing one Redis. */
module Catalog {
  import opened CacheAside
  import Films
  import Genres
  import Persons

  /** No cache key ever mixes entity kinds: film, genre and person keys are pairwise different. */
  lemma EntityKeysDisjoint(a: string, b: string)
    ensures Key(Films.KIND, a) != Key(Genres.KIND, b)
    ensures Key(Films.KIND, a) != Key(Persons.KIND, b)
    ensures Key(Genres.KIND, a) != Key(Persons.KIND, b)
  {
    KindsNeverShareKeys(Films.KIND, Genres.KIND, a, b);
    KindsNeverShareKeys(Films.KIND, Persons.KIND, a, b);
    KindsNeverShareKeys(Genres.KIND, Persons.KIND, a, b);
  }

  /** All three services cache for the same 300 seconds. */
  lemma SameExpiryEverywhere()
    ensures Films.CACHE_TTL == Genres.CACHE_TTL == Persons.CACHE_TTL == 300
  {
  }
}
