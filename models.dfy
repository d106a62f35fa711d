/** The records the services return, as the pydantic models declare them. */
module Models {
  import opened Wrappers

  /** `imdb_rating` is a float in the source; the model never looks inside it. */
  type Rating(==)

  /** One element of a film's genre list: a `{"uuid": ..., "name": ...}` dict. */
  datatype Ref = Ref(uuid: string, name: string)

  /** One element of a film's actor, writer or director list: a dict whose name is under `full_name`. */
  datatype PersonRef = PersonRef(uuid: string, fullName: string)

  /** The short film card of the film list and search results. */
  datatype ShortFilm = ShortFilm(uuid: string, title: string, imdbRating: Option<Rating>)

  /** The full film card. `description` is required but may be null; the lists default to empty. */
  datatype Film = Film(
    uuid: string,
    title: string,
    imdbRating: Option<Rating>,
    description: Option<string>,
    genre: seq<Ref>,
    actors: seq<PersonRef>,
    writers: seq<PersonRef>,
    directors: seq<PersonRef>)

  /** `ShortFilm(**source)` of a film document: the card keeps the id, title and rating. */
  function Short(film: Film): (card: ShortFilm)
    ensures card.uuid == film.uuid && card.title == film.title && card.imdbRating == film.imdbRating
  {
    ShortFilm(film.uuid, film.title, film.imdbRating)
  }

  datatype Genre = Genre(uuid: string, name: string)

  datatype PersonFilm = PersonFilm(uuid: string, roles: seq<string>)

  datatype Person = Person(uuid: string, fullName: string, films: seq<PersonFilm>)
}
