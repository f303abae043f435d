/** The application's shared records: a catalog movie, the quiz answers and a
    scored recommendation. */
module Movies {
  import opened Collections

  /** A movie as the catalog hands it to the rest of the application. */
  datatype Movie = Movie(
    id: int,
    title: string,
    titlePl: Option<string>,
    titleOriginal: string,
    description: string,
    poster: Option<string>,
    backdrop: Option<string>,
    year: Option<int>,
    rating: real,
    voteCount: int,
    popularity: real,
    runtime: Option<int>,
    isPolish: bool,
    genres: seq<string>,
    countries: seq<string>)

  /** The five answers of the preference quiz. The scalar answers are the
      options' string values (`"old"`, `"modern"`, `"any"`, ...). */
  datatype QuizAnswers = QuizAnswers(
    genres: seq<string>,
    era: string,
    rating: string,
    popularity: string,
    origin: string)

  /** Why a movie was recommended. Each constructor is one of the engine's
      fixed reason strings; `Text` spells them out. */
  datatype Reason =
    | GenreLabel(names: seq<string>)   // single mode: "Gatunek: " and the matched genres
    | GenreList(names: seq<string>)    // batch mode: the matched genres alone
    | PopularTitle                     // "Popularny tytuł"
    | NicheGem                         // "Niszowy klejnot"
    | HighRating(rating: real)         // "Wysoka ocena: <rating>/10"
    | Popular                          // "Popularny"
    | HiddenGem                        // "Ukryta perełka"

  /** The text of a reason; `show` is JavaScript's `String(x)` for the rating. */
  function Text(r: Reason, show: real -> string): string {
    match r
    case GenreLabel(names) => "Gatunek: " + Join(names, ", ")
    case GenreList(names) => Join(names, ", ")
    case PopularTitle => "Popularny tytuł"
    case NicheGem => "Niszowy klejnot"
    case HighRating(rating) => "Wysoka ocena: " + show(rating) + "/10"
    case Popular => "Popularny"
    case HiddenGem => "Ukryta perełka"
  }

  /** A `RecommendationResult`. */
  datatype Scored = Scored(movie: Movie, score: real, reasons: seq<Reason>)

  function Ids(ms: seq<Movie>): (r: seq<int>)
    ensures |r| == |ms| && forall i :: 0 <= i < |ms| ==> r[i] == ms[i].id
  {
    seq(|ms|, i requires 0 <= i < |ms| => ms[i].id)
  }

  /** `movies.some(m => m.id === id)` */
  predicate HasId(ms: seq<Movie>, id: int) {
    exists i :: 0 <= i < |ms| && ms[i].id == id
  }
}
