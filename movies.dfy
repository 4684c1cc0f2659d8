/**
 * The catalog records the home page lists, and the display rules it applies
 * to them (src/pages/Home.tsx).
 */
module Movies {
  import opened Wrappers
  import opened Numerals

  /**
   * A catalog entry as the home page reads it. A text field the catalog leaves
   * out (or sends as null) is "": the page only ever tests these fields for
   * JavaScript truthiness, under which a missing field and "" behave alike.
   */
  datatype Movie = Movie(
    id: nat,
    title: string,
    name: string,
    releaseDate: string,
    firstAirDate: string)

  /**
   * JavaScript's `primary || fallback` on strings: the primary value unless it
   * is the empty string (the only falsy string).
   */
  function OrElse(primary: string, fallback: string): (r: string)
    ensures primary != "" ==> r == primary
    ensures r == primary || r == fallback
    ensures r == "" ==> primary == "" && fallback == ""
  {
    if primary != "" then primary else fallback
  }

  /** The card heading and image alt text: `movie.title || movie.name`. */
  function DisplayTitle(m: Movie): (r: string)
    ensures m.title != "" ==> r == m.title
    ensures m.title == "" ==> r == m.name
    ensures r != "" <==> m.title != "" || m.name != ""
  {
    OrElse(m.title, m.name)
  }

  /** The card date line: `movie.release_date || movie.first_air_date`. */
  function DisplayDate(m: Movie): (r: string)
    ensures m.releaseDate != "" ==> r == m.releaseDate
    ensures m.releaseDate == "" ==> r == m.firstAirDate
    ensures r != "" <==> m.releaseDate != "" || m.firstAirDate != ""
  {
    OrElse(m.releaseDate, m.firstAirDate)
  }

  const MoviePrefix: string := "/movie/"

  /** The path a click on a card navigates to: `/movie/${movie.id}`. */
  function MoviePath(id: nat): (p: string)
    ensures |p| > |MoviePrefix| && p[..|MoviePrefix|] == MoviePrefix
    ensures p[|MoviePrefix|..] == Decimal(id)
  {
    MoviePrefix + Decimal(id)
  }

  /** The id a movie path carries, if it is one. */
  function MovieIdOf(p: string): Option<nat> {
    if |p| > |MoviePrefix| && p[..|MoviePrefix|] == MoviePrefix
    then ParseNat(p[|MoviePrefix|..])
    else None
  }

  /** The path built for a movie names that movie and no other. */
  lemma MoviePathRoundTrip(id: nat)
    ensures MovieIdOf(MoviePath(id)) == Some(id)
  {
    ParseDecimal(id);
  }

  lemma MoviePathInjective(a: Movie, b: Movie)
    ensures MoviePath(a.id) == MoviePath(b.id) ==> a.id == b.id
  {
    MoviePathRoundTrip(a.id);
    MoviePathRoundTrip(b.id);
  }
}
