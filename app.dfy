/**
 * The page a path opens (src/App.tsx), as far as the two pages' navigation
 * targets need it: the routes as declared, and the routes with the movie
 * page the home page links to.
 */
module App {
  import opened Wrappers
  import opened Numerals
  import opened Movies

  datatype View = LoginView | HomeView | DetailsView(movieId: string) | NoMatch

  /** The routes App.tsx declares: "/" is the login page, "/home" the home page. */
  function DeclaredRoute(path: string): (v: View)
    ensures !v.DetailsView?
    ensures v == NoMatch <==> path != "/" && path != "/home"
  {
    if path == "/" then LoginView
    else if path == "/home" then HomeView
    else NoMatch
  }

  /** A single non-empty path segment, what a `:movieId` parameter matches. */
  predicate IsSegment(s: string) {
    s != [] && forall i :: 0 <= i < |s| ==> s[i] != '/'
  }

  /** The declared routes plus "/movie/:movieId", the movie page. */
  function Route(path: string): (v: View)
    ensures v.DetailsView? ==>
      path == MoviePrefix + v.movieId && IsSegment(v.movieId)
    ensures !v.DetailsView? ==> v == DeclaredRoute(path)
    ensures forall s :: IsSegment(s) && path == MoviePrefix + s ==> v == DetailsView(s)
  {
    if |path| > |MoviePrefix| && path[..|MoviePrefix|] == MoviePrefix
       && IsSegment(path[|MoviePrefix|..])
    then DetailsView(path[|MoviePrefix|..])
    else DeclaredRoute(path)
  }

  /** With the routes as declared, the path a movie click opens matches nothing. */
  lemma MovieClickUnrouted(m: Movie)
    ensures DeclaredRoute(MoviePath(m.id)) == NoMatch
  {
  }

  /** With the movie route, a movie click opens that movie's page. */
  lemma MovieClickOpensDetails(m: Movie)
    ensures Route(MoviePath(m.id)) == DetailsView(Decimal(m.id))
    ensures ParseNat(Route(MoviePath(m.id)).movieId) == Some(m.id)
  {
    var p := MoviePath(m.id);
    assert p[..|MoviePrefix|] == MoviePrefix;
    assert p[|MoviePrefix|..] == Decimal(m.id);
    ParseDecimal(m.id);
  }

  /** The login page's target opens the home page, and logout's target the login page. */
  lemma PageTargetsRouted()
    ensures Route("/home") == HomeView
    ensures Route("/") == LoginView
  {
  }
}
