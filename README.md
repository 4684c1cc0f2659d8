# movie-explorer: the home page's paging controller and the local login gate

This project models, in Dafny, the two pieces of stateful logic in the
movie-explorer web application:

- the **home page** (`src/pages/Home.tsx`): a "load more" list of popular
  movies with the state `movies`, `page`, `loading` and `hasMore`, the fetch
  that appends one page of results, the guarded Load More button, the greeting
  read from the stored session, logout, the movie-card click, and the display
  fallbacks (title over name, release date over first-air date, username over
  "Guest");
- the **login page** (`src/pages/Login.tsx`): a local gate that refuses an
  empty username or password with an error message and otherwise stores
  `{ username }` under the key `'user'` and opens `/home`.

Module layout, one concept per module:

| module | file | what it holds |
|---|---|---|
| `Wrappers` | wrappers.dfy | `Option` |
| `Numerals` | numerals.dfy | decimal rendering of an id and its parser |
| `Movies` | movies.dfy | the `Movie` record, the display fallbacks, the movie path |
| `Browser` | browser.dfy | localStorage (`LocalStorage`, a `map<string, Session>`) and the navigation log (`Router`) |
| `Home` | home.dfy | the `HomePage` class and the greeting |
| `Login` | login.dfy | the `LoginPage` class and its validation |
| `App` | app.dfy | the routes of `src/App.tsx` (see Findings) |
| `SessionFlow` | session_flow.dfy | login followed by the home page, on one store |

The pages are classes whose fields are the React state variables; their
handlers are methods that update those fields in one atomic step. The store
and the router are objects shared by both pages, so that what the login page
writes is what the home page reads. `HomePage` carries three ghost fields that
record its history: the page numbers requested (`Requests`), the result lists
received (`Received`) and the number of finished fetches (`Completed`). Its
invariant `Valid()` ties the real state to that history:

- `Requests` is exactly `[1, 2, ..., page]`, so every page value was fetched
  once, in order;
- `movies` is the concatenation of the received lists, so the list is only
  ever appended to, with no dedup and no reordering;
- `hasMore` holds exactly when no received list was empty;
- `Completed + (loading ? 1 : 0) == |Requests|`, so `loading` is set exactly
  while one fetch is outstanding and never while two are.

`fetchMovies` is split at its `await`: `StartFetch(p)` is the part before the
request and `CompleteFetch(response)` the part after it. The network response
is the parameter: `Some(results)` or `None` when the request threw. The effect
that runs `fetchMovies(page)` whenever `page` changes is folded into the
constructor (mounting fetches page 1) and into `LoadMore` (a new page value
starts its fetch). `StartFetch` therefore requires that no fetch is outstanding
and that `p` is the current page. `CompleteFetch` requires an outstanding fetch.
Those are the only calls the page makes.

Three plain facts about the home page shape the model:
- The home page has no browse/trending/search/favorites modes and no filters.
- `page` is the page last requested, not the next one to request.
- `hasMore` is never set back to true.

## Model

| member | source | states |
|---|---|---|
| `Numerals.Decimal` | src/pages/Home.tsx:30 | the rendering of an id is non-empty, all digits, and starts with '0' only for 0 |
| `Numerals.ParseDecimal` | src/pages/Home.tsx:30 | reading a rendered id back gives the id |
| `Numerals.DecimalInjective` | src/pages/Home.tsx:30 | distinct ids render differently |
| `Movies.OrElse` | src/pages/Home.tsx:92 | JavaScript logical-or on two strings: the first unless it is empty; the result is one of the two and is empty only if both are |
| `Movies.DisplayTitle` | src/pages/Home.tsx:89-92 | the shown title is `title` when non-empty, else `name`; it is non-empty iff one of them is |
| `Movies.DisplayDate` | src/pages/Home.tsx:94 | the shown date is `release_date` when non-empty, else `first_air_date`; non-empty iff one of them is |
| `Movies.MoviePath` | src/pages/Home.tsx:30 | a card click's path is "/movie/" followed by the id's decimal rendering |
| `Movies.MoviePathRoundTrip` | src/pages/Home.tsx:30 | the id can be read back from the path a click builds |
| `Movies.MoviePathInjective` | src/pages/Home.tsx:30 | different movies get different paths |
| `Browser.SaveSession` | src/pages/Login.tsx:25 | storing the session sets the 'user' entry to the username and leaves every other key as it was |
| `Browser.RemoveSession` | src/pages/Home.tsx:25 | removing the session drops the 'user' key only; every other entry is untouched |
| `Browser.RemoveUndoesSave` | src/pages/Home.tsx:25 | logout after login leaves the store as if the login had not written |
| `Browser.StoredAfterSave` | src/pages/Login.tsx:25 | the stored session reads back as the username written |
| `Home.Greeting` | src/pages/Home.tsx:73 | the greeting (from the session read at line 17) is never empty; it is the stored username when there is a non-empty one, and "Guest" when no session is stored or the stored username is empty |
| `Home.GreetingAfterLogout` | src/pages/Home.tsx:24-27 | after logout the greeting is "Guest" |
| `Home.ConcatAppend` | src/pages/Home.tsx:50 | appending one more page of results puts its movies after all earlier ones |
| `Home.NoEmptyPageAppend` | src/pages/Home.tsx:51-53 | "no empty page received" stays true after a new page exactly when that page is non-empty |
| `Home.HomePage.constructor` | src/pages/Home.tsx:18-21 | mounting starts with no movies, page 1, `hasMore` true, and the effect's fetch of page 1 in flight |
| `Home.HomePage.StartFetch` | src/pages/Home.tsx:33-34 | starting a fetch sets `loading` and requests the current page; nothing else changes |
| `Home.HomePage.CompleteFetch` | src/pages/Home.tsx:49-57 | success appends the results after the old list and clears `hasMore` iff they are empty; failure keeps `movies` and `hasMore`; `loading` ends false either way; `page` is unchanged |
| `Home.HomePage.LoadMore` | src/pages/Home.tsx:60-68 | when idle with more pages: `page` grows by exactly 1 and that page's single fetch starts; otherwise the page state is unchanged |
| `Home.HomePage.Logout` | src/pages/Home.tsx:24-27 | the 'user' key alone is removed and the browser is sent to "/" |
| `Home.HomePage.MovieClick` | src/pages/Home.tsx:29-31 | navigates to the movie's path, handing the movie along as route state |
| `Home.BrowseTwoPages` | src/pages/Home.tsx:49-66 | page 1 then Load More then page 2 shows page 1 followed by page 2, with pages 1 and 2 requested once each; more pages remain iff page 2 is non-empty |
| `Home.LoadMoreIgnoredWhileBusyOrExhausted` | src/pages/Home.tsx:64-68 | Load More while loading, or after an empty page, requests nothing and leaves page 1 |
| `Login.LoginError` | src/pages/Login.tsx:19-22 | login is refused iff the username or the password is empty, always with "Username and password are required." |
| `Login.BlankFieldsAccepted` | src/pages/Login.tsx:19 | fields made only of spaces pass validation |
| `Login.LoginPage.constructor` | src/pages/Login.tsx:13-15 | both fields and the error start empty |
| `Login.LoginPage.SetUsername` | src/pages/Login.tsx:39 | typing in the username field changes only the username |
| `Login.LoginPage.SetPassword` | src/pages/Login.tsx:46 | typing in the password field changes only the password |
| `Login.LoginPage.HandleLogin` | src/pages/Login.tsx:18-27 | with a field empty: the error is set and neither the store nor the navigation changes. Otherwise the 'user' entry becomes a session holding only the username, never the password; the page navigates to "/home"; an earlier error message stays |
| `SessionFlow.GreetingAfterLogin` | src/pages/Login.tsx:25 | after a successful login with name n the home greeting is n, not "Guest" |
| `SessionFlow.LoginThenWelcome` | src/pages/Login.tsx:18-27 | logging in through the page then mounting the home page on the same store greets the typed name |
| `SessionFlow.RejectedLoginKeepsGreeting` | src/pages/Login.tsx:19-22 | a refused login leaves the greeting as the store already gave it and shows the required-fields error |
| `SessionFlow.LoginThenLogout` | src/pages/Home.tsx:24-27 | greeting is the name after login and "Guest" after logout |
| `App.DeclaredRoute` | src/App.tsx:13-23 | only "/" (login) and "/home" (home) match; no path opens a movie page |
| `App.Route` | src/pages/MovieDetails.tsx:15 | with a "/movie/:movieId" route added, every path "/movie/" followed by one non-empty segment opens the movie page for that segment, only such paths do, and every other path routes as declared |
| `App.MovieClickUnrouted` | src/App.tsx:13-23 | with the declared routes, the path a movie click opens matches no route |
| `App.MovieClickOpensDetails` | src/pages/MovieDetails.tsx:15 | with the movie route, a click opens the movie page whose `movieId` reads back as the clicked id |
| `App.PageTargetsRouted` | src/App.tsx:14-22 | the login's "/home" opens the home page and logout's "/" the login page |

## Left out

- HTTP: the request to the catalog service (src/pages/Home.tsx:36-48) is not modelled; its outcome is the parameter of `CompleteFetch`. The response's `results` is taken to be a list, so a malformed body is not modelled.
- `console.error` logging on a failed fetch (src/pages/Home.tsx:55): it is output only.
- React scheduling: effects, renders and batched `setState` calls are atomic steps here. Handlers that run on stale state between a render and its effect are not modelled. One example is a second Load More click before `loading` is re-rendered.
- `Home.HomePage.StartFetch`: requires that no fetch is outstanding and that `p` is the current page. These are the only calls the page's effect makes. The source function itself does not check them.
- `Home.HomePage.CompleteFetch`: requires an outstanding fetch, because a response only arrives for a request that was made.
- `vote_average?.toFixed(1)` (src/pages/Home.tsx:97): floating-point formatting. The poster URL (line 88) is only presentation. Neither is in `Movie`.
- JSON: the store holds `Session` records, not JSON text. `JSON.stringify`/`JSON.parse` are not modelled, so neither is a stored value that fails to parse. Other keys of localStorage are modelled as holding sessions too.
- `Home.HomePage.Logout`: records the assignment to `window.location.href` but not the full page reload that follows it.
- Movie ids are natural numbers rendered as plain digits. A negative or fractional id, or one of 10^21 or more, which JavaScript writes in exponent notation, would render differently in JavaScript.
- Route matching is exact string comparison. React Router's case-insensitive matching and trailing-slash tolerance are not modelled.
- The movie details page's fetches (src/pages/MovieDetails.tsx) and src/api/movieService.ts are network calls and are not part of this model.
- The presentational components (MovieCard, MovieGrid, Header, LoadMoreButton, SearchBar, FilterSection) are not part of this model: they only render what they are given and call back.
- The theme toggle (ThemeContext) is not part of this model: it only flips light/dark theming and feeds no state to the two pages.
- Favorites, search, trending and filter-driven refetching do not appear in the pages' code, so they are not modelled.

## Findings

| source | as written | input that shows it | evidently intended | confidence | as-written member | corrected member |
|---|---|---|---|---|---|---|
| src/App.tsx:13-23 | only "/" and "/home" are routed, while a movie click (src/pages/Home.tsx:30) navigates to "/movie/<id>" and the movie page reads a `movieId` route parameter (src/pages/MovieDetails.tsx:15) | any movie, e.g. id 550: the click opens "/movie/550", which matches no route | a "/movie/:movieId" route to the movie page | medium; not executed | `App.MovieClickUnrouted` | `App.MovieClickOpensDetails` |
