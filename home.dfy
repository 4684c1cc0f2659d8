/**
 * The home page (src/pages/Home.tsx): the paginated "load more" list of
 * popular movies, the greeting, logout and the movie-card click.
 *
 * The network request of `fetchMovies` is not modelled: a fetch is split into
 * StartFetch (everything before the `await`) and CompleteFetch (everything
 * after it), and the response reaches CompleteFetch as `Some(results)` or as
 * `None` when the request threw.
 */
module Home {
  import opened Wrappers
  import opened Movies
  import opened Browser

  /** The greeting name: `user.username || 'Guest'`, the session read from the store. */
  function Greeting(store: Store): (r: string)
    ensures r != ""
    ensures StoredUsername(store) == None ==> r == "Guest"
    ensures StoredUsername(store) == Some("") ==> r == "Guest"
    ensures forall n :: StoredUsername(store) == Some(n) && n != "" ==> r == n
  {
    var name := match StoredUsername(store) case Some(n) => n case None => "";
    OrElse(name, "Guest")
  }

  /** After logout the page greets a guest, whoever was logged in. */
  lemma GreetingAfterLogout(store: Store)
    ensures Greeting(RemoveSession(store)) == "Guest"
  {
  }

  /** The results of several pages, one after the other. */
  function Concat(pages: seq<seq<Movie>>): seq<Movie>
    decreases |pages|
  {
    if pages == [] then [] else pages[0] + Concat(pages[1..])
  }

  /** Appending one more page of results appends its movies after the others. */
  lemma {:induction false} ConcatAppend(pages: seq<seq<Movie>>, batch: seq<Movie>)
    ensures Concat(pages + [batch]) == Concat(pages) + batch
    decreases |pages|
  {
    if pages != [] {
      assert (pages + [batch])[1..] == pages[1..] + [batch];
      ConcatAppend(pages[1..], batch);
    }
  }

  /** Every page received so far held at least one movie. */
  ghost predicate NoEmptyPage(pages: seq<seq<Movie>>) {
    forall i :: 0 <= i < |pages| ==> pages[i] != []
  }

  /** An empty page is what ends "no empty page so far", and only that. */
  lemma NoEmptyPageAppend(pages: seq<seq<Movie>>, batch: seq<Movie>)
    ensures NoEmptyPage(pages + [batch]) <==> NoEmptyPage(pages) && batch != []
  {
    var all := pages + [batch];
    assert all[|pages|] == batch;
    assert forall i :: 0 <= i < |pages| ==> all[i] == pages[i];
  }

  class HomePage {
    var movies: seq<Movie>
    var page: nat
    var loading: bool
    var hasMore: bool
    const storage: LocalStorage
    const router: Router

    /** The page numbers fetchMovies was called with, in order. */
    ghost var Requests: seq<nat>
    /** The result lists of the fetches that succeeded, in order. */
    ghost var Received: seq<seq<Movie>>
    /** How many fetches have finished, successfully or not. */
    ghost var Completed: nat

    /** The state invariant apart from which pages were requested. */
    ghost predicate Settled()
      reads this
    {
      && page >= 1
      && movies == Concat(Received)
      && (hasMore <==> NoEmptyPage(Received))
      && |Received| <= Completed
      && Completed + (if loading then 1 else 0) == |Requests|
    }

    /** Exactly the pages 1, 2, ..., n have been requested, each once, in order. */
    ghost predicate RequestedThrough(n: nat)
      reads this
    {
      |Requests| == n && forall i :: 0 <= i < n ==> Requests[i] == i + 1
    }

    ghost predicate Valid()
      reads this
    {
      Settled() && RequestedThrough(page)
    }

    /** Mounting the page: the initial state, then the effect fetches page 1. */
    constructor (storage: LocalStorage, router: Router)
      ensures Valid()
      ensures movies == [] && page == 1 && loading && hasMore
      ensures Requests == [1] && Completed == 0
      ensures this.storage == storage && this.router == router
    {
      movies := [];
      page := 1;
      loading := false;
      hasMore := true;
      this.storage := storage;
      this.router := router;
      Requests := [];
      Received := [];
      Completed := 0;
      new;
      StartFetch(page);
    }

    /**
     * The part of `fetchMovies(p)` before the request: set `loading` and issue
     * the request. Only the effect on `page` calls it, with the current page,
     * once per new page value and never while another fetch is outstanding.
     */
    method StartFetch(p: nat)
      requires Settled() && !loading
      requires p == page && RequestedThrough(page - 1)
      modifies this
      ensures Valid() && loading
      ensures Requests == old(Requests) + [p]
      ensures movies == old(movies) && page == old(page) && hasMore == old(hasMore)
      ensures Received == old(Received) && Completed == old(Completed)
    {
      loading := true;
      Requests := Requests + [p];
    }

    /**
     * The part of `fetchMovies` after the request: on success append the
     * results and clear `hasMore` if there were none; on failure keep the list
     * and `hasMore`; either way clear `loading`.
     */
    method CompleteFetch(response: Option<seq<Movie>>)
      requires Valid() && loading
      modifies this
      ensures Valid() && !loading
      ensures page == old(page) && Requests == old(Requests)
      ensures Completed == old(Completed) + 1
      ensures response.None? ==>
        movies == old(movies) && hasMore == old(hasMore) && Received == old(Received)
      ensures response.Some? ==>
        && movies == old(movies) + response.value
        && hasMore == (old(hasMore) && response.value != [])
        && Received == old(Received) + [response.value]
    {
      match response {
        case Some(newMovies) =>
          ConcatAppend(Received, newMovies);
          movies := movies + newMovies;
          if |newMovies| == 0 {
            hasMore := false;
          }
          NoEmptyPageAppend(Received, newMovies);
          Received := Received + [newMovies];
        case None =>
      }
      loading := false;
      Completed := Completed + 1;
    }

    /**
     * The Load More button (`handleLoadMore`) together with the effect that a
     * new page value triggers: when idle and more pages remain, move to the
     * next page and start fetching it; otherwise do nothing.
     */
    method LoadMore()
      requires Valid()
      modifies this
      ensures Valid()
      ensures old(!loading && hasMore) ==>
        && page == old(page) + 1
        && loading
        && Requests == old(Requests) + [page]
        && movies == old(movies) && hasMore == old(hasMore)
        && Received == old(Received) && Completed == old(Completed)
      ensures !old(!loading && hasMore) ==> unchanged(this)
    {
      if !loading && hasMore {
        page := page + 1;
        StartFetch(page);
      }
    }

    /** `handleLogout`: drop the session and reload at the login page. */
    method Logout()
      requires Valid()
      modifies storage, router
      ensures Valid()
      ensures storage.entries == RemoveSession(old(storage.entries))
      ensures router.log == old(router.log) + [Assign("/")]
    {
      storage.entries := RemoveSession(storage.entries);
      router.log := router.log + [Assign("/")];
    }

    /** `handleMovieClick`: open the movie's page, handing it the movie. */
    method MovieClick(m: Movie)
      modifies router
      ensures router.log == old(router.log) + [Navigate(MoviePath(m.id), Some(m))]
    {
      router.log := router.log + [Navigate(MoviePath(m.id), Some(m))];
    }
  }

  /**
   * Mount, receive page 1, press Load More, receive page 2: the list is page 1
   * followed by page 2, and each page was requested exactly once.
   */
  method BrowseTwoPages(storage: LocalStorage, router: Router, first: seq<Movie>, second: seq<Movie>)
    returns (shown: seq<Movie>, ghost requested: seq<nat>, more: bool)
    requires first != []
    ensures shown == first + second
    ensures requested == [1, 2]
    ensures more <==> second != []
  {
    var home := new HomePage(storage, router);
    home.CompleteFetch(Some(first));
    home.LoadMore();
    home.CompleteFetch(Some(second));
    shown, more := home.movies, home.hasMore;
    requested := home.Requests;
  }

  /**
   * Load More pressed while page 1 is still loading, and again after an empty
   * page 1, requests nothing: the page stays 1 and the list empty.
   */
  method LoadMoreIgnoredWhileBusyOrExhausted(storage: LocalStorage, router: Router)
    returns (page: nat, ghost requested: seq<nat>, shown: seq<Movie>)
    ensures page == 1 && requested == [1] && shown == []
  {
    var home := new HomePage(storage, router);
    home.LoadMore();
    home.CompleteFetch(Some([]));
    home.LoadMore();
    page, shown := home.page, home.movies;
    requested := home.Requests;
  }
}
