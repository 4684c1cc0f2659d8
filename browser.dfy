/**
 * The browser facilities both pages share: the origin's local key-value
 * store (localStorage) and the navigation history the router drives.
 */
module Browser {
  import opened Wrappers
  import opened Movies

  /** What the login page stores under the session key: `{ username }`. */
  datatype Session = Session(username: string)

  type Store = map<string, Session>

  /** The key the session is kept under (localStorage 'user'). */
  const UserKey: string := "user"

  /** `localStorage.setItem('user', { username })`: only the session key changes. */
  function SaveSession(store: Store, username: string): (r: Store)
    ensures UserKey in r && r[UserKey] == Session(username)
    ensures r.Keys == store.Keys + {UserKey}
    ensures forall k :: k in store && k != UserKey ==> r[k] == store[k]
  {
    store[UserKey := Session(username)]
  }

  /** `localStorage.removeItem('user')`: only the session key goes. */
  function RemoveSession(store: Store): (r: Store)
    ensures UserKey !in r
    ensures r.Keys == store.Keys - {UserKey}
    ensures forall k :: k in r ==> r[k] == store[k]
  {
    store - {UserKey}
  }

  /** The username stored in the session, if a session is stored. */
  function StoredUsername(store: Store): Option<string> {
    if UserKey in store then Some(store[UserKey].username) else None
  }

  /** Saving then removing a session leaves the store as removing alone would. */
  lemma RemoveUndoesSave(store: Store, username: string)
    ensures RemoveSession(SaveSession(store, username)) == RemoveSession(store)
  {
  }

  /** A saved session reads back as the username it was saved with. */
  lemma StoredAfterSave(store: Store, username: string)
    ensures StoredUsername(SaveSession(store, username)) == Some(username)
  {
  }

  /** The origin's localStorage, one object shared by every page. */
  class LocalStorage {
    var entries: Store

    constructor (initial: Store)
      ensures entries == initial
    {
      entries := initial;
    }
  }

  /**
   * A navigation request: a client-side `navigate(path, { state })` or a
   * full-page `window.location.href = href` assignment.
   */
  datatype Navigation =
    | Navigate(path: string, movie: Option<Movie>)
    | Assign(href: string)

  /** The navigation requests made so far, oldest first. */
  class Router {
    var log: seq<Navigation>

    constructor ()
      ensures log == []
    {
      log := [];
    }
  }
}
