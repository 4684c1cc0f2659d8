/**
 * The two pages together: the session the login page writes is the one the
 * home page greets, and logging out on the home page ends it.
 */
module SessionFlow {
  import opened Browser
  import opened Login
  import opened Home

  /** After a login with name `n` succeeds, the home page greets `n`, not a guest. */
  lemma GreetingAfterLogin(store: Store, n: string)
    requires n != ""
    ensures Greeting(SaveSession(store, n)) == n
  {
    StoredAfterSave(store, n);
  }

  /**
   * Log in through the login page, then mount the home page on the same
   * store: it greets the name that was typed.
   */
  method LoginThenWelcome(initial: Store, name: string, secret: string)
    returns (greeting: string)
    requires name != "" && secret != ""
    ensures greeting == name
  {
    var storage := new LocalStorage(initial);
    var router := new Router();
    var login := new LoginPage(storage, router);
    login.SetUsername(name);
    login.SetPassword(secret);
    login.HandleLogin();
    var home := new HomePage(storage, router);
    greeting := Greeting(home.storage.entries);
    GreetingAfterLogin(initial, name);
  }

  /**
   * A login with a field left empty writes nothing: the home page greets
   * whoever the store already held.
   */
  method RejectedLoginKeepsGreeting(initial: Store, name: string, secret: string)
    returns (greeting: string, error: string)
    requires name == "" || secret == ""
    ensures greeting == Greeting(initial)
    ensures error == RequiredMessage
  {
    var storage := new LocalStorage(initial);
    var router := new Router();
    var login := new LoginPage(storage, router);
    login.SetUsername(name);
    login.SetPassword(secret);
    login.HandleLogin();
    error := login.error;
    greeting := Greeting(storage.entries);
  }

  /** Logging in and then out on the home page leaves a guest greeting. */
  method LoginThenLogout(initial: Store, name: string, secret: string)
    returns (before: string, after: string)
    requires name != "" && secret != ""
    ensures before == name && after == "Guest"
  {
    var storage := new LocalStorage(initial);
    var router := new Router();
    var login := new LoginPage(storage, router);
    login.SetUsername(name);
    login.SetPassword(secret);
    login.HandleLogin();
    var home := new HomePage(storage, router);
    GreetingAfterLogin(initial, name);
    before := Greeting(storage.entries);
    home.Logout();
    after := Greeting(storage.entries);
    GreetingAfterLogout(SaveSession(initial, name));
  }
}
