/**
 * The login page (src/pages/Login.tsx): a local gate that only checks that
 * both fields were filled in, then records the session and opens the home page.
 */
module Login {
  import opened Wrappers
  import opened Browser

  const RequiredMessage: string := "Username and password are required."

  /**
   * The validation of `handleLogin`: `!username || !password`. Only the empty
   * string is falsy, so a field of blanks passes.
   */
  function LoginError(username: string, password: string): (r: Option<string>)
    ensures r.None? <==> |username| > 0 && |password| > 0
    ensures r.Some? ==> r.value == RequiredMessage
  {
    if username == "" || password == "" then Some(RequiredMessage) else None
  }

  /** A username or password made only of white space is accepted. */
  lemma BlankFieldsAccepted(username: string, password: string)
    requires |username| > 0 && |password| > 0
    requires forall i :: 0 <= i < |username| ==> username[i] == ' '
    requires forall i :: 0 <= i < |password| ==> password[i] == ' '
    ensures LoginError(username, password) == None
  {
  }

  class LoginPage {
    var username: string
    var password: string
    var error: string
    const storage: LocalStorage
    const router: Router

    constructor (storage: LocalStorage, router: Router)
      ensures username == "" && password == "" && error == ""
      ensures this.storage == storage && this.router == router
    {
      username, password, error := "", "", "";
      this.storage := storage;
      this.router := router;
    }

    /** The username field's change handler. */
    method SetUsername(value: string)
      modifies this
      ensures username == value && password == old(password) && error == old(error)
    {
      username := value;
    }

    /** The password field's change handler. */
    method SetPassword(value: string)
      modifies this
      ensures password == value && username == old(username) && error == old(error)
    {
      password := value;
    }

    /**
     * `handleLogin`: with a field empty, show the error and do nothing else;
     * otherwise store the session, which holds the username and nothing else,
     * and open the home page, leaving any earlier error message in place.
     */
    method HandleLogin()
      modifies this, storage, router
      ensures username == old(username) && password == old(password)
      ensures LoginError(username, password).Some? ==>
        && error == RequiredMessage
        && storage.entries == old(storage.entries)
        && router.log == old(router.log)
      ensures LoginError(username, password).None? ==>
        && error == old(error)
        && storage.entries == SaveSession(old(storage.entries), username)
        && router.log == old(router.log) + [Navigate("/home", None)]
    {
      if username == "" || password == "" {
        error := RequiredMessage;
        return;
      }
      storage.entries := SaveSession(storage.entries, username);
      router.log := router.log + [Navigate("/home", None)];
    }
  }
}
