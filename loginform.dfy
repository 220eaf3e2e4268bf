/** The login page (`LoginForm`): two fixed demo accounts; a match stores
    the session the way `useAuth.login` does, sets the cookie the route
    guard reads and reloads the app. */
module LoginForm {
  import opened Common
  import opened Browser
  import Auth
  import Middleware

  /** The message shown for a wrong email or password. */
  const InvalidCredentials: string := "Nieprawidłowy email lub hasło"

  /** The cookie a successful login sets: a day long, for the whole site. */
  const SessionCookie: Cookie := Cookie(Auth.MockToken, "/", 86400)

  /** The demo credential table: the role an email and password sign in
      as, if any. */
  function Authenticate(email: string, password: string): (role: Option<string>)
    ensures role == Some("admin") <==> email == "admin@solar.com" && password == "admin123"
    ensures role == Some("user") <==> email == "user@solar.com" && password == "user123"
    ensures role.None? || role == Some("admin") || role == Some("user")
  {
    if email == "admin@solar.com" && password == "admin123" then Some("admin")
    else if email == "user@solar.com" && password == "user123" then Some("user")
    else None
  }

  /** Mixing one account's email with the other's password is refused. */
  lemma MixedPairsRefused()
    ensures Authenticate("admin@solar.com", "user123").None?
    ensures Authenticate("user@solar.com", "admin123").None?
  {
  }

  class Form {
    const window: Window
    var formData: map<string, string>
    var isLoading: bool
    var error: string

    /** Both fields are always present. */
    predicate Valid()
      reads this
    {
      "email" in formData && "password" in formData
    }

    constructor (window: Window)
      ensures this.window == window
      ensures formData == map["email" := "", "password" := ""]
      ensures !isLoading && error == ""
      ensures Valid()
    {
      this.window := window;
      formData := map["email" := "", "password" := ""];
      isLoading := false;
      error := "";
    }

    /** `handleInputChange`: the named field takes the new value, every
        other field keeps its value, and any error is cleared. */
    method HandleInputChange(name: string, value: string)
      requires Valid()
      modifies this
      ensures Valid()
      ensures formData == old(formData)[name := value]
      ensures forall k :: k in old(formData) && k != name ==> formData[k] == old(formData)[k]
      ensures error == "" && isLoading == old(isLoading)
    {
      formData := formData[name := value];
      if error != "" {
        error := "";
      }
    }

    /** `handleSubmit`: a known pair stores the session, sets the cookie
        and navigates home; any other pair shows the error and writes
        nothing. Loading is over at the end either way. */
    method HandleSubmit()
      requires Valid()
      modifies this, window
      ensures Valid() && formData == old(formData) && !isLoading
      ensures var role := Authenticate(old(formData["email"]), old(formData["password"]));
        (role.Some? ==>
          window.localStorage == Auth.LoginStore(old(window.localStorage), old(formData["email"]), role.value) &&
          window.cookies == old(window.cookies)[Auth.TokenKey := SessionCookie] &&
          window.location == "/" && error == "") &&
        (role.None? ==>
          window.localStorage == old(window.localStorage) && window.cookies == old(window.cookies) &&
          window.location == old(window.location) && error == InvalidCredentials)
    {
      isLoading := true;
      error := "";
      var email, password := formData["email"], formData["password"];
      if email == "admin@solar.com" && password == "admin123" {
        window.SetItem(Auth.TokenKey, Auth.MockToken);
        window.SetItem(Auth.EmailKey, email);
        window.SetItem(Auth.RoleKey, "admin");
        window.SetCookie(Auth.TokenKey, SessionCookie);
        window.Navigate("/");
      } else if email == "user@solar.com" && password == "user123" {
        window.SetItem(Auth.TokenKey, Auth.MockToken);
        window.SetItem(Auth.EmailKey, email);
        window.SetItem(Auth.RoleKey, "user");
        window.SetCookie(Auth.TokenKey, SessionCookie);
        window.Navigate("/");
      } else {
        error := InvalidCredentials;
      }
      isLoading := false;
    }
  }

  /** A successful login is remembered: reading the store back gives the
      user with the role the credential table grants, and the route guard
      lets the cookie it set through on any page. */
  lemma LoginSessionHolds(store: map<string, string>, email: string, password: string,
                          origin: string, pathname: string, authorization: Option<string>)
    requires Authenticate(email, password).Some?
    ensures Auth.StoredUser(Auth.LoginStore(store, email, Authenticate(email, password).value)) ==
      Some(Auth.User(email, Authenticate(email, password).value))
    ensures Middleware.Decide(Middleware.Request(origin, pathname, Some(SessionCookie.value), authorization)) ==
      Middleware.Next
  {
    Auth.LoginThenCheck(store, email, Authenticate(email, password).value);
  }
}
