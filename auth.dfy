/** The session hook (`useAuth`): a signed-in user is remembered in three
    `localStorage` keys, read back on start-up, written on login and
    removed on logout. */
module Auth {
  import opened Common
  import opened Browser

  datatype User = User(email: string, role: string)

  const TokenKey: string := "authToken"
  const EmailKey: string := "userEmail"
  const RoleKey: string := "userRole"

  /** The token every login stores. */
  const MockToken: string := "mock-jwt-token"

  /** The user a store describes: only when all three keys are present and
      non-empty. */
  function StoredUser(store: map<string, string>): (u: Option<User>)
    ensures u.Some? <==>
      TokenKey in store && store[TokenKey] != "" &&
      EmailKey in store && store[EmailKey] != "" &&
      RoleKey in store && store[RoleKey] != ""
    ensures u.Some? ==> u.value == User(store[EmailKey], store[RoleKey])
  {
    if TokenKey in store && store[TokenKey] != "" &&
       EmailKey in store && store[EmailKey] != "" &&
       RoleKey in store && store[RoleKey] != ""
    then Some(User(store[EmailKey], store[RoleKey]))
    else None
  }

  /** The store after `login(email, role)`. */
  function LoginStore(store: map<string, string>, email: string, role: string): map<string, string> {
    store[TokenKey := MockToken][EmailKey := email][RoleKey := role]
  }

  /** The store after `logout()`. */
  function LogoutStore(store: map<string, string>): map<string, string> {
    store - {TokenKey, EmailKey, RoleKey}
  }

  /** Reading the store back after a login gives the user who logged in,
      exactly when the email and the role are non-empty. */
  lemma LoginThenCheck(store: map<string, string>, email: string, role: string)
    ensures StoredUser(LoginStore(store, email, role)).Some? <==> email != "" && role != ""
    ensures email != "" && role != "" ==> StoredUser(LoginStore(store, email, role)) == Some(User(email, role))
  {
    var s := LoginStore(store, email, role);
    assert s[TokenKey] == MockToken && s[EmailKey] == email && s[RoleKey] == role;
  }

  /** After a logout the store describes no user, and every other key is
      kept as it was. */
  lemma LogoutThenCheck(store: map<string, string>)
    ensures StoredUser(LogoutStore(store)) == None
    ensures forall k :: k !in {TokenKey, EmailKey, RoleKey} ==>
      (k in LogoutStore(store) <==> k in store) &&
      (k in store ==> LogoutStore(store)[k] == store[k])
  {
  }

  /** Login touches only the three session keys. */
  lemma LoginKeepsOtherKeys(store: map<string, string>, email: string, role: string)
    ensures forall k :: k in store && k !in {TokenKey, EmailKey, RoleKey} ==>
      k in LoginStore(store, email, role) && LoginStore(store, email, role)[k] == store[k]
    ensures LoginStore(store, email, role).Keys == store.Keys + {TokenKey, EmailKey, RoleKey}
  {
  }

  /** The state `useAuth` keeps in one component. */
  class AuthHook {
    const window: Window
    /** `typeof window !== 'undefined'`: false while rendering on the server. */
    const isClient: bool
    var user: Option<User>
    var isLoading: bool

    constructor (window: Window, isClient: bool)
      ensures this.window == window && this.isClient == isClient
      ensures user == None && isLoading
    {
      this.window := window;
      this.isClient := isClient;
      user := None;
      isLoading := true;
    }

    /** `checkAuth`: adopt the stored user when the store describes one,
        leave `user` as it was otherwise; loading is over either way. */
    method CheckAuth()
      modifies this
      ensures isClient && StoredUser(window.localStorage).Some? ==> user == StoredUser(window.localStorage)
      ensures !(isClient && StoredUser(window.localStorage).Some?) ==> user == old(user)
      ensures !isLoading
    {
      if isClient {
        var token := window.GetItem(TokenKey);
        var email := window.GetItem(EmailKey);
        var role := window.GetItem(RoleKey);
        if Truthy(token) && Truthy(email) && Truthy(role) {
          user := Some(User(email.value, role.value));
        }
      }
      isLoading := false;
    }

    /** `login(email, role)`. */
    method Login(email: string, role: string)
      modifies this, window
      ensures isClient ==> window.localStorage == LoginStore(old(window.localStorage), email, role)
      ensures isClient ==> user == Some(User(email, role))
      ensures !isClient ==> window.localStorage == old(window.localStorage) && user == old(user)
      ensures window.cookies == old(window.cookies) && window.location == old(window.location)
      ensures isLoading == old(isLoading)
    {
      if isClient {
        window.SetItem(TokenKey, MockToken);
        window.SetItem(EmailKey, email);
        window.SetItem(RoleKey, role);
        user := Some(User(email, role));
      }
    }

    /** `logout()`: clears the session keys and the cookie, forgets the
        user and goes to the login page. */
    method Logout()
      modifies this, window
      ensures isClient ==> window.localStorage == LogoutStore(old(window.localStorage))
      ensures isClient ==> window.cookies == old(window.cookies) - {TokenKey}
      ensures isClient ==> user == None && window.location == "/login"
      ensures !isClient ==>
        (window.localStorage == old(window.localStorage) && window.cookies == old(window.cookies) &&
         window.location == old(window.location) && user == old(user))
      ensures isLoading == old(isLoading)
    {
      if isClient {
        window.RemoveItem(TokenKey);
        window.RemoveItem(EmailKey);
        window.RemoveItem(RoleKey);
        assert window.localStorage == LogoutStore(old(window.localStorage));
        window.ExpireCookie(TokenKey);
        user := None;
        window.Navigate("/login");
      }
    }

    /** `isAuthenticated`: there is a user. */
    function IsAuthenticated(): (r: bool)
      reads this
      ensures r <==> user.Some?
    {
      user.Some?
    }

    /** `isAdmin`: the user's role is `admin`. */
    function IsAdmin(): (r: bool)
      reads this
      ensures r <==> user.Some? && user.value.role == "admin"
    {
      user.Some? && user.value.role == "admin"
    }

    /** Every admin is signed in. */
    lemma AdminIsAuthenticated()
      ensures IsAdmin() ==> IsAuthenticated()
    {
    }
  }
}
