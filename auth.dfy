/**
 * The session store (app/context/AuthContext.js): `user`, `token`,
 * `isLoading` and `isClient`, the storage keys 'userToken' and 'userInfo',
 * the load-once and persist effects, `login`, `logout` and the derived
 * `isAuthenticated`.
 */
module Auth {
  import opened Wrappers
  import opened Storage

  /** The profile object handed to `login` and kept as 'userInfo'. */
  datatype User = User(id: string, name: string, email: string, role: string)

  /**
   * `AuthProvider`. `storedToken` is the key 'userToken' (a raw string) and
   * `storedUser` the key 'userInfo' (serialised JSON).
   */
  class AuthStore {
    var user: Option<User>
    var token: Option<string>
    var isLoading: bool
    var isClient: bool
    var storedToken: Option<string>
    var storedUser: Option<Stored<User>>
    /** `typeof window !== 'undefined'`. */
    const hasWindow: bool

    /** `!!user && !!token`: a user object is always truthy, an empty token is not. */
    predicate IsAuthenticated()
      reads this
    {
      user.Some? && Present(token)
    }

    /** What the persist effect leaves in storage for the current state. */
    ghost predicate Synced()
      reads this
    {
      if IsAuthenticated()
      then storedUser == Some(Stringify(user.value)) && storedToken == token
      else storedUser.None? && storedToken.None?
    }

    /** Storage holds both keys or neither. */
    ghost predicate BothOrNeither()
      reads this
    {
      storedUser.Some? <==> storedToken.Some?
    }

    /** Once hydrated, storage mirrors the session. */
    ghost predicate Valid()
      reads this
    {
      isClient ==> hasWindow && Synced()
    }

    /** The first render: no session, loading, not hydrated, storage as found. */
    constructor (hasWindow: bool, storedToken: Option<string>, storedUser: Option<Stored<User>>)
      ensures Valid() && !IsAuthenticated()
      ensures this.hasWindow == hasWindow && user.None? && token.None? && isLoading && !isClient
      ensures this.storedToken == storedToken && this.storedUser == storedUser
    {
      this.hasWindow := hasWindow;
      user, token := None, None;
      isLoading, isClient := true, false;
      this.storedToken, this.storedUser := storedToken, storedUser;
    }

    /**
     * The load effect (runs once, on mount). Both keys truthy: parse the user;
     * a parse failure is caught, both keys are removed and the session is
     * cleared. `isLoading` ends false with or without a window.
     */
    method LoadEffect()
      modifies this`user, this`token, this`isClient, this`isLoading, this`storedToken, this`storedUser
      ensures !isLoading
      ensures isClient == (hasWindow || old(isClient))
      ensures var both := hasWindow && Present(old(storedToken)) && old(storedUser).Some? && Truthy(old(storedUser).value);
        && (both && old(storedUser).value.Json? ==>
              user == Some(old(storedUser).value.value) && token == old(storedToken)
              && storedToken == old(storedToken) && storedUser == old(storedUser))
        && (both && old(storedUser).value.Text? ==>
              user.None? && token.None? && storedToken.None? && storedUser.None?)
        && (!both ==> user == old(user) && token == old(token)
                      && storedToken == old(storedToken) && storedUser == old(storedUser))
    {
      if hasWindow {
        if Present(storedToken) && storedUser.Some? && Truthy(storedUser.value) {
          var parsed := Parse(storedUser.value);
          if parsed.Some? {
            user := parsed;
            token := storedToken;
          } else {
            storedToken := None;
            storedUser := None;
            user := None;
            token := None;
          }
        }
        isClient := true;
      }
      isLoading := false;
    }

    /** The persist effect: once hydrated, write both keys or remove both. */
    method PersistEffect()
      modifies this`storedToken, this`storedUser
      ensures isClient && hasWindow ==> Synced() && BothOrNeither()
      ensures !(isClient && hasWindow) ==> storedToken == old(storedToken) && storedUser == old(storedUser)
    {
      if isClient && hasWindow {
        if IsAuthenticated() {
          storedUser := Some(Stringify(user.value));
          storedToken := token;
        } else {
          storedUser := None;
          storedToken := None;
        }
      }
    }

    /**
     * Mounting. In the first commit the load effect runs first and schedules
     * its updates; the same commit's persist effect still sees
     * `isClient == false` and does nothing. The model runs that no-op persist
     * before the load, which is equivalent. The load's updates trigger a
     * second commit whose persist effect runs on the loaded session.
     */
    method Mount()
      requires !isClient && user.None? && token.None?
      modifies this
      ensures Valid() && !isLoading && isClient == hasWindow
      ensures hasWindow ==> BothOrNeither()
      ensures var loaded := hasWindow && Present(old(storedToken)) && old(storedUser).Some? && old(storedUser).value.Json?;
        && (loaded ==> user == Some(old(storedUser).value.value) && token == old(storedToken)
                       && IsAuthenticated()
                       && storedToken == old(storedToken) && storedUser == old(storedUser))
        && (!loaded ==> user.None? && token.None? && !IsAuthenticated())
        && (hasWindow && !loaded ==> storedToken.None? && storedUser.None?)
        && (!hasWindow ==> storedToken == old(storedToken) && storedUser == old(storedUser))
    {
      PersistEffect();
      LoadEffect();
      PersistEffect();
    }

    /** `login`: sets token and user; the change is then persisted. */
    method Login(newToken: Option<string>, newUser: User)
      requires Valid()
      modifies this`user, this`token, this`storedToken, this`storedUser
      ensures Valid()
      ensures token == newToken && user == Some(newUser)
      ensures IsAuthenticated() <==> Present(newToken)
      ensures isClient && Present(newToken) ==> storedToken == newToken && storedUser == Some(Stringify(newUser))
      ensures isClient && !Present(newToken) ==> storedToken.None? && storedUser.None?
      ensures !isClient ==> storedToken == old(storedToken) && storedUser == old(storedUser)
    {
      token := newToken;
      user := Some(newUser);
      PersistEffect();
    }

    /** `logout`: clears the session; the change is then persisted. */
    method Logout()
      requires Valid()
      modifies this`user, this`token, this`storedToken, this`storedUser
      ensures Valid() && !IsAuthenticated()
      ensures user.None? && token.None?
      ensures isClient ==> storedToken.None? && storedUser.None?
      ensures !isClient ==> storedToken == old(storedToken) && storedUser == old(storedUser)
    {
      user := None;
      token := None;
      PersistEffect();
    }
  }

  /** A session survives a reload: logging in, then mounting a fresh store on the same storage, restores it. */
  method ReloadRestoresSession(newToken: string, newUser: User) returns (restoredUser: Option<User>, restoredToken: Option<string>)
    requires newToken != ""
    ensures restoredUser == Some(newUser) && restoredToken == Some(newToken)
  {
    var first := new AuthStore(true, None, None);
    first.Mount();
    first.Login(Some(newToken), newUser);
    var second := new AuthStore(true, first.storedToken, first.storedUser);
    second.Mount();
    restoredUser, restoredToken := second.user, second.token;
  }
}
