/** The authentication context (src/context/AuthContext.jsx): the signed-in user, a loading
    flag, and the copy of the user and token kept in local storage. */
module AuthContext {
  import opened Wrappers
  import opened Records
  import opened Storage
  import Serial

  /** The body of a request the context sends. */
  datatype Body = NoBody
                | SignInBody(email: string, password: string)
                | SignUpBody(name: string, email: string, password: string, grade: Option<string>)

  datatype Request = Post(path: string, body: Body)

  /** The `data` of a successful sign-in or sign-up response. */
  datatype AuthData = AuthData(user: Option<User>, token: Option<string>)

  /** `JSON.parse` threw on the cached user. */
  datatype InitError = UnreadableCachedUser(text: string)

  /** The user key and the token key are both present or both absent. */
  predicate KeysPaired(items: map<string, string>)
  {
    (UserKey in items) == (TokenKey in items)
  }

  /** `items` and `other` agree on every key but the two the context owns. */
  ghost predicate SameOtherKeys(items: map<string, string>, other: map<string, string>)
  {
    forall k :: k != UserKey && k != TokenKey ==>
      (k in items <==> k in other) && (k in items ==> items[k] == other[k])
  }

  /** The store after `persistUser(user, token)`. */
  function PersistedStore(items: map<string, string>, user: Option<User>, token: Option<string>)
    : (r: map<string, string>)
    ensures KeysPaired(r)
    ensures SameOtherKeys(r, items)
    ensures user.Some? && Truthy(token) ==>
              UserKey in r && r[UserKey] == Serial.Stringify(user.value) &&
              TokenKey in r && r[TokenKey] == token.value
    ensures !(user.Some? && Truthy(token)) ==> UserKey !in r && TokenKey !in r
  {
    if user.Some? && Truthy(token) then items[UserKey := Serial.Stringify(user.value)][TokenKey := token.value]
    else items - {UserKey, TokenKey}
  }

  /** The `useState` initialiser: the cached user when `lms_user` holds a non-empty text,
      None otherwise; an unreadable text makes `JSON.parse` throw. The token is not read. */
  function InitialUser(items: map<string, string>): (r: Result<Option<User>, InitError>)
    ensures !(UserKey in items && items[UserKey] != "") ==> r == Ok(None)
    ensures UserKey in items && items[UserKey] != "" ==>
              (r.Err? <==> Serial.Parse(items[UserKey]).None?) &&
              (r.Ok? ==> r.value == Serial.Parse(items[UserKey])) &&
              (r.Err? ==> r.error == UnreadableCachedUser(items[UserKey]))
  {
    if UserKey in items && items[UserKey] != "" then
      match Serial.Parse(items[UserKey])
      case Some(u) => Ok(Some(u))
      case None => Err(UnreadableCachedUser(items[UserKey]))
    else Ok(None)
  }

  /** Reloading after a successful `persistUser` restores the same user. */
  lemma ReloadRestoresUser(items: map<string, string>, u: User, token: string)
    requires token != ""
    ensures InitialUser(PersistedStore(items, Some(u), Some(token))) == Ok(Some(u))
  {
    Serial.ParseStringify(u);
  }

  /** Reloading after a clearing `persistUser` starts signed out. */
  lemma ReloadAfterClearIsSignedOut(items: map<string, string>, u: Option<User>, token: Option<string>)
    requires !(u.Some? && Truthy(token))
    ensures InitialUser(PersistedStore(items, u, token)) == Ok(None)
  {
  }

  /** With no cached user the initial user is None, whatever else the store holds. */
  lemma NoCachedUserStartsSignedOut(items: map<string, string>)
    requires UserKey !in items
    ensures InitialUser(items) == Ok(None)
  {
  }

  /** A cached text that is not the encoding of any user, such as a JSON text, makes the
      initialiser report the unreadable text. */
  lemma ForeignTextRejected(items: map<string, string>)
    requires UserKey in items && items[UserKey] != ""
    requires forall u :: Serial.Stringify(u) != items[UserKey]
    ensures InitialUser(items) == Err(UnreadableCachedUser(items[UserKey]))
  {
    Serial.ParseOnlyEncodings(items[UserKey]);
  }

  /** The initial user does not depend on the token key. */
  lemma InitialUserIgnoresToken(items: map<string, string>, token: Option<string>)
    ensures InitialUser(if token.Some? then items[TokenKey := token.value] else items - {TokenKey})
            == InitialUser(items)
  {
    var other := if token.Some? then items[TokenKey := token.value] else items - {TokenKey};
    assert (UserKey in other) == (UserKey in items);
    assert UserKey in items ==> other[UserKey] == items[UserKey];
  }

  /** `useAuth()`: the context value, or the error it throws outside a provider. */
  function UseAuth<T>(context: Option<T>): (r: Result<T, string>)
    ensures r.Ok? <==> context.Some?
    ensures r.Ok? ==> r.value == context.value
    ensures r.Err? ==> r.error == "useAuth must be used within AuthProvider"
  {
    match context
    case Some(c) => Ok(c)
    case None => Err("useAuth must be used within AuthProvider")
  }

  class AuthProvider {
    var user: Option<User>
    var loading: bool
    const storage: LocalStorage

    /** A provider mounted over `storage`; it exists only when the initialiser did not throw. */
    constructor (storage: LocalStorage)
      requires InitialUser(storage.items).Ok?
      ensures this.storage == storage
      ensures user == InitialUser(storage.items).value && !loading
    {
      this.storage := storage;
      user := InitialUser(storage.items).value;
      loading := false;
    }

    /** Mounting `<AuthProvider>`: the provider, or the error the initialiser throws. */
    static method Mount(storage: LocalStorage) returns (r: Result<AuthProvider, InitError>)
      ensures r.Ok? <==> InitialUser(storage.items).Ok?
      ensures r.Err? ==> r.error == InitialUser(storage.items).error
      ensures r.Ok? ==> fresh(r.value) && r.value.storage == storage &&
                        r.value.user == InitialUser(storage.items).value && !r.value.loading
    {
      match InitialUser(storage.items) {
        case Ok(_) =>
          var p := new AuthProvider(storage);
          r := Ok(p);
        case Err(e) =>
          r := Err(e);
      }
    }

    /** `persistUser(user, token)`: set the user, then write or clear both keys. */
    method PersistUser(u: Option<User>, token: Option<string>)
      modifies this`user, storage
      ensures user == u
      ensures storage.items == PersistedStore(old(storage.items), u, token)
    {
      user := u;
      if u.Some? && Truthy(token) {
        storage.Set(UserKey, Serial.Stringify(u.value));
        storage.Set(TokenKey, token.value);
      } else {
        storage.Remove(UserKey);
        storage.Remove(TokenKey);
        assert storage.items == old(storage.items) - {UserKey, TokenKey};
      }
    }

    /** `login({ email, password, role })` with `response` the outcome of the POST. On success
        the returned user and token are persisted and the user is returned; on failure nothing
        but the loading flag changes and the error propagates. `loadingDuringCall` is the flag
        while the request is outstanding. */
    method Login(email: string, password: string, role: string, response: Result<AuthData, HttpError>)
      returns (sent: Request, result: Result<Option<User>, HttpError>, ghost loadingDuringCall: bool)
      modifies this`user, this`loading, storage
      ensures sent == Post("/auth/" + role + "/login", SignInBody(email, password))
      ensures loadingDuringCall && !loading
      ensures response.Ok? ==>
                result == Ok(response.value.user) && user == response.value.user &&
                storage.items == PersistedStore(old(storage.items), response.value.user, response.value.token)
      ensures response.Err? ==>
                result == Err(response.error) && user == old(user) && storage.items == old(storage.items)
    {
      loading := true;
      sent := Post("/auth/" + role + "/login", SignInBody(email, password));
      loadingDuringCall := loading;
      match response {
        case Ok(data) =>
          PersistUser(data.user, data.token);
          result := Ok(data.user);
        case Err(e) =>
          result := Err(e);
      }
      loading := false;
    }

    /** `register({ name, email, password, role, grade })`; the role is only in the path. */
    method Register(name: string, email: string, password: string, role: string, grade: Option<string>,
                    response: Result<AuthData, HttpError>)
      returns (sent: Request, result: Result<Option<User>, HttpError>, ghost loadingDuringCall: bool)
      modifies this`user, this`loading, storage
      ensures sent == Post("/auth/" + role + "/register", SignUpBody(name, email, password, grade))
      ensures loadingDuringCall && !loading
      ensures response.Ok? ==>
                result == Ok(response.value.user) && user == response.value.user &&
                storage.items == PersistedStore(old(storage.items), response.value.user, response.value.token)
      ensures response.Err? ==>
                result == Err(response.error) && user == old(user) && storage.items == old(storage.items)
    {
      loading := true;
      sent := Post("/auth/" + role + "/register", SignUpBody(name, email, password, grade));
      loadingDuringCall := loading;
      match response {
        case Ok(data) =>
          PersistUser(data.user, data.token);
          result := Ok(data.user);
        case Err(e) =>
          result := Err(e);
      }
      loading := false;
    }

    /** `logout()`: a failed server call is ignored; the user and both keys are always cleared. */
    method Logout(response: Result<(), HttpError>) returns (sent: Request)
      modifies this`user, storage
      ensures sent == Post("/auth/logout", NoBody)
      ensures user == None
      ensures UserKey !in storage.items && TokenKey !in storage.items
      ensures SameOtherKeys(storage.items, old(storage.items))
    {
      sent := Post("/auth/logout", NoBody);
      PersistUser(None, None);
    }
  }
}
