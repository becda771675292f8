/** How the auth context and the HTTP clients meet in the shared store: signing in makes
    later requests carry the new token, and signing out stops the header from being added. */
module Session {
  import opened Wrappers
  import opened Records
  import opened Storage
  import opened AuthContext
  import opened Api

  /** Once the store has been cleared by `persistUser`, the interceptor adds nothing. */
  lemma NoBearerAfterClear(items: map<string, string>, u: Option<User>, token: Option<string>,
                           headers: map<string, string>)
    requires !(u.Some? && Truthy(token))
    ensures WithBearer(headers, GetItem(PersistedStore(items, u, token), TokenKey)) == headers
  {
  }

  /** After a sign-in that stored a token, requests carry exactly that token. */
  lemma BearerAfterSignIn(items: map<string, string>, u: User, token: string,
                          headers: map<string, string>)
    requires token != ""
    ensures WithBearer(headers, GetItem(PersistedStore(items, Some(u), Some(token)), TokenKey))
            == headers[AuthorizationHeader := "Bearer " + token]
  {
  }

  /** Signing out and then sending a request: the request leaves with its headers untouched,
      even when the logout call itself failed. */
  method LogoutThenRequest(auth: AuthProvider, client: Client, config: RequestConfig,
                           response: Result<(), HttpError>)
    requires client.storage == auth.storage
    modifies auth`user, auth.storage, config`headers
    ensures auth.user == None
    ensures config.headers == old(config.headers)
  {
    var _ := auth.Logout(response);
    var _ := client.Intercept(config);
  }

  /** The token is read when the request is made, not when the client was created: a sign-in
      after the client exists is seen by the next request. */
  method SignInThenRequest(auth: AuthProvider, client: Client, config: RequestConfig,
                           email: string, password: string, role: string, u: User, token: string)
    requires client.storage == auth.storage
    requires token != ""
    modifies auth`user, auth`loading, auth.storage, config`headers
    ensures auth.user == Some(u)
    ensures config.headers == old(config.headers)[AuthorizationHeader := "Bearer " + token]
  {
    var _, _, _ := auth.Login(email, password, role, Ok(AuthData(Some(u), Some(token))));
    var _ := client.Intercept(config);
  }

  /** A request made from scratch after signing out carries no Authorization header, even
      when the logout call itself failed. */
  method FreshRequestAfterLogout(auth: AuthProvider, client: Client, url: string,
                                 response: Result<(), HttpError>)
    returns (config: RequestConfig)
    requires client.storage == auth.storage
    modifies auth`user, auth.storage
    ensures auth.user == None
    ensures config.url == url && AuthorizationHeader !in config.headers
  {
    var _ := auth.Logout(response);
    config := new RequestConfig(url, map[]);
    var _ := client.Intercept(config);
  }
}
