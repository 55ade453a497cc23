/** The session store (`AuthProvider`): who is signed in, persisted in the
    `token` and `user` entries of `localStorage` and propagated to the API
    client's default credential. */
module AuthContext {
  import opened Wrappers
  import opened Json
  import Api

  /** Everything the provider reads or writes: the gateway state (storage,
      location, default header), the in-memory `user` and `loading`. */
  datatype Session = Session(env: Api.Env, user: Option<User>, loading: bool)

  /** What the login and register endpoints resolve to: `{ user, token }`. */
  datatype AuthReply = AuthReply(user: User, token: string)

  /** A fresh provider: `useState(null)`, `useState(true)`. */
  function Fresh(env: Api.Env): Session {
    Session(env, None, true)
  }

  /** A page reload: only `localStorage` survives; the API client is
      constructed again without a default credential. */
  function Reload(s: Session): Session {
    Fresh(Api.Env(s.env.storage, s.env.location, None))
  }

  function Entry(storage: map<string, string>, key: string): Option<string> {
    if key in storage then Some(storage[key]) else None
  }

  /** `initializeAuth`. */
  function Restored(s: Session): (r: Session)
    ensures !r.loading
  {
    var token := Entry(s.env.storage, "token");
    var userData := Entry(s.env.storage, "user");
    var s' :=
      if Truthy(token) && Truthy(userData) then
        match Parse(userData.value)
        case Some(u) => s.(user := Some(u), env := s.env.(defaultAuth := Api.AuthHeaderFor(token)))
        case None => s.(env := s.env.(storage := s.env.storage - {"token", "user"}))
      else s;
    s'.(loading := false)
  }

  /** `login(userData, token)`. */
  function LoggedIn(s: Session, u: User, token: string): Session {
    Session(
      s.env.(storage := s.env.storage["token" := token]["user" := Serialize(u)],
             defaultAuth := Api.AuthHeaderFor(Some(token))),
      Some(u),
      s.loading)
  }

  /** `logout()`. */
  function LoggedOut(s: Session): Session {
    Session(
      s.env.(storage := s.env.storage - {"token", "user"}, defaultAuth := None),
      None,
      s.loading)
  }

  /** `updateUser(patch)`: `{...user, ...patch}`, with no guard for a
      missing user. */
  function Updated(s: Session, patch: User): Session {
    var merged := Merge(s.user.GetOr(NoFields), patch);
    s.(env := s.env.(storage := s.env.storage["user" := Serialize(merged)]), user := Some(merged))
  }

  // ---------------------------------------------------------------------
  // Restore

  /** Both entries present and the record readable: the session is adopted
      and the token becomes the client's default bearer credential. */
  lemma RestoreAdopts(s: Session)
    requires "token" in s.env.storage && s.env.storage["token"] != ""
    requires "user" in s.env.storage && Parse(s.env.storage["user"]).Some?
    ensures Restored(s).user == Parse(s.env.storage["user"])
    ensures Restored(s).env.defaultAuth == Some("Bearer " + s.env.storage["token"])
    ensures Restored(s).env.storage == s.env.storage
  {
    assert s.env.storage["user"] != "" by {
      assert Parse("") == None;
    }
  }

  /** An unreadable record: both entries are removed, nothing else is
      touched, and the user stays signed out when starting fresh. */
  lemma RestoreDiscardsCorrupt(s: Session)
    requires "token" in s.env.storage && s.env.storage["token"] != ""
    requires "user" in s.env.storage && s.env.storage["user"] != ""
    requires Parse(s.env.storage["user"]).None?
    ensures Restored(s).env.storage == s.env.storage - {"token", "user"}
    ensures Restored(s).user == s.user
    ensures Restored(s).env.defaultAuth == s.env.defaultAuth
  {
  }

  /** A missing or empty entry: nothing is cleared, not even a lone
      partial entry. */
  lemma RestoreKeepsPartial(s: Session)
    requires "token" !in s.env.storage || s.env.storage["token"] == ""
             || "user" !in s.env.storage || s.env.storage["user"] == ""
    ensures Restored(s) == s.(loading := false)
  {
  }

  /** A stored token without a user record survives restore. */
  lemma LoneTokenSurvives(env: Api.Env)
    requires "token" in env.storage && "user" !in env.storage
    ensures "token" in Restored(Fresh(env)).env.storage
    ensures Restored(Fresh(env)).user == None
  {
  }

  // ---------------------------------------------------------------------
  // Login, logout, update

  /** A login survives a reload: restore yields the same user and the same
      credential. */
  lemma {:induction false} LoginSurvivesReload(s: Session, u: User, token: string)
    requires token != ""
    ensures Restored(Reload(LoggedIn(s, u, token))).user == Some(u)
    ensures Restored(Reload(LoggedIn(s, u, token))).env.defaultAuth == Some("Bearer " + token)
  {
    RoundTrip(u);
    SerializedNonEmpty(u);
    var st := LoggedIn(s, u, token).env.storage;
    assert st["token"] == token && st["user"] == Serialize(u);
  }

  /** An empty token is stored but not truthy: the session does not
      survive a reload. */
  lemma EmptyTokenLostOnReload(s: Session, u: User)
    ensures LoggedIn(s, u, "").user == Some(u)
    ensures LoggedIn(s, u, "").env.defaultAuth == None
    ensures Restored(Reload(LoggedIn(s, u, ""))).user == None
  {
    var st := LoggedIn(s, u, "").env.storage;
    assert st["token"] == "";
  }

  /** Logout is idempotent and leaves nothing a reload could restore. */
  lemma LogoutIdempotent(s: Session)
    ensures LoggedOut(LoggedOut(s)) == LoggedOut(s)
    ensures Restored(Reload(LoggedOut(s))).user == None
  {
  }

  /** A 401 teardown followed by the reload its navigation causes ends
      signed out. */
  lemma UnauthorizedThenReloadSignedOut(s: Session)
    ensures Restored(Reload(s.(env := Api.Teardown(s.env)))).user == None
  {
  }

  /** `updateUser` overwrites exactly the supplied fields, re-persists only
      `user` and never touches `token` or the default credential. */
  lemma UpdateUserMerges(s: Session, patch: User)
    requires s.user.Some?
    ensures Updated(s, patch).user == Some(Merge(s.user.value, patch))
    ensures Entry(Updated(s, patch).env.storage, "token") == Entry(s.env.storage, "token")
    ensures Parse(Updated(s, patch).env.storage["user"]) == Updated(s, patch).user
    ensures forall k :: k != "user" ==> Entry(Updated(s, patch).env.storage, k) == Entry(s.env.storage, k)
    ensures Updated(s, patch).env.defaultAuth == s.env.defaultAuth
  {
    RoundTrip(Merge(s.user.value, patch));
  }

  /** With nobody signed in, `updateUser` still creates a user made of
      exactly the supplied fields and persists it. Whether that user
      survives a reload depends only on the stored token: with none, or an
      empty one, the reload is signed out; with a lone non-empty token t
      (the state `LoneTokenSurvives` shows restore can leave behind), the
      reload signs in as the patch and installs `Bearer t`. */
  lemma {:induction false} UpdateUserWithoutSession(s: Session, patch: User)
    requires s.user.None?
    ensures Updated(s, patch).user == Some(patch)
    ensures Entry(Updated(s, patch).env.storage, "token") == Entry(s.env.storage, "token")
    ensures "token" !in s.env.storage || s.env.storage["token"] == ""
            ==> Restored(Reload(Updated(s, patch))).user == None
    ensures "token" in s.env.storage && s.env.storage["token"] != ""
            ==> Restored(Reload(Updated(s, patch))).user == Some(patch)
                && Restored(Reload(Updated(s, patch))).env.defaultAuth
                   == Some("Bearer " + s.env.storage["token"])
  {
    var m := Merge(NoFields, patch);
    assert m == patch;
    RoundTrip(patch);
    SerializedNonEmpty(patch);
    var st := Updated(s, patch).env.storage;
    assert st["user"] == Serialize(patch);
  }

  // ---------------------------------------------------------------------
  // The provider object

  class AuthProvider {
    const api: Api.ApiService
    var user: Option<User>
    var loading: bool

    constructor (api: Api.ApiService)
      ensures this.api == api && user == None && loading
    {
      this.api := api;
      user := None;
      loading := true;
    }

    function State(): Session
      reads this, api, api.window
    {
      Session(api.State(), user, loading)
    }

    method InitializeAuth()
      modifies this, api, api.window
      ensures State() == Restored(old(State()))
    {
      var token := api.window.GetItem("token");
      var userData := api.window.GetItem("user");
      if Truthy(token) && Truthy(userData) {
        var parsed := Parse(userData.value);
        if parsed.Some? {
          user := parsed;
          api.SetAuthToken(token);
        } else {
          ghost var before := api.window.localStorage;
          api.window.RemoveItem("token");
          api.window.RemoveItem("user");
          assert api.window.localStorage == before - {"token", "user"};
        }
      }
      loading := false;
    }

    method Login(u: User, token: string)
      modifies this, api, api.window
      ensures State() == LoggedIn(old(State()), u, token)
    {
      api.window.SetItem("token", token);
      api.window.SetItem("user", Serialize(u));
      user := Some(u);
      api.SetAuthToken(Some(token));
    }

    method Logout()
      modifies this, api, api.window
      ensures State() == LoggedOut(old(State()))
    {
      ghost var before := api.window.localStorage;
      api.window.RemoveItem("token");
      api.window.RemoveItem("user");
      assert api.window.localStorage == before - {"token", "user"};
      user := None;
      api.SetAuthToken(None);
    }

    method UpdateUser(patch: User)
      modifies this, api, api.window
      ensures State() == Updated(old(State()), patch)
    {
      var merged := Merge(user.GetOr(NoFields), patch);
      api.window.SetItem("user", Serialize(merged));
      user := Some(merged);
    }
  }
}
