/**
 * The session the auth provider keeps: the signed-in user, the loading
 * flags, and how hydration, login/register and logout change them and the
 * client's tokens. The remote auth calls are parameters.
 */
module AuthContext {
  import opened Common
  import ApiClient

  datatype User = User(id: string, email: string, fullName: string, isAdmin: bool)

  /** What the login, register and refresh endpoints return. */
  datatype AuthResponse = AuthResponse(accessToken: string, refreshToken: string, user: User)

  /** The value the stored refresh token takes after `setRefreshToken(token)` in a browser. */
  function StoredAfterSet(token: string): Option<string>
  {
    if token != "" then Some(token) else None
  }

  /** The refresh token `getRefreshToken` reads is present and non-empty. */
  predicate HasRefresh(token: Option<string>)
  {
    token.Some? && token.value != ""
  }

  const OutsideProvider := "useAuth must be used within an <AuthProvider>"

  /** `useAuth`: the provider's value, or an error when there is no provider above. */
  function UseAuth<T>(ctx: Option<T>): (r: Remote<T>)
    ensures r.Ok? <==> ctx.Some?
    ensures r.Ok? ==> r.value == ctx.value
    ensures r.Fail? ==> r.failure == OtherFailure(OutsideProvider)
  {
    if ctx.Some? then Ok(ctx.value) else Fail(OtherFailure(OutsideProvider))
  }

  class AuthSession {
    var user: Option<User>
    var isLoading: bool
    var isActionLoading: bool

    constructor()
      ensures user == None && isLoading && !isActionLoading
    {
      user := None;
      isLoading := true;
      isActionLoading := false;
    }

    /** `isAuthenticated`: a user is signed in. */
    predicate IsAuthenticated()
      reads this
    {
      user.Some?
    }

    /** Stores both tokens and the user of a successful auth response. */
    method PersistSession(client: ApiClient.Client, res: AuthResponse)
      modifies this, client
      ensures user == Some(res.user)
      ensures client.accessToken == Some(res.accessToken)
      ensures client.inBrowser ==> client.storedRefresh == StoredAfterSet(res.refreshToken)
      ensures !client.inBrowser ==> client.storedRefresh == old(client.storedRefresh)
      ensures isLoading == old(isLoading) && isActionLoading == old(isActionLoading)
    {
      client.SetAccessToken(Some(res.accessToken));
      client.SetRefreshToken(Some(res.refreshToken));
      user := Some(res.user);
    }

    /**
     * `hydrate`: without a stored refresh token nothing is called; otherwise
     * the refresh outcome either restores the session or clears the tokens
     * and the user. Loading ends in every case.
     */
    method Hydrate(client: ApiClient.Client, outcome: Remote<AuthResponse>) returns (called: bool)
      modifies this, client
      ensures called <==> HasRefresh(old(client.RefreshToken()))
      ensures !called ==>
        user == old(user) && client.accessToken == old(client.accessToken)
        && client.storedRefresh == old(client.storedRefresh)
      ensures called && outcome.Ok? ==>
        user == Some(outcome.value.user) && client.accessToken == Some(outcome.value.accessToken)
        && client.storedRefresh == StoredAfterSet(outcome.value.refreshToken)
      ensures called && outcome.Fail? ==>
        user == None && client.accessToken == None && client.RefreshToken() == None
      ensures !isLoading && isActionLoading == old(isActionLoading)
    {
      var refresh := client.RefreshToken();
      if refresh.None? || refresh.value == "" {
        isLoading := false;
        return false;
      }
      called := true;
      match outcome {
        case Ok(res) =>
          PersistSession(client, res);
        case Fail(_) =>
          client.ClearTokens();
          user := None;
      }
      isLoading := false;
    }

    /** A login or registration was submitted: the action is in progress. */
    method ActionStarted()
      modifies this
      ensures isActionLoading && user == old(user) && isLoading == old(isLoading)
    {
      isActionLoading := true;
    }

    /**
     * A login or registration settled: success persists the session, a
     * failure is passed back to the caller untouched; either way the action
     * is no longer in progress.
     */
    method ActionSettled(client: ApiClient.Client, outcome: Remote<AuthResponse>) returns (error: Option<Failure>)
      modifies this, client
      ensures !isActionLoading && isLoading == old(isLoading)
      ensures outcome.Ok? ==>
        error == None && user == Some(outcome.value.user)
        && client.accessToken == Some(outcome.value.accessToken)
        && (client.inBrowser ==> client.storedRefresh == StoredAfterSet(outcome.value.refreshToken))
      ensures outcome.Fail? ==>
        error == Some(outcome.failure) && user == old(user)
        && client.accessToken == old(client.accessToken) && client.storedRefresh == old(client.storedRefresh)
    {
      if outcome.Ok? {
        PersistSession(client, outcome.value);
        error := None;
      } else {
        error := Some(outcome.failure);
      }
      isActionLoading := false;
    }

    /**
     * `logout`: revocation is asked for only when a refresh token is
     * stored; its answer is ignored (an empty `catch`), and the tokens and
     * the user are cleared in every case, so the answer is not a parameter.
     */
    method Logout(client: ApiClient.Client) returns (revokeCalled: bool)
      modifies this, client
      ensures revokeCalled <==> HasRefresh(old(client.RefreshToken()))
      ensures user == None && !IsAuthenticated()
      ensures client.accessToken == None && client.RefreshToken() == None
      ensures isLoading == old(isLoading) && isActionLoading == old(isActionLoading)
    {
      var refresh := client.RefreshToken();
      revokeCalled := refresh.Some? && refresh.value != "";
      client.ClearTokens();
      user := None;
    }

    /**
     * `logoutAll`: revocation on every device is asked for; its answer is
     * ignored, and the tokens and the user are cleared in every case.
     */
    method LogoutAll(client: ApiClient.Client)
      modifies this, client
      ensures user == None && !IsAuthenticated()
      ensures client.accessToken == None && client.RefreshToken() == None
      ensures isLoading == old(isLoading) && isActionLoading == old(isActionLoading)
    {
      client.ClearTokens();
      user := None;
    }
  }
}
