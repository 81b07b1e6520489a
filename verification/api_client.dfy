/**
 * The API client every service goes through: the tokens it keeps (the
 * access token in memory, the refresh token in browser storage), the
 * headers it sends, the single retry after a refreshed 401, and the
 * message of the error it raises for a response that is not ok.
 *
 * `fetch` is not called: each fetch's outcome is a parameter. The fetches
 * `request` makes to the given path are returned as values; of the POST to
 * `/auth/refresh` that a refresh makes, only whether it was made is returned.
 */
module ApiClient {
  import opened Common
  import JsText

  /** The base URL used when no environment value overrides it. */
  const DefaultBaseUrl := "http://localhost:5192/api"

  /** The parsed body of a response: a JSON object (with or without a `message`), other JSON, or text. */
  datatype Data = JsonObject(message: Option<string>) | OtherJson | Text(text: string)

  /** What one fetch gave: a response with its status and parsed body, or a thrown network error. */
  datatype FetchResult = Response(status: int, data: Data) | Threw(error: string)

  /** The request body argument: absent or another falsy value, or a truthy value and its `JSON.stringify` text. */
  datatype Body = NoBody | Falsy | Truthy(json: string)

  /** One fetch as issued: URL, method, headers and serialised body. */
  datatype FetchCall = FetchCall(url: string, httpMethod: string, headers: map<string, string>, body: Option<string>)

  /** The pair of tokens a successful refresh returns. */
  datatype TokenPair = TokenPair(accessToken: string, refreshToken: string)

  /** `res.ok`: a status in the 2xx range. */
  predicate IsOk(status: int)
  {
    200 <= status <= 299
  }

  /** The body sent: the JSON text of a truthy body, nothing otherwise. */
  function Serialized(body: Body): (r: Option<string>)
    ensures r.Some? <==> body.Truthy?
  {
    if body.Truthy? then Some(body.json) else None
  }

  /** The `Authorization` value for a token (section 2.1 of RFC 6750). */
  function Bearer(token: string): string
  {
    "Bearer " + token
  }

  /** `${accessToken}`: the token, or "null" when there is none. */
  function TokenText(token: Option<string>): string
  {
    if token.Some? then token.value else "null"
  }

  /** The token is attached when auth is not skipped and the token is a non-empty string. */
  predicate SendsToken(skipAuth: bool, token: Option<string>)
  {
    !skipAuth && token.Some? && token.value != ""
  }

  /**
   * The headers of the first fetch: "Content-Type: application/json",
   * overridden by the caller's headers, then the bearer token when it is sent.
   */
  function RequestHeaders(extra: map<string, string>, skipAuth: bool, token: Option<string>): map<string, string>
  {
    var base := map["Content-Type" := "application/json"] + extra;
    if SendsToken(skipAuth, token) then base["Authorization" := Bearer(token.value)] else base
  }

  /**
   * The headers keep the caller's values except for `Authorization`, which
   * carries the bearer token exactly when it is sent; "Content-Type" defaults
   * to JSON.
   */
  lemma RequestHeadersSpec(extra: map<string, string>, skipAuth: bool, token: Option<string>)
    ensures var h := RequestHeaders(extra, skipAuth, token);
      && "Content-Type" in h
      && h["Content-Type"] == (if "Content-Type" in extra then extra["Content-Type"] else "application/json")
      && (SendsToken(skipAuth, token) ==> "Authorization" in h && h["Authorization"] == Bearer(token.value))
      && ("Authorization" !in extra ==> ("Authorization" in h <==> SendsToken(skipAuth, token)))
      && (forall k :: k in extra && k != "Authorization" ==> k in h && h[k] == extra[k])
      && (forall k :: k in h ==> k in extra || k == "Content-Type" || k == "Authorization")
  {
  }

  /**
   * The message of an `ApiClientError`: the body's `message` when the body
   * is an object that has one, otherwise "Request failed with status N".
   */
  function ErrorMessage(status: int, data: Data): string
  {
    if data.JsonObject? && data.message.Some? then data.message.value
    else "Request failed with status " + JsText.IntToString(status)
  }

  /** Without a `message` in the body the text names the status, so different statuses read differently. */
  lemma ErrorMessageSpec(status: int, other: int, data: Data)
    ensures data.JsonObject? && data.message.Some? ==> ErrorMessage(status, data) == data.message.value
    ensures !(data.JsonObject? && data.message.Some?) ==>
      ErrorMessage(status, data) != "" &&
      (ErrorMessage(status, data) == ErrorMessage(other, data) ==> status == other)
  {
    var prefix := "Request failed with status ";
    if !(data.JsonObject? && data.message.Some?) && ErrorMessage(status, data) == ErrorMessage(other, data) {
      assert JsText.IntToString(status) == (prefix + JsText.IntToString(status))[|prefix|..];
      assert JsText.IntToString(other) == (prefix + JsText.IntToString(other))[|prefix|..];
      JsText.IntToStringInjective(status, other);
    }
  }

  /** How the client ends a request whose last fetch gave `last`. */
  function Settle(last: FetchResult): (r: Remote<Data>)
  {
    match last
    case Threw(e) => Fail(OtherFailure(e))
    case Response(status, data) =>
      if IsOk(status) then Ok(data) else Fail(ApiFailure(status, ErrorMessage(status, data)))
  }

  /** A request fails exactly when its last fetch threw or answered with a status outside 2xx. */
  lemma SettleSpec(last: FetchResult)
    ensures Settle(last).Ok? <==> last.Response? && IsOk(last.status)
    ensures Settle(last).Ok? ==> Settle(last).value == last.data
    ensures last.Response? && !IsOk(last.status) ==>
      Settle(last) == Fail(ApiFailure(last.status, ErrorMessage(last.status, last.data)))
  {
  }

  /**
   * The first answer is a 401 on a request that did not skip auth, whether
   * or not a bearer token was sent: the case that tries a refresh.
   */
  predicate Unauthorized(first: FetchResult, skipAuth: bool)
  {
    first.Response? && first.status == 401 && !skipAuth
  }

  /** A refresh token is stored and truthy, so `attemptTokenRefresh` calls the refresh endpoint. */
  predicate HadRefresh(stored: Option<string>)
  {
    stored.Some? && stored.value != ""
  }

  /**
   * The client's module state: the access token held in memory and the
   * browser's stored refresh token. Outside a browser nothing is stored or read.
   */
  class Client {
    var accessToken: Option<string>
    var storedRefresh: Option<string>
    const inBrowser: bool
    const baseUrl: string

    constructor(inBrowser: bool, stored: Option<string>, baseUrl: string)
      ensures this.inBrowser == inBrowser && this.baseUrl == baseUrl
      ensures accessToken == None && storedRefresh == stored
    {
      this.inBrowser := inBrowser;
      this.baseUrl := baseUrl;
      accessToken := None;
      storedRefresh := stored;
    }

    method SetAccessToken(token: Option<string>)
      modifies this
      ensures accessToken == token && storedRefresh == old(storedRefresh)
    {
      accessToken := token;
    }

    /** The stored refresh token, or none outside a browser. */
    function RefreshToken(): Option<string>
      reads this
    {
      if inBrowser then storedRefresh else None
    }

    /** Stores a non-empty token; a missing or empty one removes the stored token. */
    method SetRefreshToken(token: Option<string>)
      modifies this
      ensures !inBrowser ==> storedRefresh == old(storedRefresh)
      ensures inBrowser ==> storedRefresh == if token.Some? && token.value != "" then token else None
      ensures accessToken == old(accessToken)
    {
      if !inBrowser {
        return;
      }
      if token.Some? && token.value != "" {
        storedRefresh := token;
      } else {
        storedRefresh := None;
      }
    }

    /** Forgets the access token and removes the stored refresh token. */
    method ClearTokens()
      modifies this
      ensures accessToken == None
      ensures RefreshToken() == None
      ensures !inBrowser ==> storedRefresh == old(storedRefresh)
    {
      accessToken := None;
      SetRefreshToken(None);
    }

    /**
     * `attemptTokenRefresh`: false, without any call, when no refresh token
     * is stored; otherwise one call to the refresh endpoint, whose success
     * stores both new tokens and whose failure clears both.
     */
    method AttemptTokenRefresh(outcome: Remote<TokenPair>) returns (refreshed: bool, called: bool)
      modifies this
      ensures called <==> HadRefresh(old(RefreshToken()))
      ensures !called ==> !refreshed && accessToken == old(accessToken) && storedRefresh == old(storedRefresh)
      ensures called && outcome.Ok? ==>
        refreshed && accessToken == Some(outcome.value.accessToken)
        && storedRefresh == (if outcome.value.refreshToken != "" then Some(outcome.value.refreshToken) else None)
      ensures called && outcome.Fail? ==> !refreshed && accessToken == None && RefreshToken() == None
    {
      var refresh := RefreshToken();
      if refresh.None? || refresh.value == "" {
        return false, false;
      }
      called := true;
      match outcome {
        case Ok(pair) =>
          SetAccessToken(Some(pair.accessToken));
          SetRefreshToken(Some(pair.refreshToken));
          refreshed := true;
        case Fail(_) =>
          ClearTokens();
          refreshed := false;
      }
    }

    /**
     * `request`: one fetch with the current headers; after a 401 on a
     * request that does not skip auth, one refresh attempt and, only when
     * it succeeded, one more fetch with the new bearer token. The outcome
     * is taken from the last fetch.
     */
    method Request(httpMethod: string, path: string, body: Body, skipAuth: bool, extra: map<string, string>,
                   first: FetchResult, refresh: Remote<TokenPair>, retry: FetchResult)
      returns (result: Remote<Data>, calls: seq<FetchCall>, refreshed: bool)
      modifies this
      ensures 1 <= |calls| <= 2
      ensures calls[0] == FetchCall(baseUrl + path, httpMethod,
                                    RequestHeaders(extra, skipAuth, old(accessToken)), Serialized(body))
      ensures |calls| == 2 <==> refreshed
      ensures |calls| == 2 ==>
        calls[1] == calls[0].(headers := calls[0].headers["Authorization" := Bearer(TokenText(accessToken))])
      ensures result == Settle(if |calls| == 2 then retry else first)
      ensures refreshed <==> Unauthorized(first, skipAuth) && HadRefresh(old(RefreshToken())) && refresh.Ok?
      ensures Unauthorized(first, skipAuth) && HadRefresh(old(RefreshToken())) && refresh.Ok? ==>
        accessToken == Some(refresh.value.accessToken)
        && storedRefresh == (if refresh.value.refreshToken != "" then Some(refresh.value.refreshToken) else None)
      ensures Unauthorized(first, skipAuth) && HadRefresh(old(RefreshToken())) && refresh.Fail? ==>
        accessToken == None && RefreshToken() == None
      ensures !(Unauthorized(first, skipAuth) && HadRefresh(old(RefreshToken()))) ==>
        accessToken == old(accessToken) && storedRefresh == old(storedRefresh)
    {
      var url := baseUrl + path;
      var headers := map["Content-Type" := "application/json"] + extra;
      if !skipAuth && accessToken.Some? && accessToken.value != "" {
        headers := headers["Authorization" := Bearer(accessToken.value)];
      }
      calls := [FetchCall(url, httpMethod, headers, Serialized(body))];
      refreshed := false;
      if first.Threw? {
        result := Fail(OtherFailure(first.error));
        return;
      }
      var res := first;
      if res.status == 401 && !skipAuth {
        var called;
        refreshed, called := AttemptTokenRefresh(refresh);
        if refreshed {
          headers := headers["Authorization" := Bearer(TokenText(accessToken))];
          calls := calls + [FetchCall(url, httpMethod, headers, Serialized(body))];
          if retry.Threw? {
            result := Fail(OtherFailure(retry.error));
            return;
          }
          res := retry;
        }
      }
      result := Settle(res);
    }
  }
}
