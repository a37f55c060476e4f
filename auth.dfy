/** The access-token lifecycle of UpstoxAuth: no token file -> interactive
    authorisation -> a stored token that expires 24 hours after issue; an
    expired token is deleted and authorisation repeats. The browser round
    trip, the token endpoint and the clock are inputs (AuthEnv); the token
    file is the field `tokenFile`. */
module Auth {
  import opened Wrappers

  /** The JSON record kept in the token file. */
  datatype TokenRecord = TokenRecord(accessToken: Option<string>, timestamp: Option<real>, expiresAt: Option<real>)

  /** The token endpoint's JSON answer; only its access_token matters. */
  datatype ExchangeResponse = ExchangeResponse(accessToken: Option<string>)

  datatype AuthError =
    | AuthorizationFailed   // the callback produced no code
    | TokenExchangeFailed   // the exchange answer had no access_token
    | TokenFieldMissing     // the token file had no access_token (KeyError)

  /** What the outside world answers during one get_access_token call: the
      wall clock (time.time()), the code the local callback captured, and
      the token endpoint's response to that code. */
  datatype AuthEnv = AuthEnv(now: real, authCode: Option<string>, exchange: ExchangeResponse)

  const TokenLifetime: real := 24.0 * 3600.0

  /** `tokens.get("expires_at", 0)` */
  function ExpiresAt(rec: TokenRecord): real {
    rec.expiresAt.GetOr(0.0)
  }

  predicate Expired(rec: TokenRecord, now: real) {
    now > ExpiresAt(rec)
  }

  /** The record exchange_code_for_tokens writes for a successful answer. */
  function IssuedRecord(token: string, now: real): (rec: TokenRecord)
    ensures rec.accessToken == Some(token)
    ensures ExpiresAt(rec) == now + TokenLifetime
    ensures !Expired(rec, now)
  {
    TokenRecord(Some(token), Some(now), Some(now + TokenLifetime))
  }

  /** The no-file branch: ask for a code and exchange it. Returns the
      outcome and the token file afterwards. */
  function Authorize(env: AuthEnv): (Result<string, AuthError>, Option<TokenRecord>) {
    if env.authCode.None? || env.authCode.value == "" then (Failure(AuthorizationFailed), None)
    else if env.exchange.accessToken.None? then (Failure(TokenExchangeFailed), None)
    else (Success(env.exchange.accessToken.value), Some(IssuedRecord(env.exchange.accessToken.value, env.now)))
  }

  /** One get_access_token call as a transition of the token file. */
  function TokenStep(file: Option<TokenRecord>, env: AuthEnv): (Result<string, AuthError>, Option<TokenRecord>) {
    match file
    case None => Authorize(env)
    case Some(rec) =>
      if Expired(rec, env.now) then Authorize(env)
      else if rec.accessToken.None? then (Failure(TokenFieldMissing), file)
      else (Success(rec.accessToken.value), file)
  }

  /** A stored token is handed out exactly when it has not expired, and the
      file is then left as it was. */
  lemma StoredTokenWhenFresh(rec: TokenRecord, env: AuthEnv)
    requires rec.accessToken.Some?
    ensures !Expired(rec, env.now) <==> TokenStep(Some(rec), env) == (Success(rec.accessToken.value), Some(rec))
  {
    if Expired(rec, env.now) {
      var out := TokenStep(Some(rec), env);
      assert out == Authorize(env);
      assert out.1 != Some(rec) by {
        if out.1.Some? {
          assert !Expired(out.1.value, env.now);
        }
      }
    }
  }

  /** An expired record is never returned: the call behaves as if there had
      been no token file at all. */
  lemma ExpiredBehavesAsNoFile(rec: TokenRecord, env: AuthEnv)
    requires Expired(rec, env.now)
    ensures TokenStep(Some(rec), env) == TokenStep(None, env)
    ensures TokenStep(Some(rec), env).1 != Some(rec)
  {
  }

  /** Whenever a token is returned, the file holds that token and it is
      not expired at the time of the call. */
  lemma SuccessLeavesFreshToken(file: Option<TokenRecord>, env: AuthEnv)
    ensures var (r, after) := TokenStep(file, env);
      r.Success? ==> after.Some? && after.value.accessToken == Some(r.value) && !Expired(after.value, env.now)
  {
  }

  /** Without a usable code, authorisation fails and no token file exists. */
  lemma MissingCodeFails(file: Option<TokenRecord>, env: AuthEnv)
    requires file.None? || Expired(file.value, env.now)
    requires env.authCode.None? || env.authCode.value == ""
    ensures TokenStep(file, env) == (Failure(AuthorizationFailed), None)
  {
  }

  class UpstoxAuth {
    /** The contents of upstox_tokens.json; None when the file does not exist. */
    var tokenFile: Option<TokenRecord>

    constructor (file: Option<TokenRecord>)
      ensures tokenFile == file
    {
      tokenFile := file;
    }

    /** Raises (Failure) unless the answer has an access_token; otherwise
        stores it with expires_at = now + 24h and returns the record. */
    method ExchangeCodeForTokens(code: string, response: ExchangeResponse, now: real) returns (r: Result<TokenRecord, AuthError>)
      modifies this
      ensures response.accessToken.None? ==> r == Failure(TokenExchangeFailed) && tokenFile == old(tokenFile)
      ensures response.accessToken.Some? ==>
        r == Success(IssuedRecord(response.accessToken.value, now)) && tokenFile == Some(r.value)
    {
      if response.accessToken.None? {
        return Failure(TokenExchangeFailed);
      }
      var rec := TokenRecord(response.accessToken, Some(now), Some(now + TokenLifetime));
      tokenFile := Some(rec);
      r := Success(rec);
    }

    /** get_access_token: returns the stored token while it is fresh; an
        expired file is removed and the call recurses into the no-file
        branch, which authorises afresh. */
    method GetAccessToken(env: AuthEnv) returns (r: Result<string, AuthError>)
      modifies this
      ensures (r, tokenFile) == TokenStep(old(tokenFile), env)
      decreases if tokenFile.Some? then 1 else 0
    {
      if tokenFile.None? {
        if env.authCode.None? || env.authCode.value == "" {
          return Failure(AuthorizationFailed);
        }
        var tokens := ExchangeCodeForTokens(env.authCode.value, env.exchange, env.now);
        if tokens.Failure? {
          return Failure(tokens.error);
        }
        return Success(tokens.value.accessToken.value);
      }
      var tokens := tokenFile.value;
      if env.now > ExpiresAt(tokens) {
        tokenFile := None;
        r := GetAccessToken(env);
        return;
      }
      if tokens.accessToken.None? {
        return Failure(TokenFieldMissing);
      }
      r := Success(tokens.accessToken.value);
    }

    /** invalidate_token: the token file is removed if it exists. */
    method InvalidateToken()
      modifies this
      ensures tokenFile.None?
    {
      tokenFile := None;
    }
  }
}
