/**
 * The server's in-memory access token and its freshness rule. The token
 * endpoint is replaced by the reply it gives; `Date.now()` by clock
 * readings passed in.
 */
module SpotifyToken {
  import opened Wrappers

  /** A token is refreshed when it is due within this many milliseconds. */
  const ExpiryMarginMs: int := 60000

  /** What the token endpoint's POST yields. */
  datatype TokenReply =
    | Granted(accessToken: string, expiresIn: int)  // ok status, JSON body read
    | Refused(body: string)                         // a non-ok status and its body text
    | Unreachable(message: string)                  // fetch or body parsing threw

  /** `!accessToken || now >= tokenExpiry - 60000`: the stored token cannot be used as is. */
  predicate NeedsRefresh(token: Option<string>, expiry: int, now: int) {
    !Truthy(token) || now >= expiry - ExpiryMarginMs
  }

  /** The module-level `accessToken` and `tokenExpiry`. */
  class TokenState {
    var accessToken: Option<string>
    var tokenExpiry: int

    /** No token is held at start-up. */
    constructor ()
      ensures accessToken == None && tokenExpiry == 0
    {
      accessToken := None;
      tokenExpiry := 0;
    }

    /**
     * refreshAccessToken: `now` is the clock read after the reply arrived.
     * A grant stores the token and its expiry; any other reply throws and
     * leaves both variables as they were.
     */
    method RefreshAccessToken(reply: TokenReply, now: int) returns (r: Result<string, string>)
      modifies this
      ensures reply.Granted? ==>
        r == Success(reply.accessToken)
        && accessToken == Some(reply.accessToken)
        && tokenExpiry == now + reply.expiresIn * 1000
      ensures reply.Refused? ==>
        r == Failure("Failed to refresh token: " + reply.body)
      ensures reply.Unreachable? ==> r == Failure(reply.message)
      ensures !reply.Granted? ==>
        accessToken == old(accessToken) && tokenExpiry == old(tokenExpiry)
    {
      match reply
      case Refused(body) =>
        r := Failure("Failed to refresh token: " + body);
      case Unreachable(message) =>
        r := Failure(message);
      case Granted(token, expiresIn) =>
        accessToken := Some(token);
        tokenExpiry := now + expiresIn * 1000;
        r := Success(token);
    }

    /**
     * getAccessToken: `checkedAt` is the clock read for the freshness test,
     * `repliedAt` the one refreshAccessToken takes after its reply.
     */
    method GetAccessToken(checkedAt: int, reply: TokenReply, repliedAt: int) returns (r: Result<string, string>)
      modifies this
      // A usable token is returned as is and nothing changes.
      ensures !NeedsRefresh(old(accessToken), old(tokenExpiry), checkedAt) ==>
        r == Success(old(accessToken).value)
        && accessToken == old(accessToken) && tokenExpiry == old(tokenExpiry)
      // Otherwise the outcome is the refresh's.
      ensures NeedsRefresh(old(accessToken), old(tokenExpiry), checkedAt) && reply.Granted? ==>
        r == Success(reply.accessToken)
        && accessToken == Some(reply.accessToken)
        && tokenExpiry == repliedAt + reply.expiresIn * 1000
      ensures NeedsRefresh(old(accessToken), old(tokenExpiry), checkedAt) && reply.Refused? ==>
        r == Failure("Failed to refresh token: " + reply.body)
      ensures NeedsRefresh(old(accessToken), old(tokenExpiry), checkedAt) && reply.Unreachable? ==>
        r == Failure(reply.message)
      ensures NeedsRefresh(old(accessToken), old(tokenExpiry), checkedAt) && !reply.Granted? ==>
        accessToken == old(accessToken) && tokenExpiry == old(tokenExpiry)
    {
      if NeedsRefresh(accessToken, tokenExpiry, checkedAt) {
        r := RefreshAccessToken(reply, repliedAt);
      } else {
        r := Success(accessToken.value);
      }
    }
  }

  /**
   * Once a refresh is due it stays due as the clock moves on: only a
   * refresh makes the stored token usable again.
   */
  lemma RefreshStaysDue(token: Option<string>, expiry: int, now: int, later: int)
    requires NeedsRefresh(token, expiry, now)
    requires now <= later
    ensures NeedsRefresh(token, expiry, later)
  {
  }

  /**
   * A non-empty token granted at `grantedAt` for `expiresIn` seconds is
   * reused exactly until one minute before it expires.
   */
  lemma GrantedTokenReusedUntilMargin(token: string, grantedAt: int, expiresIn: int, now: int)
    requires token != ""
    ensures !NeedsRefresh(Some(token), grantedAt + expiresIn * 1000, now)
            <==> now < grantedAt + expiresIn * 1000 - ExpiryMarginMs
  {
  }

  /**
   * A grant that lives one minute or less never satisfies the freshness test
   * at or after the moment it was stored: every later request refreshes.
   */
  lemma ShortGrantAlwaysRefreshed(token: string, grantedAt: int, expiresIn: int, now: int)
    requires expiresIn <= 60
    requires now >= grantedAt
    ensures NeedsRefresh(Some(token), grantedAt + expiresIn * 1000, now)
  {
  }

  /** An empty token counts as no token: it is refreshed whatever its expiry. */
  lemma EmptyTokenAlwaysRefreshed(expiry: int, now: int)
    ensures NeedsRefresh(Some(""), expiry, now)
  {
  }

  /**
   * Two requests in a row starting from no token: the first refreshes and the
   * second, inside the window, gets the same token without a refresh even
   * when the endpoint would now refuse.
   */
  method SecondRequestReusesToken(token: string) returns (first: Result<string, string>, second: Result<string, string>)
    requires token != ""
    ensures first == Success(token) && second == Success(token)
  {
    var state := new TokenState();
    first := state.GetAccessToken(0, Granted(token, 3600), 100);
    second := state.GetAccessToken(1000, Refused("no"), 1100);
  }
}
