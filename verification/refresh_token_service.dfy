/** `RefreshTokenService`: issuing, rotating and revoking refresh tokens.
    Tokens are stored under the hash of their raw value. The hash, the random
    token value, the access-token signer and the clock are inputs. */
module RefreshTokens {
  import opened Wrappers
  import opened JavaStrings
  import opened Domain

  /** The part of `UserEntity` the service looks at. */
  datatype User = User(id: int, enabled: bool)

  /** `RefreshTokenEntity`, without its generated id (the map key, the token
      hash, identifies it); instants are whole seconds. */
  datatype RefreshToken = RefreshToken(user: User, createdAt: int, expiresAt: int, revokedAt: Option<int>,
                                       userAgent: Option<string>, ipAddress: Option<string>)

  /** One repository write: `save` of the token stored under a hash, or
      `saveAll` of the tokens stored under a set of hashes. */
  datatype Write = Save(tokenHash: string) | SaveAll(tokenHashes: set<string>)

  /** The repository's tokens by hash, and the writes made so far. */
  datatype TokenStore = TokenStore(tokens: map<string, RefreshToken>, writes: seq<Write>)

  /** `RefreshResult`. */
  datatype RefreshResult = RefreshResult(accessToken: string, refreshToken: string, user: User)

  /** The store after an operation, and what the operation returned or threw. */
  datatype Outcome<T> = Outcome(store: TokenStore, result: Result<T, ErrorCode>)

  /** SHA-256 of the UTF-8 bytes, written in hex. */
  type Hash = string -> string

  /** The default `security.jwt.refresh-expiration-seconds`: seven days. */
  const DefaultRefreshExpirationSeconds: int := 604800

  /** A character of the URL-safe Base64 alphabet. */
  predicate Base64UrlChar(c: char) {
    ('A' <= c <= 'Z') || ('a' <= c <= 'z') || ('0' <= c <= '9') || c == '-' || c == '_'
  }

  /** What `generateTokenValue` returns: 64 random bytes in URL-safe Base64
      without padding, which is 86 characters. */
  predicate GeneratedToken(raw: string) {
    |raw| == 86 && forall i :: 0 <= i < |raw| ==> Base64UrlChar(raw[i])
  }

  /** A token with its revocation instant set. */
  function Revoked(token: RefreshToken, now: int): RefreshToken {
    token.(revokedAt := Some(now))
  }

  /** A token of the given user that has not been revoked. */
  predicate Active(token: RefreshToken, userId: int) {
    token.user.id == userId && token.revokedAt.None?
  }

  /** `findAllByUser_IdAndRevokedAtIsNull`, as the hashes of those tokens. */
  function ActiveKeys(tokens: map<string, RefreshToken>, userId: int): (r: set<string>)
    ensures forall k :: k in r <==> k in tokens && Active(tokens[k], userId)
  {
    set k | k in tokens && Active(tokens[k], userId)
  }

  /** `requireToken`: the raw token is trimmed; a null or empty one, or one
      whose hash is not stored, is refused as invalid. The stored token is
      returned by its hash. */
  function RequireToken(tokens: map<string, RefreshToken>, hash: Hash, rawToken: Option<string>): (r: Result<string, ErrorCode>)
    ensures r.Ok? ==> rawToken.Some? && Trim(rawToken.value) != "" && r.value == hash(Trim(rawToken.value))
    ensures r.Ok? ==> r.value in tokens
    ensures r.Err? ==> r.error == AuthRefreshInvalid
  {
    if rawToken.None? || Trim(rawToken.value) == "" then Err(AuthRefreshInvalid)
    else if hash(Trim(rawToken.value)) !in tokens then Err(AuthRefreshInvalid)
    else Ok(hash(Trim(rawToken.value)))
  }

  /** `requireValid`: a known token, refused when revoked and then when it
      expired strictly before `now`. */
  function RequireValid(tokens: map<string, RefreshToken>, hash: Hash, rawToken: Option<string>, now: int)
    : (r: Result<string, ErrorCode>)
    ensures r.Ok? ==> r.value in tokens && tokens[r.value].revokedAt.None? && now <= tokens[r.value].expiresAt
    ensures r.Err? ==> r.error in {AuthRefreshInvalid, AuthRefreshRevoked, AuthRefreshExpired}
  {
    match RequireToken(tokens, hash, rawToken)
    case Err(code) => Err(code)
    case Ok(key) =>
      if tokens[key].revokedAt.Some? then Err(AuthRefreshRevoked)
      else if tokens[key].expiresAt < now then Err(AuthRefreshExpired)
      else Ok(key)
  }

  /** The store after `issue` saved a new token for `rawToken`. */
  function IssueSpec(s: TokenStore, user: User, userAgent: Option<string>, ipAddress: Option<string>,
                     rawToken: string, now: int, expirySeconds: int, hash: Hash): TokenStore {
    TokenStore(s.tokens[hash(rawToken) := RefreshToken(user, now, now + expirySeconds, None, userAgent, ipAddress)],
               s.writes + [Save(hash(rawToken))])
  }

  /** `refresh`: the old token must be valid and its user enabled; it is then
      revoked and saved, and a new token is issued for the same user. */
  function RefreshSpec(s: TokenStore, rawToken: Option<string>, userAgent: Option<string>, ipAddress: Option<string>,
                       newToken: string, now: int, expirySeconds: int, hash: Hash, accessTokenFor: User -> string)
    : Outcome<RefreshResult> {
    match RequireValid(s.tokens, hash, rawToken, now)
    case Err(code) => Outcome(s, Err(code))
    case Ok(key) =>
      var user := s.tokens[key].user;
      if !user.enabled then Outcome(s, Err(Forbidden))
      else
        var rotated := TokenStore(s.tokens[key := Revoked(s.tokens[key], now)], s.writes + [Save(key)]);
        Outcome(IssueSpec(rotated, user, userAgent, ipAddress, newToken, now, expirySeconds, hash),
                Ok(RefreshResult(accessTokenFor(user), newToken, user)))
  }

  /** `revoke`: a known token is revoked and saved unless it already was. */
  function RevokeSpec(s: TokenStore, rawToken: Option<string>, now: int, hash: Hash): Outcome<()> {
    match RequireToken(s.tokens, hash, rawToken)
    case Err(code) => Outcome(s, Err(code))
    case Ok(key) =>
      if s.tokens[key].revokedAt.Some? then Outcome(s, Ok(()))
      else Outcome(TokenStore(s.tokens[key := Revoked(s.tokens[key], now)], s.writes + [Save(key)]), Ok(()))
  }

  /** The tokens with every one whose hash is in `keys` revoked at `now`. */
  function RevokeKeys(tokens: map<string, RefreshToken>, keys: set<string>, now: int): map<string, RefreshToken> {
    map k | k in tokens :: if k in keys then Revoked(tokens[k], now) else tokens[k]
  }

  /** `revokeAll`: the user's active tokens are revoked and saved together,
      and their number returned; without any, nothing is saved. */
  function RevokeAllSpec(s: TokenStore, userId: int, now: int): (TokenStore, nat) {
    var active := ActiveKeys(s.tokens, userId);
    if active == {} then (s, 0)
    else (TokenStore(RevokeKeys(s.tokens, active, now), s.writes + [SaveAll(active)]), |active|)
  }

  /** Every token still there, each either unchanged or, if it was not
      revoked, revoked at `now`: the only change the lifecycle makes to a
      stored token. */
  ghost predicate OnlyRevokes(before: map<string, RefreshToken>, after: map<string, RefreshToken>, now: int) {
    forall k :: k in before ==>
      k in after && (after[k] == before[k] || (before[k].revokedAt.None? && after[k] == Revoked(before[k], now)))
  }

  /** The service, acting on its repository in place. */
  class RefreshTokenService {
    var tokens: map<string, RefreshToken>
    var writes: seq<Write>
    const refreshExpirationSeconds: int
    const hash: Hash

    function Store(): TokenStore
      reads this
    {
      TokenStore(tokens, writes)
    }

    /** A service over an empty repository. */
    constructor(refreshExpirationSeconds: int, hash: Hash)
      ensures Store() == TokenStore(map[], [])
      ensures this.refreshExpirationSeconds == refreshExpirationSeconds && this.hash == hash
    {
      tokens := map[];
      writes := [];
      this.refreshExpirationSeconds := refreshExpirationSeconds;
      this.hash := hash;
    }

    /** `issue`, with `rawToken` the freshly generated value; 64 random bytes
        do not collide with a stored token. */
    method Issue(user: User, userAgent: Option<string>, ipAddress: Option<string>, rawToken: string, now: int)
      returns (issued: string)
      requires GeneratedToken(rawToken) && hash(rawToken) !in tokens
      modifies this
      ensures Store() == IssueSpec(old(Store()), user, userAgent, ipAddress, rawToken, now, refreshExpirationSeconds, hash)
      ensures issued == rawToken
    {
      var entity := RefreshToken(user, now, now + refreshExpirationSeconds, None, userAgent, ipAddress);
      tokens := tokens[hash(rawToken) := entity];
      writes := writes + [Save(hash(rawToken))];
      issued := rawToken;
    }

    /** `refresh`, with `newToken` the value the new token is generated with
        and `accessTokenFor` the JWT signer. */
    method Refresh(rawToken: Option<string>, userAgent: Option<string>, ipAddress: Option<string>,
                   newToken: string, now: int, accessTokenFor: User -> string)
      returns (result: Result<RefreshResult, ErrorCode>)
      requires GeneratedToken(newToken) && hash(newToken) !in tokens
      modifies this
      ensures Outcome(Store(), result)
           == RefreshSpec(old(Store()), rawToken, userAgent, ipAddress, newToken, now, refreshExpirationSeconds,
                          hash, accessTokenFor)
    {
      var existing := RequireValid(tokens, hash, rawToken, now);
      if existing.Err? {
        return Err(existing.error);
      }
      var key := existing.value;
      var user := tokens[key].user;
      if !user.enabled {
        return Err(Forbidden);
      }
      tokens := tokens[key := Revoked(tokens[key], now)];
      writes := writes + [Save(key)];
      var refreshToken := Issue(user, userAgent, ipAddress, newToken, now);
      result := Ok(RefreshResult(accessTokenFor(user), refreshToken, user));
    }

    /** `revoke`. */
    method Revoke(rawToken: Option<string>, now: int) returns (result: Result<(), ErrorCode>)
      modifies this
      ensures Outcome(Store(), result) == RevokeSpec(old(Store()), rawToken, now, hash)
    {
      var token := RequireToken(tokens, hash, rawToken);
      if token.Err? {
        return Err(token.error);
      }
      var key := token.value;
      if tokens[key].revokedAt.Some? {
        return Ok(());
      }
      tokens := tokens[key := Revoked(tokens[key], now)];
      writes := writes + [Save(key)];
      result := Ok(());
    }

    /** `revokeAll`: each active token is revoked in turn, then all are saved
        at once. */
    method RevokeAll(userId: int, now: int) returns (count: nat)
      modifies this
      ensures (Store(), count) == RevokeAllSpec(old(Store()), userId, now)
    {
      var active := ActiveKeys(tokens, userId);
      if active == {} {
        return 0;
      }
      ghost var before := tokens;
      var remaining := active;
      while remaining != {}
        invariant remaining <= active
        invariant tokens == RevokeKeys(before, active - remaining, now)
        invariant writes == old(writes)
        decreases remaining
      {
        var key :| key in remaining;
        tokens := tokens[key := Revoked(tokens[key], now)];
        remaining := remaining - {key};
      }
      assert active - remaining == active;
      writes := writes + [SaveAll(active)];
      count := |active|;

    }
  }

  // ---------------------------------------------------------------------
  // Properties of the lifecycle.

  /** A token passes `requireValid` exactly when it is given, not blank after
      trimming, stored, not revoked, and expires at `now` or later. */
  lemma {:induction false} RequireValidIff(tokens: map<string, RefreshToken>, hash: Hash, rawToken: Option<string>, now: int)
    ensures RequireValid(tokens, hash, rawToken, now).Ok? <==>
      && rawToken.Some? && Trim(rawToken.value) != ""
      && hash(Trim(rawToken.value)) in tokens
      && tokens[hash(Trim(rawToken.value))].revokedAt.None?
      && now <= tokens[hash(Trim(rawToken.value))].expiresAt
  {
  }

  /** A revoked token is reported as revoked, even when it has also expired. */
  lemma {:induction false} RevokedBeforeExpired(tokens: map<string, RefreshToken>, hash: Hash, raw: string, now: int)
    requires Trim(raw) != "" && hash(Trim(raw)) in tokens && tokens[hash(Trim(raw))].revokedAt.Some?
    ensures RequireValid(tokens, hash, Some(raw), now) == Err(AuthRefreshRevoked)
  {
  }

  /** A generated token has nothing to trim. */
  lemma {:induction false} GeneratedTokenTrimmed(raw: string)
    requires GeneratedToken(raw)
    ensures Trim(raw) == raw
  {
    assert !IsTrimmable(raw[0]) && !IsTrimmable(raw[|raw| - 1]);
    assert raw[0..|raw|] == raw;
  }

  /** A freshly issued token is accepted by `requireValid` exactly until its
      expiry instant, that instant included. */
  lemma {:induction false} IssuedTokenValidUntilExpiry(s: TokenStore, user: User, userAgent: Option<string>, ipAddress: Option<string>,
                                    rawToken: string, now: int, expirySeconds: int, hash: Hash, later: int)
    requires GeneratedToken(rawToken)
    ensures RequireValid(IssueSpec(s, user, userAgent, ipAddress, rawToken, now, expirySeconds, hash).tokens,
                         hash, Some(rawToken), later).Ok?
            <==> later <= now + expirySeconds
  {
    GeneratedTokenTrimmed(rawToken);
  }

  /** A failed refresh changes nothing: no token is revoked, issued or saved. */
  lemma {:induction false} FailedRefreshChangesNothing(s: TokenStore, rawToken: Option<string>, userAgent: Option<string>,
                                    ipAddress: Option<string>, newToken: string, now: int, expirySeconds: int,
                                    hash: Hash, accessTokenFor: User -> string)
    ensures RefreshSpec(s, rawToken, userAgent, ipAddress, newToken, now, expirySeconds, hash, accessTokenFor).result.Err?
            ==> RefreshSpec(s, rawToken, userAgent, ipAddress, newToken, now, expirySeconds, hash, accessTokenFor).store == s
  {
  }

  /** A valid token of a disabled user is refused as forbidden and stays
      unrevoked. */
  lemma {:induction false} DisabledUserKeepsToken(s: TokenStore, rawToken: Option<string>, userAgent: Option<string>,
                               ipAddress: Option<string>, newToken: string, now: int, expirySeconds: int,
                               hash: Hash, accessTokenFor: User -> string)
    requires RequireValid(s.tokens, hash, rawToken, now).Ok?
    requires !s.tokens[RequireValid(s.tokens, hash, rawToken, now).value].user.enabled
    ensures RefreshSpec(s, rawToken, userAgent, ipAddress, newToken, now, expirySeconds, hash, accessTokenFor)
            == Outcome(s, Err(Forbidden))
  {
  }

  /** A successful refresh revokes the presented token at `now`, stores the
      new one for the same user, unrevoked and expiring `expirySeconds`
      later, saves exactly those two in that order, and returns the new
      token with an access token for that user. */
  lemma {:induction false} RefreshRotates(s: TokenStore, raw: string, userAgent: Option<string>, ipAddress: Option<string>,
                       newToken: string, now: int, expirySeconds: int, hash: Hash, accessTokenFor: User -> string)
    requires hash(newToken) !in s.tokens
    requires RefreshSpec(s, Some(raw), userAgent, ipAddress, newToken, now, expirySeconds, hash, accessTokenFor).result.Ok?
    ensures var after := RefreshSpec(s, Some(raw), userAgent, ipAddress, newToken, now, expirySeconds, hash, accessTokenFor);
            var presented := s.tokens[hash(Trim(raw))];
      && hash(Trim(raw)) in s.tokens
      && after.store.tokens == s.tokens[hash(Trim(raw)) := Revoked(presented, now)]
                                       [hash(newToken) := RefreshToken(presented.user, now, now + expirySeconds, None,
                                                                       userAgent, ipAddress)]
      && after.store.writes == s.writes + [Save(hash(Trim(raw))), Save(hash(newToken))]
      && after.result.value == RefreshResult(accessTokenFor(presented.user), newToken, presented.user)
      && presented.user.enabled
  {
  }

  /** Rotation makes a refresh token single-use: presenting it again after a
      successful refresh is refused as revoked and changes nothing. */
  lemma {:induction false} RefreshedTokenCannotBeReused(s: TokenStore, raw: string, userAgent: Option<string>, ipAddress: Option<string>,
                                     newToken: string, now: int, expirySeconds: int, hash: Hash,
                                     accessTokenFor: User -> string, newToken2: string, later: int)
    requires hash(newToken) != hash(Trim(raw))
    requires RefreshSpec(s, Some(raw), userAgent, ipAddress, newToken, now, expirySeconds, hash, accessTokenFor).result.Ok?
    ensures var after := RefreshSpec(s, Some(raw), userAgent, ipAddress, newToken, now, expirySeconds, hash, accessTokenFor).store;
      RefreshSpec(after, Some(raw), userAgent, ipAddress, newToken2, later, expirySeconds, hash, accessTokenFor)
        == Outcome(after, Err(AuthRefreshRevoked))
  {
  }

  /** Revoking twice is revoking once: the second call finds the token
      revoked (or the same error) and changes nothing, whatever its clock. */
  lemma {:induction false} RevokeIdempotent(s: TokenStore, rawToken: Option<string>, now: int, later: int, hash: Hash)
    ensures var first := RevokeSpec(s, rawToken, now, hash);
      RevokeSpec(first.store, rawToken, later, hash) == first
  {
  }

  /** After `revoke` succeeds the token is revoked, whether or not it already
      was, and only that token changed. */
  lemma {:induction false} RevokeRevokes(s: TokenStore, raw: string, now: int, hash: Hash)
    requires RevokeSpec(s, Some(raw), now, hash).result.Ok?
    ensures var after := RevokeSpec(s, Some(raw), now, hash).store;
      && hash(Trim(raw)) in after.tokens
      && after.tokens[hash(Trim(raw))].revokedAt.Some?
      && forall k :: k in s.tokens && k != hash(Trim(raw)) ==> k in after.tokens && after.tokens[k] == s.tokens[k]
  {
  }

  /** `revokeAll` leaves the user without an active token, returns how many
      it revoked, and leaves every other token as it was. */
  lemma {:induction false} RevokeAllRevokesActive(s: TokenStore, userId: int, now: int)
    ensures var (after, count) := RevokeAllSpec(s, userId, now);
      && ActiveKeys(after.tokens, userId) == {}
      && count == |ActiveKeys(s.tokens, userId)|
      && after.tokens.Keys == s.tokens.Keys
      && forall k :: k in s.tokens && !Active(s.tokens[k], userId) ==> after.tokens[k] == s.tokens[k]
  {
  }

  /** No operation removes a token or un-revokes one: each either leaves a
      stored token alone or revokes an unrevoked one at its own clock.
      Issuing adds a token and touches none. */
  lemma {:induction false} IssueOnlyAdds(s: TokenStore, user: User, userAgent: Option<string>, ipAddress: Option<string>,
                      newToken: string, now: int, expirySeconds: int, hash: Hash)
    requires hash(newToken) !in s.tokens
    ensures OnlyRevokes(s.tokens, IssueSpec(s, user, userAgent, ipAddress, newToken, now, expirySeconds, hash).tokens, now)
  {
  }

  /** Refreshing revokes at most the presented token and adds the new one. */
  lemma {:induction false} RefreshOnlyRevokes(s: TokenStore, rawToken: Option<string>, userAgent: Option<string>,
                           ipAddress: Option<string>, newToken: string, now: int, expirySeconds: int,
                           hash: Hash, accessTokenFor: User -> string)
    requires hash(newToken) !in s.tokens
    ensures OnlyRevokes(s.tokens, RefreshSpec(s, rawToken, userAgent, ipAddress, newToken, now, expirySeconds, hash,
                                              accessTokenFor).store.tokens, now)
  {
  }

  /** Revoking revokes at most the presented token. */
  lemma {:induction false} RevokeOnlyRevokes(s: TokenStore, rawToken: Option<string>, now: int, hash: Hash)
    ensures OnlyRevokes(s.tokens, RevokeSpec(s, rawToken, now, hash).store.tokens, now)
  {
  }

  /** Revoking all of a user's tokens revokes only unrevoked ones. */
  lemma {:induction false} RevokeAllOnlyRevokes(s: TokenStore, userId: int, now: int)
    ensures OnlyRevokes(s.tokens, RevokeAllSpec(s, userId, now).0.tokens, now)
  {
  }
}
