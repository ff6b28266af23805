/** The two request helpers of `AuthController`: choosing the refresh token
    a request presents, and the client address recorded with a new token. */
module AuthController {
  import opened Wrappers
  import opened JavaStrings

  /** `RefreshTokenRequestDTO`: a JSON body whose token may be null. */
  datatype RefreshTokenRequest = RefreshTokenRequest(refreshToken: Option<string>)

  /** `resolveRefreshToken`: the `refresh_token` cookie when it is not blank,
      else the body's token when that is not blank, else null. */
  function ResolveRefreshToken(cookie: Option<string>, body: Option<RefreshTokenRequest>): (r: Option<string>)
    ensures r.Some? ==> !IsBlank(r.value)
    ensures HasText(cookie) ==> r == cookie
    ensures !HasText(cookie) && body.Some? && HasText(body.value.refreshToken) ==> r == body.value.refreshToken
    ensures r.None? <==> !HasText(cookie) && (body.None? || !HasText(body.value.refreshToken))
  {
    if HasText(cookie) then cookie
    else if body.Some? && HasText(body.value.refreshToken) then body.value.refreshToken
    else None
  }

  /** `resolveIp`: with a non-blank `X-Forwarded-For` header, the first
      entry of its list (when a comma follows a non-empty first entry) or
      else the whole header, trimmed; without one, the socket's address. */
  function ResolveIp(forwarded: Option<string>, remoteAddr: string): (r: string)
    ensures !HasText(forwarded) ==> r == remoteAddr
    ensures HasText(forwarded) ==> exists i, j :: 0 <= i <= j <= |forwarded.value| && r == forwarded.value[i..j]
    ensures HasText(forwarded) ==> r == "" || (!IsTrimmable(r[0]) && !IsTrimmable(r[|r| - 1]))
  {
    if HasText(forwarded) then
      var comma := IndexOf(forwarded.value, ',');
      var entry := if comma > 0 then forwarded.value[..comma] else forwarded.value;
      assert (Trim(entry) == "" || (!IsTrimmable(Trim(entry)[0]) && !IsTrimmable(Trim(entry)[|Trim(entry)| - 1])))
             && exists i, j :: 0 <= i <= j <= |forwarded.value| && Trim(entry) == forwarded.value[i..j] by {
        TrimProperties(entry);
        var i, j :| 0 <= i <= j <= |entry| && Trim(entry) == entry[i..j];
        assert entry[i..j] == forwarded.value[i..j];
      }
      Trim(entry)
    else remoteAddr
  }

  /** A missing or blank header falls back to the remote address; a
      header without a comma, or starting with one, is taken whole, trimmed. */
  lemma {:induction false} ResolveIpWhole(forwarded: Option<string>, remoteAddr: string)
    ensures !HasText(forwarded) ==> ResolveIp(forwarded, remoteAddr) == remoteAddr
    ensures HasText(forwarded) && IndexOf(forwarded.value, ',') <= 0 ==>
              ResolveIp(forwarded, remoteAddr) == Trim(forwarded.value)
  {
  }

  /** With a comma after a non-empty first entry, the address is that entry,
      trimmed: a trimmed piece of the header before its first comma, so it
      contains no comma. */
  lemma {:induction false} ResolveIpFirstHop(forwarded: string, remoteAddr: string, k: nat)
    requires !IsBlank(forwarded) && 0 < k < |forwarded| && forwarded[k] == ',' && ',' !in forwarded[..k]
    ensures ResolveIp(Some(forwarded), remoteAddr) == Trim(forwarded[..k])
    ensures ',' !in ResolveIp(Some(forwarded), remoteAddr)
    ensures var r := ResolveIp(Some(forwarded), remoteAddr);
              r == "" || (!IsTrimmable(r[0]) && !IsTrimmable(r[|r| - 1]))
  {
    assert IndexOf(forwarded, ',') == k;
    TrimProperties(forwarded[..k]);
    var i, j :| 0 <= i <= j <= k && Trim(forwarded[..k]) == forwarded[..k][i..j];
    assert forall c :: c in forwarded[..k][i..j] ==> c in forwarded[..k];
  }

  /** A header listing a client address and then the proxies resolves to
      that client address, whatever follows the first comma. */
  lemma {:induction false} ResolveIpClientFirst(client: string, proxies: string, remoteAddr: string)
    requires |client| > 0 && ',' !in client
    requires !IsTrimmable(client[0]) && !IsTrimmable(client[|client| - 1])
    ensures ResolveIp(Some(client + "," + proxies), remoteAddr) == client
  {
    var f := client + "," + proxies;
    assert f[|client|] == ',' && !IsWhitespace(f[|client|]);
    assert f[..|client|] == client;
    ResolveIpFirstHop(f, remoteAddr, |client|);
    assert client[0..|client|] == client;
  }
}
