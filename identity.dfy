/**
 * The identity provider both apps talk to (ADAL and the Office 365
 * discovery service), as a scripted oracle: every call is logged, and its
 * reply is the next one of a script chosen by whoever uses the model. A
 * reply either throws or returns, and a returned reply may leave the token
 * cache changed. Properties proved for every script hold whatever the
 * provider does.
 */
module Identity {

  /** One entry of the token cache, as `TokenCache.ReadItems()` lists it; `expiresOn` is a point on the same integer clock as "now". */
  datatype TokenCacheItem = TokenCacheItem(resource: string, authority: string, clientId: string,
                                           displayableId: string, refreshToken: string, expiresOn: int)

  /** ADAL's prompt behaviour for an interactive acquisition. */
  datatype PromptBehavior = Auto | Always | Never | RefreshSession

  /** The calls the apps make, with their arguments. */
  datatype ProviderCall =
    | CreateDiscoveryContext
    | DiscoverResource(serviceResourceId: string)
    | AcquireTokenSilent(resource: string, clientId: string, userId: string)
    | AcquireTokenByRefreshToken(refreshToken: string, clientId: string, resource: string)
    | AcquireToken(authority: string, resource: string, clientId: string, returnUri: string, behavior: PromptBehavior)
    | Logout(account: string)

  /** What a call did: it threw, or it returned (a user id and an access token, where the call has them) with the cache left as `cache`. */
  datatype Reply =
    | Thrown
    | Returned(cache: seq<TokenCacheItem>, userId: string, accessToken: string)

  /** The provider as the apps see it: the token cache, the replies still to come, and the calls made so far. */
  datatype Provider = Provider(cache: seq<TokenCacheItem>, script: seq<Reply>, calls: seq<ProviderCall>)

  /** The next reply; a provider whose script is exhausted throws. */
  function NextReply(script: seq<Reply>): Reply
  {
    if script == [] then Thrown else script[0]
  }

  /** Make one call: log it, consume its reply, and take over the cache the reply leaves. */
  function Answer(p: Provider, c: ProviderCall): (r: (Provider, Reply))
    ensures r.0.calls == p.calls + [c]
    ensures r.1 == NextReply(p.script)
    ensures r.1.Thrown? ==> r.0.cache == p.cache
    ensures r.1.Returned? ==> r.0.cache == r.1.cache
  {
    var reply := NextReply(p.script);
    var script := if p.script == [] then [] else p.script[1..];
    var cache := if reply.Returned? then reply.cache else p.cache;
    (Provider(cache, script, p.calls + [c]), reply)
  }
}
