/**
 * `AuthenticationHelper` of Office365RESTAPIExplorer: interactive token
 * acquisition against the authority that sourced the cached tokens, or
 * the multi-tenant common authority when the cache is empty. The static
 * `AuthenticationContext` is modelled by the authority it is bound to,
 * None before the first acquisition.
 */
module Authentication {
  import opened Wrappers
  import opened Exceptions
  import opened Identity

  /** The access token and user id of a successful acquisition. */
  datatype AuthenticationResult = AuthenticationResult(accessToken: string, userId: string)

  /** The authority acquisition goes to: the first cached item's, else the common one. */
  function Authority(cache: seq<TokenCacheItem>, commonAuthority: string): string
  {
    if |cache| > 0 then cache[0].authority else commonAuthority
  }

  /** The provider's reply, returned as it is: its token and user on success, its exception otherwise. */
  function AcquisitionResult(reply: Reply): (r: Result<AuthenticationResult, Exception>)
    ensures r.Success? <==> reply.Returned?
    ensures r.Success? ==> r.value.accessToken == reply.accessToken && r.value.userId == reply.userId
  {
    if reply.Thrown? then Failure(ProviderFailure) else Success(AuthenticationResult(reply.accessToken, reply.userId))
  }

  class AuthenticationHelper {
    /** `ida:ClientID` of the application's resources. */
    const clientId: string
    /** The application's callback URI. */
    const returnUri: string
    /** `ida:AuthorizationUri` of the application's resources. */
    const authorizationUri: string
    var authenticationContext: Option<string>
    var provider: Provider

    /** `CommonAuthority`: the configured authorization URI followed by "/Common". */
    function CommonAuthority(): string
    {
      authorizationUri + "/Common"
    }

    constructor (clientId: string, returnUri: string, authorizationUri: string, provider: Provider)
      ensures this.clientId == clientId && this.returnUri == returnUri && this.authorizationUri == authorizationUri
      ensures authenticationContext == None && this.provider == provider
    {
      this.clientId := clientId;
      this.returnUri := returnUri;
      this.authorizationUri := authorizationUri;
      this.authenticationContext := None;
      this.provider := provider;
    }

    /**
     * `EnsureAccessTokenAvailableAsync(serviceResourceId, behavior)`: bind
     * the context to the common authority, rebind it to the authority of the
     * first cached item when the cache is not empty, and acquire through it,
     * passing the resource, client id, return URI and prompt behaviour as
     * they are. The context stays bound to the authority used.
     */
    method EnsureAccessTokenAvailable(serviceResourceId: string, behavior: PromptBehavior)
      returns (r: Result<AuthenticationResult, Exception>)
      modifies this
      ensures old(provider.cache) == [] ==> authenticationContext == Some(CommonAuthority())
      ensures old(provider.cache) != [] ==> authenticationContext == Some(old(provider.cache[0].authority))
      ensures authenticationContext == Some(Authority(old(provider.cache), CommonAuthority()))
      ensures (provider, NextReply(old(provider.script))) ==
                Answer(old(provider), AcquireToken(authenticationContext.value, serviceResourceId, clientId, returnUri, behavior))
      ensures r == AcquisitionResult(NextReply(old(provider.script)))
    {
      authenticationContext := Some(CommonAuthority());
      if |provider.cache| > 0 {
        var cachedAuthority := provider.cache[0].authority;
        authenticationContext := Some(cachedAuthority);
      }
      var (p, reply) := Answer(provider, AcquireToken(authenticationContext.value, serviceResourceId, clientId, returnUri, behavior));
      provider := p;
      r := AcquisitionResult(reply);
    }
  }
}
