/**
 * `Office365Helper` of Office365RESTSamples: sign-in by token cache,
 * refresh or discovery, and logout. The static discovery context is
 * created on first use and reused; it is modelled by whether it exists.
 * The functions in this module state what each operation does to the
 * helper's state; the class's methods, written as the source's code is,
 * are proved to do exactly that.
 */
module Office365 {
  import opened Wrappers
  import opened Exceptions
  import opened LocalSettings
  import opened Identity

  /** The helper's state: the discovery context's client id, whether the context exists, the local settings, and the provider. */
  datatype HelperState = HelperState(clientId: string, contextReady: bool, settings: Settings, provider: Provider)

  /** The state an operation leaves, and what it returned or threw. */
  datatype Outcome<T> = Outcome(state: HelperState, result: Result<T, Exception>)

  /** What `GetTokenFromCache` throws when no cache item is for the stored resource. */
  const NotInCache: Exception := KeyNotFound("token")

  /** One provider call made from state `s`. */
  function Step(s: HelperState, c: ProviderCall): (HelperState, Reply)
  {
    var (p, reply) := Answer(s.provider, c);
    (s.(provider := p), reply)
  }

  /** `if (_discoveryContext == null) _discoveryContext = await DiscoveryContext.CreateAsync();` */
  function EnsureContext(s: HelperState): Outcome<()>
  {
    if s.contextReady then Outcome(s, Success(()))
    else
      var (s1, reply) := Step(s, CreateDiscoveryContext);
      if reply.Thrown? then Outcome(s1, Failure(ProviderFailure))
      else Outcome(s1.(contextReady := true), Success(()))
  }

  /**
   * The search of `GetTokenFromCache`: the first item, in cache order, whose
   * resource is the "ServiceResourceId" setting. The setting is read once
   * per item, so an empty cache never reads it.
   */
  function FindToken(cache: seq<TokenCacheItem>, settings: Settings): Result<TokenCacheItem, Exception>
  {
    if cache == [] then Failure(NotInCache)
    else
      var serviceResourceId :- Value(settings, "ServiceResourceId");
      if cache[0].resource == serviceResourceId then Success(cache[0]) else FindToken(cache[1..], settings)
  }

  /** `GetTokenFromCache`: make sure the context exists, then search the cache. */
  function GetToken(s: HelperState): Outcome<TokenCacheItem>
  {
    var o := EnsureContext(s);
    if o.result.Failure? then Outcome(o.state, Failure(o.result.error))
    else Outcome(o.state, FindToken(o.state.provider.cache, o.state.settings))
  }

  /** `catch (KeyNotFoundException)`: a miss becomes "no token", every other exception goes on. */
  function CatchNotFound(r: Result<TokenCacheItem, Exception>): Result<Option<TokenCacheItem>, Exception>
  {
    match r
    case Success(tci) => Success(Some(tci))
    case Failure(KeyNotFound(_)) => Success(None)
    case Failure(e) => Failure(e)
  }

  /** The `try` block of `SignIn`: a cached token, refreshed first when `ExpiresOn <= now`, or none. */
  function CachedPath(s: HelperState, now: int): Outcome<Option<TokenCacheItem>>
  {
    var o1 := GetToken(s);
    if o1.result.Failure? then Outcome(o1.state, CatchNotFound(o1.result))
    else
      var tci := o1.result.value;
      if tci.expiresOn <= now then
        var (s2, reply) := Step(o1.state, AcquireTokenByRefreshToken(tci.refreshToken, tci.clientId, tci.resource));
        if reply.Thrown? then Outcome(s2, Failure(ProviderFailure))
        else
          var o3 := GetToken(s2);
          Outcome(o3.state, CatchNotFound(o3.result))
      else Outcome(o1.state, Success(Some(tci)))
  }

  /** When the cache had no token: discover the resource, acquire silently for the discovered user, and read the cache again. */
  function DiscoveryPath(s: HelperState, serviceResourceId: string): Outcome<TokenCacheItem>
  {
    var (s1, found) := Step(s, DiscoverResource(serviceResourceId));
    if found.Thrown? then Outcome(s1, Failure(ProviderFailure))
    else
      var (s2, silent) := Step(s1, AcquireTokenSilent(serviceResourceId, s.clientId, found.userId));
      if silent.Thrown? then Outcome(s2, Failure(ProviderFailure))
      else GetToken(s2)
  }

  /** The settings written at the end of a sign-in. */
  function Record(settings: Settings, tci: TokenCacheItem): Settings
  {
    settings["UserAccount" := tci.displayableId]["ServiceResourceId" := tci.resource]
  }

  /** `SignIn(serviceResourceId)` at time `now`. */
  function SignInSpec(s: HelperState, serviceResourceId: string, now: int): Outcome<()>
  {
    var o0 := EnsureContext(s);
    if o0.result.Failure? then Outcome(o0.state, Failure(o0.result.error))
    else
      var o1 := CachedPath(o0.state, now);
      if o1.result.Failure? then Outcome(o1.state, Failure(o1.result.error))
      else
        var o2 := if o1.result.value.Some? then Outcome(o1.state, Success(o1.result.value.value))
                  else DiscoveryPath(o1.state, serviceResourceId);
        if o2.result.Failure? then Outcome(o2.state, Failure(o2.result.error))
        else Outcome(o2.state.(settings := Record(o2.state.settings, o2.result.value)), Success(()))
  }

  /** `Logout`: nothing without a stored account; otherwise log that account out, leaving the settings as they are. */
  function LogoutSpec(s: HelperState): Outcome<()>
  {
    if "UserAccount" !in s.settings then Outcome(s, Success(()))
    else
      var o := EnsureContext(s);
      if o.result.Failure? then o
      else
        var (s1, reply) := Step(o.state, Logout(s.settings["UserAccount"]));
        if reply.Thrown? then Outcome(s1, Failure(ProviderFailure)) else Outcome(s1, Success(()))
  }

  /** The static helper. */
  class Office365Helper {
    const clientId: string
    var contextReady: bool
    var settings: Settings
    var provider: Provider

    function State(): HelperState
      reads this
    {
      HelperState(clientId, contextReady, settings, provider)
    }

    /** The helper before any call: no discovery context yet. */
    constructor (clientId: string, settings: Settings, provider: Provider)
      ensures State() == HelperState(clientId, false, settings, provider)
    {
      this.clientId := clientId;
      this.contextReady := false;
      this.settings := settings;
      this.provider := provider;
    }

    method Call(c: ProviderCall) returns (reply: Reply)
      modifies this
      ensures (State(), reply) == Step(old(State()), c)
    {
      var (p, r) := Answer(provider, c);
      provider := p;
      reply := r;
    }

    method EnsureDiscoveryContext() returns (r: Result<(), Exception>)
      modifies this
      ensures Outcome(State(), r) == EnsureContext(old(State()))
    {
      if !contextReady {
        var reply := Call(CreateDiscoveryContext);
        if reply.Thrown? {
          return Failure(ProviderFailure);
        }
        contextReady := true;
      }
      r := Success(());
    }

    method GetTokenFromCache() returns (r: Result<TokenCacheItem, Exception>)
      modifies this
      ensures Outcome(State(), r) == GetToken(old(State()))
    {
      var ready := EnsureDiscoveryContext();
      if ready.Failure? {
        return Failure(ready.error);
      }
      var items := provider.cache;
      for i := 0 to |items|
        invariant FindToken(items, settings) == FindToken(items[i..], settings)
      {
        var serviceResourceId := Value(settings, "ServiceResourceId");
        if serviceResourceId.Failure? {
          return Failure(serviceResourceId.error);
        }
        if items[i].resource == serviceResourceId.value {
          return Success(items[i]);
        }
        assert items[i..][1..] == items[i + 1..];
      }
      r := Failure(NotInCache);
    }

    method SignIn(serviceResourceId: string, now: int) returns (r: Result<(), Exception>)
      modifies this
      ensures Outcome(State(), r) == SignInSpec(old(State()), serviceResourceId, now)
    {
      var ready := EnsureDiscoveryContext();
      if ready.Failure? {
        return Failure(ready.error);
      }
      ghost var s0 := State();
      var tokensFoundInCache := false;
      var tci: TokenCacheItem;
      var found := GetTokenFromCache();
      if found.Success? {
        tci := found.value;
        if tci.expiresOn <= now {
          var refreshed := Call(AcquireTokenByRefreshToken(tci.refreshToken, tci.clientId, tci.resource));
          if refreshed.Thrown? {
            return Failure(ProviderFailure);
          }
          found := GetTokenFromCache();
          if found.Success? {
            tci := found.value;
          }
        }
      }
      if found.Success? {
        tokensFoundInCache := true;
      } else if !found.error.KeyNotFound? {
        return Failure(found.error);
      }
      assert CachedPath(s0, now) == Outcome(State(), if tokensFoundInCache then Success(Some(tci)) else Success(None));
      if !tokensFoundInCache {
        var discovered := Call(DiscoverResource(serviceResourceId));
        if discovered.Thrown? {
          return Failure(ProviderFailure);
        }
        var silent := Call(AcquireTokenSilent(serviceResourceId, clientId, discovered.userId));
        if silent.Thrown? {
          return Failure(ProviderFailure);
        }
        var reread := GetTokenFromCache();
        if reread.Failure? {
          return Failure(reread.error);
        }
        tci := reread.value;
      }
      settings := settings["UserAccount" := tci.displayableId];
      settings := settings["ServiceResourceId" := tci.resource];
      r := Success(());
    }

    method Logout() returns (r: Result<(), Exception>)
      modifies this
      ensures Outcome(State(), r) == LogoutSpec(old(State()))
    {
      if "UserAccount" !in settings {
        return Success(());
      }
      var ready := EnsureDiscoveryContext();
      if ready.Failure? {
        return Failure(ready.error);
      }
      var reply := Call(ProviderCall.Logout(settings["UserAccount"]));
      if reply.Thrown? {
        return Failure(ProviderFailure);
      }
      r := Success(());
    }
  }

  /** `i` is the first position of the cache whose item is for `resource`. */
  ghost predicate FirstFor(cache: seq<TokenCacheItem>, resource: string, i: int)
  {
    0 <= i < |cache| && cache[i].resource == resource && forall j :: 0 <= j < i ==> cache[j].resource != resource
  }

  /**
   * The cache search finds the first item for the stored resource, in cache
   * order; it throws `NotInCache` when there is none (an empty cache
   * included), and a null dereference when items exist but no resource is
   * stored.
   */
  lemma {:induction false} FindTokenFirst(cache: seq<TokenCacheItem>, settings: Settings)
    ensures cache == [] ==> FindToken(cache, settings) == Failure(NotInCache)
    ensures cache != [] && "ServiceResourceId" !in settings ==>
              FindToken(cache, settings) == Failure(NullReference("ServiceResourceId"))
    ensures "ServiceResourceId" in settings ==>
              (FindToken(cache, settings).Success? <==>
                 exists i :: 0 <= i < |cache| && cache[i].resource == settings["ServiceResourceId"])
    ensures "ServiceResourceId" in settings && FindToken(cache, settings).Failure? ==>
              FindToken(cache, settings) == Failure(NotInCache)
    ensures FindToken(cache, settings).Success? ==>
              "ServiceResourceId" in settings &&
              exists i :: FirstFor(cache, settings["ServiceResourceId"], i) && FindToken(cache, settings).value == cache[i]
  {
    if cache != [] && "ServiceResourceId" in settings {
      var resource := settings["ServiceResourceId"];
      if cache[0].resource != resource {
        FindTokenFirst(cache[1..], settings);
        assert forall i :: 1 <= i < |cache| ==> cache[i] == cache[1..][i - 1];
        if FindToken(cache, settings).Success? {
          var i :| FirstFor(cache[1..], resource, i) && FindToken(cache, settings).value == cache[1..][i];
          assert FirstFor(cache, resource, i + 1);
        }
      } else {
        assert FirstFor(cache, resource, 0);
      }
    }
  }

  /** A token the search returns is in the cache and is for the stored resource. */
  lemma FoundIsCached(cache: seq<TokenCacheItem>, settings: Settings)
    requires FindToken(cache, settings).Success?
    ensures "ServiceResourceId" in settings
    ensures FindToken(cache, settings).value in cache
    ensures FindToken(cache, settings).value.resource == settings["ServiceResourceId"]
  {
    FindTokenFirst(cache, settings);
  }

  /** Whatever these do to the provider, they keep the client id and the settings, only append calls, and keep a context that exists. */
  ghost predicate Follows(s: HelperState, t: HelperState)
  {
    t.clientId == s.clientId && t.settings == s.settings &&
    s.provider.calls <= t.provider.calls && (s.contextReady ==> t.contextReady)
  }

  /** No call from position `from` on creates a discovery context. */
  ghost predicate NoCreationFrom(calls: seq<ProviderCall>, from: nat)
  {
    forall i :: from <= i < |calls| ==> !calls[i].CreateDiscoveryContext?
  }

  lemma EnsureContextFollows(s: HelperState)
    ensures Follows(s, EnsureContext(s).state)
    ensures EnsureContext(s).result.Success? ==> EnsureContext(s).state.contextReady
    ensures s.contextReady ==> EnsureContext(s) == Outcome(s, Success(()))
    ensures NoCreationFrom(EnsureContext(s).state.provider.calls, |s.provider.calls| + 1)
  {
  }

  /** With the context in place, reading the cache makes no call and changes nothing. */
  lemma GetTokenReady(s: HelperState)
    requires s.contextReady
    ensures GetToken(s) == Outcome(s, FindToken(s.provider.cache, s.settings))
  {
  }

  /**
   * A sign-in that finds a token that has not expired (its `ExpiresOn` is
   * after now) makes no provider call and only records the token's account
   * and resource.
   */
  lemma FreshTokenNoCall(s: HelperState, serviceResourceId: string, now: int)
    requires s.contextReady
    requires FindToken(s.provider.cache, s.settings).Success?
    requires FindToken(s.provider.cache, s.settings).value.expiresOn > now
    ensures SignInSpec(s, serviceResourceId, now) ==
              Outcome(s.(settings := Record(s.settings, FindToken(s.provider.cache, s.settings).value)), Success(()))
  {
    GetTokenReady(s);
  }

  /**
   * A token that expires now or earlier is refreshed first: the next call
   * exchanges that item's own refresh token, client id and resource. When
   * the exchange throws, the sign-in fails without changing the settings.
   */
  lemma ExpiredTokenRefreshes(s: HelperState, serviceResourceId: string, now: int)
    requires s.contextReady
    requires FindToken(s.provider.cache, s.settings).Success?
    requires FindToken(s.provider.cache, s.settings).value.expiresOn <= now
    ensures var tci := FindToken(s.provider.cache, s.settings).value;
            var calls := SignInSpec(s, serviceResourceId, now).state.provider.calls;
            |calls| > |s.provider.calls| && calls[..|s.provider.calls|] == s.provider.calls &&
            calls[|s.provider.calls|] == AcquireTokenByRefreshToken(tci.refreshToken, tci.clientId, tci.resource)
    ensures NextReply(s.provider.script).Thrown? ==>
              SignInSpec(s, serviceResourceId, now).result == Failure(ProviderFailure) &&
              SignInSpec(s, serviceResourceId, now).state.settings == s.settings
  {
    GetTokenReady(s);
    var tci := FindToken(s.provider.cache, s.settings).value;
    var (s2, reply) := Step(s, AcquireTokenByRefreshToken(tci.refreshToken, tci.clientId, tci.resource));
    if reply.Returned? {
      var o3 := GetToken(s2);
      GetTokenReady(s2);
      if o3.result.Failure? && o3.result.error.KeyNotFound? {
        DiscoveryFollows(o3.state, serviceResourceId);
      }
    }
  }

  /**
   * A sign-in whose cache has no token for the stored resource discovers
   * the given resource, then acquires a token silently for the user the
   * discovery returned, and then only reads the cache.
   */
  lemma CacheMissDiscovers(s: HelperState, serviceResourceId: string, now: int)
    requires s.contextReady
    requires FindToken(s.provider.cache, s.settings) == Failure(NotInCache)
    ensures var first := NextReply(s.provider.script);
            SignInSpec(s, serviceResourceId, now).state.provider.calls ==
              s.provider.calls + [DiscoverResource(serviceResourceId)] +
              (if first.Returned? then [AcquireTokenSilent(serviceResourceId, s.clientId, first.userId)] else [])
    ensures NextReply(s.provider.script).Thrown? ==> SignInSpec(s, serviceResourceId, now).result == Failure(ProviderFailure)
  {
    GetTokenReady(s);
    var (s1, found) := Step(s, DiscoverResource(serviceResourceId));
    if found.Returned? {
      var (s2, silent) := Step(s1, AcquireTokenSilent(serviceResourceId, s.clientId, found.userId));
      if silent.Returned? {
        GetTokenReady(s2);
      }
    }
  }

  lemma DiscoveryFollows(s: HelperState, serviceResourceId: string)
    requires s.contextReady
    ensures Follows(s, DiscoveryPath(s, serviceResourceId).state)
    ensures NoCreationFrom(DiscoveryPath(s, serviceResourceId).state.provider.calls, |s.provider.calls|)
    ensures DiscoveryPath(s, serviceResourceId).result.Success? ==>
              FindToken(DiscoveryPath(s, serviceResourceId).state.provider.cache, s.settings) ==
                DiscoveryPath(s, serviceResourceId).result
  {
    var (s1, found) := Step(s, DiscoverResource(serviceResourceId));
    if found.Returned? {
      var (s2, silent) := Step(s1, AcquireTokenSilent(serviceResourceId, s.clientId, found.userId));
      if silent.Returned? {
        GetTokenReady(s2);
      }
    }
  }

  lemma CachedPathFollows(s: HelperState, now: int)
    requires s.contextReady
    ensures Follows(s, CachedPath(s, now).state)
    ensures NoCreationFrom(CachedPath(s, now).state.provider.calls, |s.provider.calls|)
    ensures CachedPath(s, now).result.Success? && CachedPath(s, now).result.value.Some? ==>
              FindToken(CachedPath(s, now).state.provider.cache, s.settings) == Success(CachedPath(s, now).result.value.value)
  {
    GetTokenReady(s);
    var o1 := GetToken(s);
    if o1.result.Success? {
      var tci := o1.result.value;
      if tci.expiresOn <= now {
        var (s2, reply) := Step(o1.state, AcquireTokenByRefreshToken(tci.refreshToken, tci.clientId, tci.resource));
        if reply.Returned? {
          GetTokenReady(s2);
        }
      }
    }
  }

  /**
   * What a sign-in leaves behind. It creates the discovery context only if
   * there was none, as its first call, and never again; a context that
   * exists stays. When it succeeds, a "ServiceResourceId" was stored and
   * still is, unchanged, and "UserAccount" is the account of a token in the
   * cache for that resource; every other setting is kept. When it fails,
   * no setting changes; in particular it always fails when no resource is
   * stored.
   */
  lemma SignInEffects(s: HelperState, serviceResourceId: string, now: int)
    ensures var o := SignInSpec(s, serviceResourceId, now);
            s.provider.calls <= o.state.provider.calls &&
            NoCreationFrom(o.state.provider.calls, if s.contextReady then |s.provider.calls| else |s.provider.calls| + 1) &&
            (s.contextReady ==> o.state.contextReady) && (o.result.Success? ==> o.state.contextReady)
    ensures var o := SignInSpec(s, serviceResourceId, now);
            o.result.Success? ==>
              "ServiceResourceId" in s.settings && "UserAccount" in o.state.settings &&
              o.state.settings == s.settings["UserAccount" := o.state.settings["UserAccount"]] &&
              exists tci :: tci in o.state.provider.cache && tci.resource == s.settings["ServiceResourceId"] &&
                            tci.displayableId == o.state.settings["UserAccount"]
    ensures var o := SignInSpec(s, serviceResourceId, now);
            o.result.Failure? ==> o.state.settings == s.settings
    ensures "ServiceResourceId" !in s.settings ==> SignInSpec(s, serviceResourceId, now).result.Failure?
  {
    var o0 := EnsureContext(s);
    EnsureContextFollows(s);
    if o0.result.Success? {
      var s0 := o0.state;
      var o1 := CachedPath(s0, now);
      CachedPathFollows(s0, now);
      if o1.result.Success? {
        var o2 := if o1.result.value.Some? then Outcome(o1.state, Success(o1.result.value.value))
                  else DiscoveryPath(o1.state, serviceResourceId);
        if o1.result.value.None? {
          DiscoveryFollows(o1.state, serviceResourceId);
        }
        assert Follows(s, o2.state) && o2.state.contextReady;
        assert NoCreationFrom(o2.state.provider.calls, if s.contextReady then |s.provider.calls| else |s.provider.calls| + 1);
        if o2.result.Success? {
          var tci := o2.result.value;
          assert FindToken(o2.state.provider.cache, s.settings) == Success(tci);
          FoundIsCached(o2.state.provider.cache, s.settings);
          var recorded := Record(s.settings, tci);
          assert recorded == s.settings["UserAccount" := tci.displayableId];
        }
      }
    }
  }

  /**
   * `Logout` with no stored account does nothing at all. With one, it logs
   * exactly that account out, as its last call, and leaves every setting,
   * "UserAccount" included, as it was.
   */
  lemma LogoutEffects(s: HelperState)
    ensures "UserAccount" !in s.settings ==> LogoutSpec(s) == Outcome(s, Success(()))
    ensures LogoutSpec(s).state.settings == s.settings
    ensures "UserAccount" in s.settings && EnsureContext(s).result.Success? ==>
              LogoutSpec(s).state.provider.calls ==
                EnsureContext(s).state.provider.calls + [ProviderCall.Logout(s.settings["UserAccount"])]
  {
  }
}
