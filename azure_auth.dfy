/** The authorizer chain of `AzureAuthorizerConfig.Authorizer`: environment
    client credentials, then settings-file client credentials, then Azure CLI
    cached tokens for the tenant's authority, then the managed identity (MSI).
    Also the default-subscription lookup and the token helpers
    (`sptTest`, `tokenToAuthorizer`, `msiToAuthorizer`). */
module AzureAuth {
  import opened Wrappers
  import opened GoStrings
  import opened AzureTypes

  /** `AzureAuthorizerConfig`, without its logger. */
  datatype AuthorizerConfig = AuthorizerConfig(tenantId: string)

  // ---------------------------------------------------------------------
  // Token helpers

  /** `sptTest`: refresh the token; on success wrap it in a bearer authorizer. */
  function SptTest(spt: ServicePrincipalToken, src: AuthSources): (r: Result<Authorizer, Error>)
    ensures r.Success? <==> src.ensureFresh(spt).None?
    ensures r.Success? ==> r.value == Bearer(spt)
    ensures r.Failure? ==> r.error == src.ensureFresh(spt).value
  {
    match src.ensureFresh(spt)
    case Some(e) => Failure(e)
    case None => Success(Bearer(spt))
  }

  /** Build a token, then test it. */
  function NewAndTest(spt: ServicePrincipalToken, src: AuthSources): (r: Result<Authorizer, Error>)
    ensures r.Success? <==> src.newToken(spt).None? && src.ensureFresh(spt).None?
    ensures r.Success? ==> r.value == Bearer(spt)
  {
    match src.newToken(spt)
    case Some(e) => Failure(e)
    case None => SptTest(spt, src)
  }

  /** `tokenToAuthorizer`: a cached CLI token becomes a bearer authorizer over
      a manual token when it converts and refreshes. */
  function TokenToAuthorizer(t: CachedToken, src: AuthSources): (r: Result<Authorizer, Error>)
    ensures r.Success? <==> src.newToken(ManualToken(t)).None? && src.ensureFresh(ManualToken(t)).None?
    ensures r.Success? ==> r.value == Bearer(ManualToken(t))
  {
    NewAndTest(ManualToken(t), src)
  }

  /** The token `msiToAuthorizer` asks for: the system-assigned identity when
      no client id is configured, the user-assigned one named by the client id
      otherwise. */
  function MsiRequest(msiEndpoint: string, mc: MsiConfig): (spt: ServicePrincipalToken)
    ensures spt.MsiUserAssignedToken? <==> mc.clientId != ""
    ensures spt.MsiToken? <==> mc.clientId == ""
    ensures spt.MsiUserAssignedToken? ==> spt.clientId == mc.clientId
    ensures spt.resource == mc.resource && spt.msiEndpoint == msiEndpoint
  {
    if mc.clientId == "" then MsiToken(msiEndpoint, mc.resource)
    else MsiUserAssignedToken(msiEndpoint, mc.resource, mc.clientId)
  }

  /** `msiToAuthorizer`: succeeds exactly when the MSI endpoint is found and
      the requested identity's token is built and refreshed. */
  function MsiToAuthorizer(mc: MsiConfig, src: AuthSources): (r: Result<Authorizer, Error>)
    ensures src.msiEndpoint.Failure? ==> r == Failure(src.msiEndpoint.error)
    ensures r.Success? <==>
      src.msiEndpoint.Success? &&
      src.newToken(MsiRequest(src.msiEndpoint.value, mc)).None? &&
      src.ensureFresh(MsiRequest(src.msiEndpoint.value, mc)).None?
    ensures r.Success? ==> r.value == Bearer(MsiRequest(src.msiEndpoint.value, mc))
  {
    match src.msiEndpoint
    case Failure(e) => Failure(e)
    case Success(endpoint) => NewAndTest(MsiRequest(endpoint, mc), src)
  }

  // ---------------------------------------------------------------------
  // Default subscription

  /** The first subscription flagged as default, if any. */
  function FirstDefault(subs: seq<Subscription>): (r: Option<Subscription>)
    ensures r.None? <==> forall i | 0 <= i < |subs| :: !subs[i].isDefault
    ensures r.Some? ==> r.value.isDefault && r.value in subs
  {
    if |subs| == 0 then None
    else if subs[0].isDefault then Some(subs[0])
    else FirstDefault(subs[1..])
  }

  /** `FirstDefault` picks the earliest flagged entry, not merely some
      flagged entry. */
  lemma {:induction false} FirstDefaultIsEarliest(subs: seq<Subscription>, i: int)
    requires 0 <= i < |subs| && subs[i].isDefault
    requires forall j | 0 <= j < i :: !subs[j].isDefault
    ensures FirstDefault(subs) == Some(subs[i])
  {
    if i > 0 {
      FirstDefaultIsEarliest(subs[1..], i - 1);
    }
  }

  /** `azureDefaultSubscription`: the profile's first default subscription;
      an unreadable profile passes its error on, and a profile with no default
      entry is an error (never a fall-back to the first entry). */
  function AzureDefaultSubscription(profile: Result<seq<Subscription>, Error>): (r: Result<Subscription, Error>)
    ensures profile.Failure? ==> r == Failure(profile.error)
    ensures r.Success? ==> profile.Success? && r.value.isDefault && r.value in profile.value
    ensures profile.Success? && (forall i | 0 <= i < |profile.value| :: !profile.value[i].isDefault) ==>
      r == Failure(NoDefaultSubscription)
    ensures profile.Success? && FirstDefault(profile.value).Some? ==> r == Success(FirstDefault(profile.value).value)
  {
    match profile
    case Failure(e) => Failure(e)
    case Success(subs) =>
      match FirstDefault(subs)
      case Some(s) => Success(s)
      case None => Failure(NoDefaultSubscription)
  }

  // ---------------------------------------------------------------------
  // Cached CLI tokens

  /** What the scan of the cached tokens ends with: an authorizer from the
      first matching token that converts, no matching token at all, or the
      conversion error of the last matching token when none converts. */
  datatype TokenScan = Found(authorizer: Authorizer) | NoMatch | AllFailed(last: Error)

  /** The scan's outcome given a pending conversion error from earlier
      tokens and the outcome over the remaining ones. */
  function Resume(pending: Option<Error>, rest: TokenScan): TokenScan
  {
    if rest.NoMatch? && pending.Some? then AllFailed(pending.value) else rest
  }

  /** The scan of the cached tokens for `authority`: an authorizer found
      comes from a token with that authority, and so does a reported
      conversion error. */
  function ScanTokens(tokens: seq<CachedToken>, authority: string, src: AuthSources): (r: TokenScan)
    ensures r.Found? ==> exists t | t in tokens :: t.authority == authority && r.authorizer == Bearer(ManualToken(t))
    ensures r.AllFailed? ==> exists t | t in tokens :: t.authority == authority && TokenToAuthorizer(t, src) == Failure(r.last)
  {
    if |tokens| == 0 then NoMatch
    else if tokens[0].authority != authority then ScanTokens(tokens[1..], authority, src)
    else
      match TokenToAuthorizer(tokens[0], src)
      case Success(a) => Found(a)
      case Failure(e) => Resume(Some(e), ScanTokens(tokens[1..], authority, src))
  }

  /** The first matching token that converts wins, whatever failed before it. */
  lemma {:induction false} ScanFindsFirstConverting(tokens: seq<CachedToken>, authority: string, src: AuthSources, i: int)
    requires 0 <= i < |tokens| && tokens[i].authority == authority
    requires TokenToAuthorizer(tokens[i], src).Success?
    requires forall j | 0 <= j < i :: tokens[j].authority == authority ==> TokenToAuthorizer(tokens[j], src).Failure?
    ensures ScanTokens(tokens, authority, src) == Found(Bearer(ManualToken(tokens[i])))
  {
    if i > 0 {
      ScanFindsFirstConverting(tokens[1..], authority, src, i - 1);
    }
  }

  /** The scan reports no match exactly when no token carries the authority. */
  lemma {:induction false} ScanNoMatch(tokens: seq<CachedToken>, authority: string, src: AuthSources)
    ensures ScanTokens(tokens, authority, src) == NoMatch <==>
      forall j | 0 <= j < |tokens| :: tokens[j].authority != authority
  {
    if |tokens| > 0 {
      ScanNoMatch(tokens[1..], authority, src);
      if tokens[0].authority != authority {
        assert forall j | 0 <= j < |tokens| - 1 :: tokens[1..][j] == tokens[j + 1];
      }
    }
  }

  /** When matching tokens exist but none converts, the error reported is the
      conversion error of the last matching token. */
  lemma {:induction false} ScanReportsLastFailure(tokens: seq<CachedToken>, authority: string, src: AuthSources, i: int)
    requires 0 <= i < |tokens| && tokens[i].authority == authority
    requires forall j | 0 <= j < |tokens| :: tokens[j].authority == authority ==> TokenToAuthorizer(tokens[j], src).Failure?
    requires forall j | i < j < |tokens| :: tokens[j].authority != authority
    ensures ScanTokens(tokens, authority, src) == AllFailed(TokenToAuthorizer(tokens[i], src).error)
  {
    if i == 0 {
      ScanNoMatch(tokens[1..], authority, src);
    } else {
      ScanReportsLastFailure(tokens[1..], authority, src, i - 1);
    }
  }

  // ---------------------------------------------------------------------
  // The chain

  /** One source of the chain: either it lets the chain go on, or it decides
      the chain's outcome (a success, or a fatal error). */
  datatype Step = Continue | Decide(outcome: Result<Authorizer, Error>)

  /** The outcome of the first deciding step, or the fallback when every
      step lets the chain go on. */
  function RunChain(steps: seq<Step>, fallback: Result<Authorizer, Error>): Result<Authorizer, Error>
  {
    if |steps| == 0 then fallback
    else if steps[0].Decide? then steps[0].outcome
    else RunChain(steps[1..], fallback)
  }

  lemma {:induction false} RunChainFirstDecision(steps: seq<Step>, fallback: Result<Authorizer, Error>, i: int)
    requires 0 <= i < |steps| && steps[i].Decide?
    requires forall j | 0 <= j < i :: steps[j].Continue?
    ensures RunChain(steps, fallback) == steps[i].outcome
  {
    if i > 0 {
      RunChainFirstDecision(steps[1..], fallback, i - 1);
    }
  }

  lemma {:induction false} RunChainFallsThrough(steps: seq<Step>, fallback: Result<Authorizer, Error>)
    requires forall j | 0 <= j < |steps| :: steps[j].Continue?
    ensures RunChain(steps, fallback) == fallback
  {
    if |steps| > 0 {
      RunChainFallsThrough(steps[1..], fallback);
    }
  }

  /** The tenant the chain works for: the configured one, or else the
      default subscription's ("" when there is none; the chain has stopped
      with an error then). */
  function ResolvedTenant(c: AuthorizerConfig, src: AuthSources): string
  {
    if c.tenantId != "" then c.tenantId
    else
      match AzureDefaultSubscription(src.profile)
      case Success(s) => s.tenantId
      case Failure(_) => ""
  }

  /** The environment settings (empty when they could not be read; the chain
      has stopped with an error then). */
  function EnvOf(src: AuthSources): EnvSettings
  {
    if src.envSettings.Success? then src.envSettings.value else EnvSettings(map[], Cloud("", ""))
  }

  /** The settings map after the chain fills in the resource and the Active
      Directory endpoint from the cloud where they are empty. */
  function FillDefaults(env: EnvSettings): (m: map<string, string>)
    ensures Lookup(env.values, ResourceKey) == "" ==> Lookup(m, ResourceKey) == env.cloud.resourceManagerEndpoint
    ensures Lookup(env.values, ActiveDirectoryKey) == "" ==>
      Lookup(m, ActiveDirectoryKey) == env.cloud.activeDirectoryEndpoint
    ensures forall k | Lookup(env.values, k) != "" :: Lookup(m, k) == Lookup(env.values, k)
    ensures forall k | k != ResourceKey && k != ActiveDirectoryKey :: Lookup(m, k) == Lookup(env.values, k)
  {
    var m1 := if Lookup(env.values, ResourceKey) == "" then env.values[ResourceKey := env.cloud.resourceManagerEndpoint]
              else env.values;
    if Lookup(m1, ActiveDirectoryKey) == "" then m1[ActiveDirectoryKey := env.cloud.activeDirectoryEndpoint] else m1
  }

  /** `env.GetMSI()`, read after the defaults are filled in. */
  function GetMsi(values: map<string, string>): MsiConfig
  {
    MsiConfig(Lookup(values, ResourceKey), Lookup(values, ClientIdKey))
  }

  /** The authority cached tokens must carry: the Active Directory endpoint
      without surrounding slashes, a slash, and the tenant. */
  function Authority(values: map<string, string>, tenant: string): (a: string)
    ensures |a| > |tenant| && a[|a| - |tenant|..] == tenant && a[|a| - |tenant| - 1] == '/'
    ensures var endpoint := a[..|a| - |tenant| - 1];
      && endpoint == Trim(Lookup(values, ActiveDirectoryKey), '/')
      && (endpoint == [] || (endpoint[0] != '/' && endpoint[|endpoint| - 1] != '/'))
  {
    Trim(Lookup(values, ActiveDirectoryKey), '/') + "/" + tenant
  }

  /** The cached-token source: no token path lets the chain go on; an
      unreadable token file is fatal; otherwise the scan decides unless no
      token matched. */
  function CachedTokenStep(authority: string, src: AuthSources): (step: Step)
    ensures src.tokensPath.Failure? ==> step == Continue
    ensures src.tokensPath.Success? && src.loadTokens(src.tokensPath.value).Failure? ==>
      step == Decide(Failure(src.loadTokens(src.tokensPath.value).error))
    ensures src.tokensPath.Success? && src.loadTokens(src.tokensPath.value).Success? ==>
      (step == Continue <==> forall t | t in src.loadTokens(src.tokensPath.value).value :: t.authority != authority)
  {
    match src.tokensPath
    case Failure(_) => Continue
    case Success(path) =>
      match src.loadTokens(path)
      case Failure(e) => Decide(Failure(e))
      case Success(tokens) =>
        ScanNoMatch(tokens, authority, src);
        match ScanTokens(tokens, authority, src)
        case Found(a) => Decide(Success(a))
        case AllFailed(e) => Decide(Failure(e))
        case NoMatch => Continue
  }

  /** The chain's sources in order: the tenant lookup, reading the
      environment settings, environment credentials, settings-file
      credentials and the cached tokens; MSI is the fallback. */
  function AuthorizerSteps(c: AuthorizerConfig, src: AuthSources): seq<Step>
  {
    var tenant := if c.tenantId == "" && AzureDefaultSubscription(src.profile).Failure?
                  then Decide(Failure(AzureDefaultSubscription(src.profile).error)) else Continue;
    var env := if src.envSettings.Failure? then Decide(Failure(src.envSettings.error)) else Continue;
    var envCredentials := if src.envCredentials.Success? then Decide(src.envCredentials) else Continue;
    var fileCredentials := if src.fileCredentials.Success? then Decide(src.fileCredentials) else Continue;
    var tokens := CachedTokenStep(Authority(FillDefaults(EnvOf(src)), ResolvedTenant(c, src)), src);
    [tenant, env, envCredentials, fileCredentials, tokens]
  }

  function MsiFallback(src: AuthSources): Result<Authorizer, Error>
  {
    MsiToAuthorizer(GetMsi(FillDefaults(EnvOf(src))), src)
  }

  /** What `Authorizer()` returns, as a chain of steps. */
  function AuthorizerChain(c: AuthorizerConfig, src: AuthSources): (r: Result<Authorizer, Error>)
    ensures r.Success? ==> r == src.envCredentials || r == src.fileCredentials || r.value.Bearer?
  {
    ChainGivesKnownAuthorizers(c, src);
    RunChain(AuthorizerSteps(c, src), MsiFallback(src))
  }

  /** A successful chain returns the environment's or the settings file's
      credentials, or a bearer authorizer (from a cached token or MSI). */
  lemma ChainGivesKnownAuthorizers(c: AuthorizerConfig, src: AuthSources)
    ensures var r := RunChain(AuthorizerSteps(c, src), MsiFallback(src));
      r.Success? ==> r == src.envCredentials || r == src.fileCredentials || r.value.Bearer?
  {
    var steps := AuthorizerSteps(c, src);
    var fallback := MsiFallback(src);
    if steps[0].Decide? {
      RunChainFirstDecision(steps, fallback, 0);
    } else if steps[1].Decide? {
      RunChainFirstDecision(steps, fallback, 1);
    } else if steps[2].Decide? {
      RunChainFirstDecision(steps, fallback, 2);
    } else if steps[3].Decide? {
      RunChainFirstDecision(steps, fallback, 3);
    } else if steps[4].Decide? {
      RunChainFirstDecision(steps, fallback, 4);
    } else {
      RunChainFallsThrough(steps, fallback);
    }
  }

  /** The MSI request the chain falls back to reads the resource after the
      default is filled in, and the client id as configured. */
  lemma MsiUsesFilledResource(env: EnvSettings)
    ensures GetMsi(FillDefaults(env)).resource ==
      if Lookup(env.values, ResourceKey) == "" then env.cloud.resourceManagerEndpoint else Lookup(env.values, ResourceKey)
    ensures GetMsi(FillDefaults(env)).clientId == Lookup(env.values, ClientIdKey)
  {
  }

  /** The tenant is known: configured, or found in the profile. */
  predicate HasTenant(c: AuthorizerConfig, src: AuthSources)
  {
    c.tenantId != "" || AzureDefaultSubscription(src.profile).Success?
  }

  /** The chain gets as far as the cached tokens: the tenant is known, the
      environment settings are read and neither kind of client credentials
      works. */
  predicate ReachesCachedTokens(c: AuthorizerConfig, src: AuthSources)
  {
    HasTenant(c, src) && src.envSettings.Success? && src.envCredentials.Failure? && src.fileCredentials.Failure?
  }

  /** The authority of the tenant the chain works for. */
  function TenantAuthority(c: AuthorizerConfig, src: AuthSources): string
  {
    Authority(FillDefaults(EnvOf(src)), ResolvedTenant(c, src))
  }

  /** Once the chain reaches the cached tokens, they decide, or else MSI. */
  lemma ChainReachesCachedTokens(c: AuthorizerConfig, src: AuthSources)
    requires ReachesCachedTokens(c, src)
    ensures AuthorizerChain(c, src) ==
      match CachedTokenStep(TenantAuthority(c, src), src)
      case Decide(outcome) => outcome
      case Continue => MsiFallback(src)
  {
    var steps := AuthorizerSteps(c, src);
    assert steps[..4] == [Continue, Continue, Continue, Continue];
    if steps[4].Decide? {
      RunChainFirstDecision(steps, MsiFallback(src), 4);
    } else {
      RunChainFallsThrough(steps, MsiFallback(src));
    }
  }

  /** Without a configured tenant, a missing default subscription is fatal. */
  lemma ChainStopsWithoutTenant(c: AuthorizerConfig, src: AuthSources)
    requires c.tenantId == "" && AzureDefaultSubscription(src.profile).Failure?
    ensures AuthorizerChain(c, src) == Failure(AzureDefaultSubscription(src.profile).error)
  {
    RunChainFirstDecision(AuthorizerSteps(c, src), MsiFallback(src), 0);
  }

  /** An error reading the environment settings is fatal. */
  lemma ChainStopsOnEnvSettings(c: AuthorizerConfig, src: AuthSources)
    requires HasTenant(c, src) && src.envSettings.Failure?
    ensures AuthorizerChain(c, src) == Failure(src.envSettings.error)
  {
    RunChainFirstDecision(AuthorizerSteps(c, src), MsiFallback(src), 1);
  }

  /** Environment client credentials win over every later source. */
  lemma ChainPrefersEnvCredentials(c: AuthorizerConfig, src: AuthSources)
    requires HasTenant(c, src) && src.envSettings.Success? && src.envCredentials.Success?
    ensures AuthorizerChain(c, src) == src.envCredentials
  {
    RunChainFirstDecision(AuthorizerSteps(c, src), MsiFallback(src), 2);
  }

  /** Settings-file client credentials come next. */
  lemma ChainThenFileCredentials(c: AuthorizerConfig, src: AuthSources)
    requires HasTenant(c, src) && src.envSettings.Success? && src.envCredentials.Failure?
    requires src.fileCredentials.Success?
    ensures AuthorizerChain(c, src) == src.fileCredentials
  {
    RunChainFirstDecision(AuthorizerSteps(c, src), MsiFallback(src), 3);
  }

  /** Among the cached tokens, the first one with the tenant's authority that
      converts gives the authorizer. */
  lemma ChainUsesFirstConvertingToken(c: AuthorizerConfig, src: AuthSources, tokens: seq<CachedToken>, i: int)
    requires ReachesCachedTokens(c, src)
    requires src.tokensPath.Success? && src.loadTokens(src.tokensPath.value) == Success(tokens)
    requires 0 <= i < |tokens| && tokens[i].authority == TenantAuthority(c, src)
    requires TokenToAuthorizer(tokens[i], src).Success?
    requires forall j | 0 <= j < i :: tokens[j].authority == TenantAuthority(c, src) ==>
      TokenToAuthorizer(tokens[j], src).Failure?
    ensures AuthorizerChain(c, src) == Success(Bearer(ManualToken(tokens[i])))
  {
    ChainReachesCachedTokens(c, src);
    ScanFindsFirstConverting(tokens, TenantAuthority(c, src), src, i);
  }

  /** When tokens with the tenant's authority exist but none converts, the
      chain fails with the last one's conversion error; MSI is not tried. */
  lemma ChainReportsLastConversionError(c: AuthorizerConfig, src: AuthSources, tokens: seq<CachedToken>, i: int)
    requires ReachesCachedTokens(c, src)
    requires src.tokensPath.Success? && src.loadTokens(src.tokensPath.value) == Success(tokens)
    requires 0 <= i < |tokens| && tokens[i].authority == TenantAuthority(c, src)
    requires forall j | 0 <= j < |tokens| :: tokens[j].authority == TenantAuthority(c, src) ==>
      TokenToAuthorizer(tokens[j], src).Failure?
    requires forall j | i < j < |tokens| :: tokens[j].authority != TenantAuthority(c, src)
    ensures AuthorizerChain(c, src) == Failure(TokenToAuthorizer(tokens[i], src).error)
  {
    ChainReachesCachedTokens(c, src);
    ScanReportsLastFailure(tokens, TenantAuthority(c, src), src, i);
  }

  /** An unreadable token file is fatal. */
  lemma ChainStopsOnUnreadableTokens(c: AuthorizerConfig, src: AuthSources)
    requires ReachesCachedTokens(c, src)
    requires src.tokensPath.Success? && src.loadTokens(src.tokensPath.value).Failure?
    ensures AuthorizerChain(c, src) == Failure(src.loadTokens(src.tokensPath.value).error)
  {
    ChainReachesCachedTokens(c, src);
  }

  /** MSI is reached only when the token path is unknown or no cached token
      carries the tenant's authority; it then decides the outcome. */
  lemma ChainFallsBackToMsi(c: AuthorizerConfig, src: AuthSources)
    requires ReachesCachedTokens(c, src)
    requires src.tokensPath.Failure? ||
      (src.loadTokens(src.tokensPath.value).Success? &&
       forall t | t in src.loadTokens(src.tokensPath.value).value :: t.authority != TenantAuthority(c, src))
    ensures AuthorizerChain(c, src) == MsiToAuthorizer(GetMsi(FillDefaults(src.envSettings.value)), src)
  {
    ChainReachesCachedTokens(c, src);
    if src.tokensPath.Success? {
      ScanNoMatch(src.loadTokens(src.tokensPath.value).value, TenantAuthority(c, src), src);
    }
  }

  /** `AzureAuthorizerConfig.Authorizer`. */
  method Authorizer(c: AuthorizerConfig, src: AuthSources) returns (r: Result<Authorizer, Error>)
    ensures r == AuthorizerChain(c, src)
  {
    ghost var steps := AuthorizerSteps(c, src);
    ghost var fallback := MsiFallback(src);
    var tenantId := c.tenantId;
    if tenantId == "" {
      var subscription := AzureDefaultSubscription(src.profile);
      if subscription.Failure? {
        RunChainFirstDecision(steps, fallback, 0);
        return Failure(subscription.error);
      }
      tenantId := subscription.value.tenantId;
    }
    assert steps[0] == Continue && tenantId == ResolvedTenant(c, src);
    if src.envSettings.Failure? {
      RunChainFirstDecision(steps, fallback, 1);
      return Failure(src.envSettings.error);
    }
    var env := src.envSettings.value;
    if src.envCredentials.Success? {
      RunChainFirstDecision(steps, fallback, 2);
      return src.envCredentials;
    }
    if src.fileCredentials.Success? {
      RunChainFirstDecision(steps, fallback, 3);
      return src.fileCredentials;
    }
    var values := env.values;
    if Lookup(values, ResourceKey) == "" {
      values := values[ResourceKey := env.cloud.resourceManagerEndpoint];
    }
    if Lookup(values, ActiveDirectoryKey) == "" {
      values := values[ActiveDirectoryKey := env.cloud.activeDirectoryEndpoint];
    }
    assert values == FillDefaults(EnvOf(src));
    var authority := Trim(Lookup(values, ActiveDirectoryKey), '/') + "/" + tenantId;
    assert authority == Authority(FillDefaults(EnvOf(src)), ResolvedTenant(c, src));
    ChainReachesCachedTokens(c, src);
    ghost var step := CachedTokenStep(authority, src);
    assert AuthorizerChain(c, src) == if step.Decide? then step.outcome else fallback;

    if src.tokensPath.Success? {
      var loaded := Ask(src.loadTokens, src.tokensPath.value);
      if loaded.Failure? {
        assert step == Decide(Failure(loaded.error));
        return Failure(loaded.error);
      }
      var scan := ScanCachedTokens(loaded.value, authority, src);
      if scan.Found? {
        assert step == Decide(Success(scan.authorizer));
        return Success(scan.authorizer);
      }
      if scan.AllFailed? {
        assert step == Decide(Failure(scan.last));
        return Failure(scan.last);
      }
    }
    assert step == Continue;
    r := MsiToAuthorizer(GetMsi(values), src);
  }

  /** The loop over the cached tokens inside `Authorizer`: the first
      matching token that converts returns at once; a failed conversion is
      remembered in `err`, which later failures overwrite. */
  method ScanCachedTokens(tokens: seq<CachedToken>, authority: string, src: AuthSources) returns (scan: TokenScan)
    ensures scan == ScanTokens(tokens, authority, src)
  {
    var err: Option<Error> := None;
    var i := 0;
    while i < |tokens|
      invariant 0 <= i <= |tokens|
      invariant Resume(err, ScanTokens(tokens[i..], authority, src)) == ScanTokens(tokens, authority, src)
    {
      var t := tokens[i];
      assert tokens[i..][1..] == tokens[i + 1..];
      if t.authority == authority {
        var converted := TokenToAuthorizer(t, src);
        if converted.Success? {
          return Found(converted.value);
        }
        err := Some(converted.error);
      }
      i := i + 1;
    }
    assert tokens[i..] == [];
    scan := if err.Some? then AllFailed(err.value) else NoMatch;
  }
}
