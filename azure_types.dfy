/** Values shared by the Azure configuration code: errors, the CLI's
    subscriptions and cached tokens, service-principal tokens and the
    authorizers built from them, and the outcomes of the foreign calls
    (environment, CLI files, MSI endpoint, token refresh), each given as a
    value or as a total function of the call's arguments. */
module AzureTypes {
  import opened Wrappers

  /** The errors the configuration code produces. `Sdk` stands for any error
      returned by a foreign call; its code only tells errors apart. */
  datatype Error =
    | Sdk(code: nat)
    | NoDefaultSubscription
    | BadUrl(url: string)
    | MalformedAccountId(id: string)
    | AccountNotFound(account: string)
    | MissingAccount(configDir: string)
    | MissingKey(configDir: string)

  /** An entry of the Azure CLI profile (`cli.Subscription`). */
  datatype Subscription = Subscription(id: string, tenantId: string, isDefault: bool)

  /** An entry of the Azure CLI access-token cache (`cli.Token`); `material`
      stands for the token strings, which the model never inspects. */
  datatype CachedToken = CachedToken(authority: string, resource: string, clientId: string, material: nat)

  /** A service-principal token, named by how it was obtained. */
  datatype ServicePrincipalToken =
    | MsiToken(msiEndpoint: string, resource: string)
    | MsiUserAssignedToken(msiEndpoint: string, resource: string, clientId: string)
    | ManualToken(token: CachedToken)

  /** An `autorest.Authorizer`: either a bearer authorizer over a refreshed
      service-principal token, or one built by the SDK from client
      credentials (identified by an opaque handle). */
  datatype Authorizer = Bearer(spt: ServicePrincipalToken) | ClientCredentials(handle: nat)

  /** `auth.MSIConfig`: the resource to request and the optional client id of
      a user-assigned identity. */
  datatype MsiConfig = MsiConfig(resource: string, clientId: string)

  /** The cloud the environment names (`azure.Environment`), reduced to the
      two endpoints the code reads. */
  datatype Cloud = Cloud(activeDirectoryEndpoint: string, resourceManagerEndpoint: string)

  /** `auth.EnvironmentSettings`: the settings map and the cloud. */
  datatype EnvSettings = EnvSettings(values: map<string, string>, cloud: Cloud)

  /** Keys of the settings map used here, as the SDK names them (the model
      only needs them to be distinct). */
  const ResourceKey := "AZURE_AD_RESOURCE"
  const ActiveDirectoryKey := "ActiveDirectoryEndpoint"
  const ClientIdKey := "AZURE_CLIENT_ID"

  /** Reading a Go map: the zero value "" for a missing key. */
  function Lookup(m: map<string, string>, k: string): string
  {
    if k in m then m[k] else ""
  }

  /** Everything the authorizer chain learns from outside:
      - `profile`: `cli.ProfilePath` then `cli.LoadProfile`;
      - `envSettings`: `auth.GetSettingsFromEnvironment`;
      - `envCredentials`: `env.GetClientCredentials` then `cred.Authorizer`;
      - `fileCredentials`: `auth.GetSettingsFromFile` then
        `ClientCredentialsAuthorizerWithResource`;
      - `tokensPath`, `loadTokens`: `cli.AccessTokensPath`, `cli.LoadTokens`;
      - `msiEndpoint`: `adal.GetMSIVMEndpoint`;
      - `newToken`: the failure, if any, of building a token (the MSI
        constructors, or the url / OAuth-config / ADAL conversions of a
        cached token);
      - `ensureFresh`: the failure, if any, of `spt.EnsureFresh`. */
  datatype AuthSources = AuthSources(
    profile: Result<seq<Subscription>, Error>,
    envSettings: Result<EnvSettings, Error>,
    envCredentials: Result<Authorizer, Error>,
    fileCredentials: Result<Authorizer, Error>,
    tokensPath: Result<string, Error>,
    loadTokens: string -> Result<seq<CachedToken>, Error>,
    msiEndpoint: Result<string, Error>,
    newToken: ServicePrincipalToken -> Option<Error>,
    ensureFresh: ServicePrincipalToken -> Option<Error>)

  /** The answer of an oracle. These wrappers only keep the verifier's
      proofs of the methods fast: applying a function-typed parameter
      directly inside a method is costly for the solver, while a call of
      these functions is cheap. */
  function Ask<A, B>(oracle: A -> B, question: A): B
  {
    oracle(question)
  }

  function Ask3<A, B, C, R>(oracle: (A, B, C) -> R, a: A, b: B, c: C): R
  {
    oracle(a, b, c)
  }

  /** A parsed URL (`url.URL`), reduced to what the code reads. */
  datatype Url = Url(hostname: string, path: string)
}
