# Azure configuration of goofys, in Dafny

This project models how goofys' Azure backend finds its credentials and
storage configuration (`api/common/conf_azure.go`):

- **Blob configuration** (`AzureBlobConfig`). It merges several inputs into
  an `AZBlobConfig`:
  - a `container@host/path` argument;
  - the endpoint's host name;
  - the `AZURE_STORAGE_*` environment;
  - the Azure CLI ini file (`<AZURE_CONFIG_DIR or ~/.azure>/config`);
  - when the endpoint or the key is still missing, control-plane discovery.
- **Authorizer chain** (`AzureAuthorizerConfig.Authorizer`). It tries, in
  order:
  1. the tenant (configured, or that of the CLI's default subscription);
  2. the environment settings;
  3. environment client credentials;
  4. settings-file client credentials;
  5. cached CLI tokens for the tenant's authority;
  6. the managed identity (MSI).
- **Control-plane helpers**: the default subscription
  (`azureDefaultSubscription`), the accounts client
  (`azureAccountsClient`) and the account lookup (`azureFindAccount`).

Every call into the Azure SDK, the CLI files, the environment, `url.Parse`
and the ini reader is an oracle: a value or a total function of the call's
arguments, held in the records `AuthSources`, `Arm` and `BlobHost`.

### Structure

Each routine of the source is both:
- a specification function (`AuthorizerChain`, `AzureFindAccount`,
  `BlobConfigSpec`, …), with lemmas about it;
- where the Go code works by reassigning locals step by step, an imperative
  `method` proved equal to that function (`Authorizer`, `ScanCachedTokens`,
  `AzureBlobConfig` and its parts).

### Files

- `wrappers.dfy`: `Option` and `Result`.
- `go_strings.dfy`: `strings.Index`, `strings.Trim` and `strings.SplitN` for a
  one-character separator, with `Join` as the inverse of `SplitN`.
- `azure_types.dfy`: errors, CLI subscriptions and tokens, service-principal
  tokens, authorizers and the oracle record of the authorizer chain.
- `azure_auth.dfy`: the token helpers, the default subscription and the
  authorizer chain.
- `azure_accounts.dfy`: the accounts client and the account lookup.
- `azure_blob.dfy`: `AZBlobConfig`, its `Init`, and `AzureBlobConfig`.

## Model

| member | source | states |
|---|---|---|
| GoStrings.IndexOf | api/common/conf_azure.go:255 | `strings.Index` for one character: -1 exactly when the character is absent; otherwise a position holding it, with none before |
| GoStrings.IndexOfIsFirst | api/common/conf_azure.go:275 | the first occurrence is unique: a position holding the character with none before it is the one found |
| GoStrings.TrimLeft | api/common/conf_azure.go:263 | `strings.TrimLeft`: the result is a suffix of the input and does not start with the cut character |
| GoStrings.TrimLeftDropsOnly | api/common/conf_azure.go:263 | what `TrimLeft` removes is a run of the cut character |
| GoStrings.TrimRight | api/common/conf_azure.go:263 | `strings.TrimRight`: the result is a prefix of the input and does not end with the cut character |
| GoStrings.TrimRightDropsOnly | api/common/conf_azure.go:263 | what `TrimRight` removes is a run of the cut character |
| GoStrings.Trim | api/common/conf_azure.go:159 | `strings.Trim`: no longer than the input; empty, or neither starts nor ends with the cut character |
| GoStrings.TrimPadded | api/common/conf_azure.go:159 | a text that neither starts nor ends with `c`, padded with runs of `c`, trims back to exactly itself |
| GoStrings.TrimIdempotent | api/common/conf_azure.go:263 | trimming twice is trimming once |
| GoStrings.SplitN | api/common/conf_azure.go:238 | `strings.SplitN`: no pieces for n = 0; otherwise min(separators + 1, n) pieces, all but the last separator-free, joining back to the input |
| GoStrings.SplitNAfterFirst | api/common/conf_azure.go:238 | a text whose first separator ends piece `a` splits into `a` followed by the split of the rest with one piece fewer |
| GoStrings.SplitNJoin | api/common/conf_azure.go:238 | `SplitN` inverts `Join` for separator-free pieces (the n-th piece may hold separators) |
| AzureAuth.SptTest | api/common/conf_azure.go:69-76 | `sptTest`: success exactly when refreshing the token succeeds, giving a bearer authorizer over that token; otherwise the refresh error itself |
| AzureAuth.NewAndTest | api/common/conf_azure.go:97-103 | the build-then-test pattern (also the MSI branch at lines 113-123): success exactly when building the token and refreshing it both succeed, and then a bearer authorizer over that token |
| AzureAuth.TokenToAuthorizer | api/common/conf_azure.go:78-104 | a cached token converts exactly when building its manual token and refreshing it succeed; the result is a bearer authorizer over that token |
| AzureAuth.MsiRequest | api/common/conf_azure.go:113-118 | the user-assigned identity is requested exactly when a client id is configured, with that id; the resource and MSI endpoint are passed through |
| AzureAuth.MsiToAuthorizer | api/common/conf_azure.go:106-124 | an MSI endpoint failure is returned as is; success exactly when the endpoint, the token and the refresh all succeed, giving a bearer authorizer over the requested identity |
| AzureAuth.FirstDefault | api/common/conf_azure.go:198-202 | none exactly when no subscription is flagged default; otherwise a flagged member of the profile |
| AzureAuth.FirstDefaultIsEarliest | api/common/conf_azure.go:198-202 | the earliest flagged subscription is the one chosen |
| AzureAuth.AzureDefaultSubscription | api/common/conf_azure.go:187-205 | a profile error is passed on; with a flagged subscription the result is the first flagged one; no flagged entry is an error, with no fall-back to the first entry |
| AzureAuth.ScanTokens | api/common/conf_azure.go:167-180 | the token scan: a found authorizer is the bearer authorizer of some token with the authority; an all-failed scan reports the conversion error of some token with the authority |
| AzureAuth.ScanFindsFirstConverting | api/common/conf_azure.go:167-175 | the first token with the authority that converts gives the authorizer, whatever failed before it |
| AzureAuth.ScanNoMatch | api/common/conf_azure.go:167-168 | the scan finds nothing exactly when no token carries the authority |
| AzureAuth.ScanReportsLastFailure | api/common/conf_azure.go:165-180 | when matching tokens exist and none converts, the error is that of the last matching token |
| AzureAuth.RunChainFirstDecision | api/common/conf_azure.go:126-185 | a chain returns the outcome of its first deciding source |
| AzureAuth.RunChainFallsThrough | api/common/conf_azure.go:183-184 | when no source decides, the chain returns the fallback |
| AzureAuth.Authority | api/common/conf_azure.go:159-160 | the authority is the Active Directory endpoint without surrounding slashes, then one slash, then the tenant |
| AzureAuth.CachedTokenStep | api/common/conf_azure.go:163-181 | no token path lets the chain go on; an unreadable token file decides with its error; with tokens loaded, the chain goes on exactly when no token carries the authority |
| AzureAuth.MsiUsesFilledResource | api/common/conf_azure.go:153-158 | `env.GetMSI()` as read at line 184: the resource is the configured one, or the cloud's resource-manager endpoint when it is empty; the client id is the configured one |
| AzureAuth.FillDefaults | api/common/conf_azure.go:153-158 | empty resource and Active Directory settings take the cloud's endpoints; non-empty settings and all other keys are kept |
| AzureAuth.ChainReachesCachedTokens | api/common/conf_azure.go:159-184 | once tenant, settings and both credential kinds are passed, the cached tokens decide, else MSI does |
| AzureAuth.ChainStopsWithoutTenant | api/common/conf_azure.go:127-133 | without a configured tenant, a missing default subscription is the result |
| AzureAuth.ChainStopsOnEnvSettings | api/common/conf_azure.go:135-138 | an error reading the environment settings is fatal |
| AzureAuth.ChainPrefersEnvCredentials | api/common/conf_azure.go:140-144 | working environment client credentials win over every later source |
| AzureAuth.ChainThenFileCredentials | api/common/conf_azure.go:146-151 | settings-file credentials come next |
| AzureAuth.ChainUsesFirstConvertingToken | api/common/conf_azure.go:159-175 | among cached tokens for the tenant's authority, the first that converts gives the authorizer |
| AzureAuth.ChainReportsLastConversionError | api/common/conf_azure.go:165-180 | matching tokens that all fail to convert make the chain fail with the last one's error; MSI is not tried |
| AzureAuth.ChainStopsOnUnreadableTokens | api/common/conf_azure.go:163-180 | a token file that cannot be loaded is fatal |
| AzureAuth.ChainFallsBackToMsi | api/common/conf_azure.go:163-184 | with no token path, or no token for the authority, MSI decides, using the settings after the defaults are filled |
| AzureAuth.AuthorizerChain | api/common/conf_azure.go:126-185 | a successful chain returns the environment's or the settings file's credentials unchanged, or else a bearer authorizer (cached token or MSI) |
| AzureAuth.ChainGivesKnownAuthorizers | api/common/conf_azure.go:126-185 | the same fact proved over the five sources and the MSI fallback, case by case |
| AzureAuth.Authorizer | api/common/conf_azure.go:126-185 | the imperative chain (tenant reassigned, settings map updated in place, early returns) returns exactly `AuthorizerChain` |
| AzureAuth.ScanCachedTokens | api/common/conf_azure.go:167-180 | the token loop (early return on success, error overwritten by each later failure) computes exactly `ScanTokens` |
| AzureAccounts.AzureAccountsClient | api/common/conf_azure.go:207-227 | a subscription error is passed on; success exactly when the default subscription and the chain for its tenant both succeed; the client lists that subscription and signs with that authorizer |
| AzureAccounts.FindByName | api/common/conf_azure.go:235-236 | none exactly when no account has the name; otherwise an account of the list with that name |
| AzureAccounts.FindByNameIsEarliest | api/common/conf_azure.go:235-236 | the earliest account with the name is the one chosen |
| AzureAccounts.AzureFindAccount | api/common/conf_azure.go:229-247 | a listing error is passed on; no account of that name is "account not found" |
| AzureAccounts.FindAccountUsesFirstMatch | api/common/conf_azure.go:235-243 | the first account with the name decides: an id with fewer than five '/' is malformed, any other gives its blob endpoint and the id's fifth piece |
| AzureAccounts.ResourceIdPieces | api/common/conf_azure.go:237-242 | an id of the shape `/subscriptions/{sub}/resourceGroups/{rg}/…` yields `rg` as its fifth piece |
| AzureAccounts.ShortIdIsMalformed | api/common/conf_azure.go:238-241 | an id with four slashes is reported as malformed |
| AzureBlob.AZBlobConfig.constructor | api/common/conf_azure.go:38-47 | a fresh struct holds the zero value |
| AzureBlob.AZBlobConfig.Init | api/common/conf_azure.go:49-51 | the token renew buffer becomes 15 minutes; no other field changes |
| AzureBlob.ParseWasb | api/common/conf_azure.go:255-265 | without '@' nothing changes; the container never holds '@' |
| AzureBlob.WasbSplitsAtFirstAt | api/common/conf_azure.go:255-265 | `container@host/path` splits at the first '@': when `https://host/path` parses it overrides the endpoint, the container is the part before '@' and the prefix is the URL path without surrounding slashes; otherwise nothing changes |
| AzureBlob.AccountFromEndpoint | api/common/conf_azure.go:267-279 | the empty and the emulator endpoints keep the account; an endpoint that does not parse is an error; otherwise the host name up to its first dot (when it has one) replaces the account |
| AzureBlob.IniSetting | api/common/conf_azure.go:285-297 | a setting is found exactly when the ini file loads, has a `storage` section and that key in it; the value is the one stored there |
| AzureBlob.ReadConfigFile | api/common/conf_azure.go:281-300 | the ini file is consulted only when the account or the key is empty, in the configured directory or else `~/.azure`, and fills only the empty ones |
| AzureBlob.Discover | api/common/conf_azure.go:308-345 | with endpoint and key known, nothing is looked up; an accounts-client error is fatal; a known key is never replaced; with a client, any stop is a missing-key error |
| AzureBlob.DiscoveryOutcome | api/common/conf_azure.go:308-345 | for all inputs once a client is built: a failed lookup stops with a missing key when the key is empty, else goes on with no endpoint, the key and the lookup error; a found account with a known key gives its blob endpoint; with the key empty, a failed or empty key listing stops with a missing key, otherwise the first listed key is taken |
| AzureBlob.FullKeyIsNotPreferred | api/common/conf_azure.go:332-339 | the prefer-Full loop is overwritten: with keys `[Read "B", Full "A"]` the key taken is "B" |
| AzureBlob.DefaultEndpoint | api/common/conf_azure.go:347-349 | the synthesised endpoint is `https://`, the account, then `.blob.core.windows.net`; it is never the emulator's |
| AzureBlob.DefaultEndpointNamesAccount | api/common/conf_azure.go:347-349 | the synthesised endpoint leads back to its account: read again by the host-name step (lines 267-279), it yields that account |
| AzureBlob.BlobConfigSpec | api/common/conf_azure.go:249-360 | what `AzureBlobConfig` returns; without an error the config is complete: endpoint and account non-empty, 15-minute buffer, the argument's container and prefix |
| AzureBlob.ResolutionShape | api/common/conf_azure.go:249-360 | every result is either complete (endpoint and account non-empty, 15-minute buffer) or the partial struct of an early return with an error; container and prefix are kept in both |
| AzureBlob.KnownEndpointAndKeySkipDiscovery | api/common/conf_azure.go:308 | with the endpoint and the key known, the result does not depend on the authorizer sources or the control plane |
| AzureBlob.EmulatorKeepsEnvironmentCredentials | api/common/conf_azure.go:267-268 | the emulator endpoint with account and key in the environment gives exactly those, with no error |
| AzureBlob.HostNameOverridesAccount | api/common/conf_azure.go:275-278 | the endpoint's first host-name label replaces the account of the environment |
| AzureBlob.AccountsClientFailureIsFatal | api/common/conf_azure.go:308-344 | without an endpoint, an accounts-client error is returned with an empty config, even when the key is known |
| AzureBlob.LookupFailureKeepsKnownKey | api/common/conf_azure.go:313-322 | a failed lookup with a known key yields a complete config with the synthesised `https://<account>.blob.core.windows.net` endpoint, and also the lookup error |
| AzureBlob.DiscoveryTakesFirstKey | api/common/conf_azure.go:323-340 | an instance of `DiscoveryOutcome` through the whole merge (emulator endpoint, '@'-free argument, no key in the ini file): the endpoint found replaces the one given, keys are listed in the account's resource group, and the first key is taken whatever its permissions |
| AzureBlob.NoListedKeyIsMissingKey | api/common/conf_azure.go:323-330 | an instance of `DiscoveryOutcome` through the whole merge (emulator endpoint, '@'-free argument, no key in the ini file): a failed or empty key listing is a missing-key error naming the configuration directory |
| AzureBlob.MissingAccountIsFatal | api/common/conf_azure.go:301-306 | no account in the environment or the ini file is a missing-account error naming the directory read |
| AzureBlob.ParseWasbArgument | api/common/conf_azure.go:254-265 | the imperative wasb step computes exactly `ParseWasb` |
| AzureBlob.AccountFromEndpointVar | api/common/conf_azure.go:267-279 | the imperative host-name step computes exactly `AccountFromEndpoint` |
| AzureBlob.ReadConfigVars | api/common/conf_azure.go:281-300 | the imperative ini step leaves the locals as `ReadConfigFile` says |
| AzureBlob.DiscoverAccount | api/common/conf_azure.go:308-345 | the imperative discovery, with its prefer-Full loop overwritten by the first key, computes exactly `Discover` |
| AzureBlob.AzureBlobConfig | api/common/conf_azure.go:249-360 | the procedure returns exactly `BlobConfigSpec`: the struct and the error together |

## Left out

- Logging (`Log`, `azbLog`, `adls1Log`) has no effect on results.
- The internals of every foreign call are left out. This covers the Azure
  SDK, `adal`, `autorest`, the CLI profile and token files, `homedir`,
  `ini.v1`, `url.Parse` and the environment. Each is a parameter giving its
  outcome; an error is an `Sdk` code, and error texts are reduced to
  constructors. `Ask`/`Ask3` are how the methods consult these parameters.
- `ADLv1Config` and its empty `Init` are not part of this model.
- `SASTokenProvider` is not part of this model: `AzureBlobConfig` never sets
  the `SasToken` field.
- `AzureBlobConfig` works on the struct as a value, since Go returns it by
  value. Its `config.Init()` call is written as the value update that
  `AZBlobConfig.Init` is proved to make.
- `time.Duration` is an integer count of nanoseconds.
- Strings are sequences of characters, not bytes. All separators involved
  (`@`, `.`, `/`) are ASCII, so the pieces are the same.
- Nil-pointer dereferences of SDK results (for example a nil `Keys` list) are
  left out. Such a list is taken to be empty.
- `AzureAccountsClient`: the `account` argument of `azureAccountsClient` is
  unused in the source, so the model has no such parameter.
- `homedir.Expand` failing: the model takes its result as a given directory
  string. An empty string stands for the failure, whose directory Go leaves
  as "".
- `MsiToAuthorizer`, `TokenToAuthorizer`: the intermediate conversion
  failures are one oracle answer per token (`newToken`), not separate
  calls.

## Behaviours worth noting (the model follows the code)

- A failing `cli.AccessTokensPath` falls through to MSI
  (`ChainFallsBackToMsi`); a failing `cli.LoadTokens` ends the chain
  (`ChainStopsOnUnreadableTokens`).
- An endpoint whose host name has a dot gives the account, over the one in
  the environment (`HostNameOverridesAccount`).
- Without an endpoint, discovery runs even when the account and the key are
  known, and an accounts-client failure is then fatal
  (`AccountsClientFailureIsFatal`).
- A failed account lookup with a known key returns the complete
  configuration together with the lookup error (`LookupFailureKeepsKnownKey`).
- The loop preferring a full-permission key is overwritten by the first key
  (`FullKeyIsNotPreferred`).
