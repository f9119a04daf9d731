/** `AzureBlobConfig`: merging the `container@host/path` argument, the
    endpoint's host name, the environment, the CLI ini file and, when
    something is still missing, control-plane discovery into the blob
    configuration (`AZBlobConfig`). */
module AzureBlob {
  import opened Wrappers
  import opened GoStrings
  import opened AzureTypes
  import opened AzureAuth
  import opened AzureAccounts

  /** The storage emulator's endpoint, never decomposed into an account. */
  const EmulatorEndpoint := "http://127.0.0.1:8080/devstoreaccount1/"

  /** `azure.PublicCloud.StorageEndpointSuffix`. */
  const StorageEndpointSuffix := "core.windows.net"

  /** `time.Minute`, in nanoseconds (the unit of `time.Duration`). */
  const Minute: int := 60_000_000_000

  const DefaultTokenRenewBuffer: int := 15 * Minute

  /** The value of an `AZBlobConfig` (its `SasToken` is never set here). */
  datatype BlobConfig = BlobConfig(
    endpoint: string, accountName: string, accountKey: string,
    tokenRenewBuffer: int, container: string, prefix: string)

  const ZeroConfig := BlobConfig("", "", "", 0, "", "")

  /** `AZBlobConfig`, the struct the resolution fills in field by field. */
  class AZBlobConfig {
    var endpoint: string
    var accountName: string
    var accountKey: string
    var tokenRenewBuffer: int
    var container: string
    var prefix: string

    function Value(): BlobConfig
      reads this
    {
      BlobConfig(endpoint, accountName, accountKey, tokenRenewBuffer, container, prefix)
    }

    /** The zero value of the struct. */
    constructor ()
      ensures Value() == ZeroConfig
    {
      endpoint, accountName, accountKey := "", "", "";
      tokenRenewBuffer := 0;
      container, prefix := "", "";
    }

    /** `Init`: the token renew buffer becomes 15 minutes; nothing else changes. */
    method Init()
      modifies this
      ensures Value() == old(Value()).(tokenRenewBuffer := DefaultTokenRenewBuffer)
    {
      tokenRenewBuffer := DefaultTokenRenewBuffer;
    }
  }

  /** Everything `AzureBlobConfig` reads from outside: the variables
      `AZURE_STORAGE_ACCOUNT`, `AZURE_STORAGE_KEY` and `AZURE_CONFIG_DIR`
      ("" when unset), the expansion of `~/.azure`, URL parsing, the ini
      files by path (their sections by name, each a map of keys to values),
      the authorizer chain's sources and the control plane. */
  datatype BlobHost = BlobHost(
    storageAccount: string,
    storageKey: string,
    configDir: string,
    homeAzureDir: string,
    parseUrl: string -> Option<Url>,
    loadIni: string -> Option<map<string, map<string, string>>>,
    auth: AuthSources,
    arm: Arm)

  /** Both results of `AzureBlobConfig`: the configuration (partly filled on
      an early return) and the error, if any. */
  datatype Resolution = Resolution(config: BlobConfig, err: Option<Error>)

  // ---------------------------------------------------------------------
  // The merge, stage by stage

  /** The endpoint, container and prefix after the `container@host/path`
      argument is considered. */
  datatype WasbTarget = WasbTarget(endpoint: string, container: string, prefix: string)

  function ParseWasb(endpoint: string, wasb: string, parseUrl: string -> Option<Url>): (w: WasbTarget)
    ensures '@' !in wasb ==> w == WasbTarget(endpoint, "", "")
    ensures '@' !in w.container
  {
    var at := IndexOf(wasb, '@');
    if at == -1 then WasbTarget(endpoint, "", "")
    else
      var storageEndpoint := "https://" + wasb[at + 1..];
      match parseUrl(storageEndpoint)
      case None => WasbTarget(endpoint, "", "")
      case Some(u) => WasbTarget(storageEndpoint, wasb[..at], Trim(u.path, '/'))
  }

  /** The argument splits at its first '@': when `https://` followed by the
      text after it parses, that URL overrides the endpoint, the text before
      it is the container and the URL's path without surrounding slashes is
      the prefix; otherwise nothing changes. */
  lemma WasbSplitsAtFirstAt(endpoint: string, wasb: string, parseUrl: string -> Option<Url>, container: string, host: string)
    requires wasb == container + "@" + host && '@' !in container
    ensures ParseWasb(endpoint, wasb, parseUrl) ==
      match parseUrl("https://" + host)
      case None => WasbTarget(endpoint, "", "")
      case Some(u) => WasbTarget("https://" + host, container, Trim(u.path, '/'))
  {
    assert wasb[..|container|] == container;
    IndexOfIsFirst(wasb, '@', |container|);
    assert wasb[|container| + 1..] == host;
  }

  /** The account name after the endpoint is considered: for an endpoint
      other than "" and the emulator's, the host name up to its first dot
      (when it has one) replaces the account; an endpoint that does not
      parse is an error. */
  function AccountFromEndpoint(endpoint: string, account: string, parseUrl: string -> Option<Url>): (r: Result<string, Error>)
    ensures endpoint == "" || endpoint == EmulatorEndpoint ==> r == Success(account)
    ensures endpoint != "" && endpoint != EmulatorEndpoint && parseUrl(endpoint).None? ==>
      r == Failure(BadUrl(endpoint))
    ensures endpoint != "" && endpoint != EmulatorEndpoint && parseUrl(endpoint).Some? ==>
      var host := parseUrl(endpoint).value.hostname;
      && r.Success?
      && ('.' !in host ==> r.value == account)
      && ('.' in host ==> '.' !in r.value && |r.value| < |host| && host[..|r.value|] == r.value && host[|r.value|] == '.')
  {
    if endpoint != "" && endpoint != EmulatorEndpoint then
      match parseUrl(endpoint)
      case None => Failure(BadUrl(endpoint))
      case Some(u) =>
        var dot := IndexOf(u.hostname, '.');
        if dot != -1 then Success(u.hostname[..dot]) else Success(account)
    else Success(account)
  }

  /** The value of `name` in the `storage` section of the ini file at `path`. */
  function IniSetting(loadIni: string -> Option<map<string, map<string, string>>>, path: string, name: string): (r: Option<string>)
    ensures r.Some? <==>
      loadIni(path).Some? && "storage" in loadIni(path).value && name in loadIni(path).value["storage"]
    ensures r.Some? ==> r.value == loadIni(path).value["storage"][name]
  {
    match loadIni(path)
    case None => None
    case Some(sections) =>
      if "storage" in sections && name in sections["storage"] then Some(sections["storage"][name]) else None
  }

  /** Account, key and configuration directory after the ini file. */
  datatype Credentials = Credentials(account: string, key: string, configDir: string)

  /** The ini file (`<configDir>/config`, the directory defaulting to
      `~/.azure`) is read only when the account or the key is empty, and
      fills only what is empty. */
  function ReadConfigFile(account: string, key: string, configDir: string, homeAzureDir: string,
                          loadIni: string -> Option<map<string, map<string, string>>>): (r: Credentials)
    ensures account != "" && key != "" ==> r == Credentials(account, key, configDir)
    ensures account != "" ==> r.account == account
    ensures key != "" ==> r.key == key
    ensures account == "" || key == "" ==> r.configDir == if configDir == "" then homeAzureDir else configDir
    ensures account == "" ==> r.account == IniSetting(loadIni, r.configDir + "/config", "account").GetOr("")
    ensures key == "" ==> r.key == IniSetting(loadIni, r.configDir + "/config", "key").GetOr("")
  {
    if account != "" && key != "" then Credentials(account, key, configDir)
    else
      var dir := if configDir == "" then homeAzureDir else configDir;
      var path := dir + "/config";
      Credentials(
        if account == "" then IniSetting(loadIni, path, "account").GetOr(account) else account,
        if key == "" then IniSetting(loadIni, path, "key").GetOr(key) else key,
        dir)
  }

  /** How discovery ends: stop with an error, or go on with an endpoint
      ("" when none was found), a key and the error still pending. */
  datatype Discovery = Stop(error: Error) | Proceed(endpoint: string, key: string, err: Option<Error>)

  /** Control-plane discovery, run only when the endpoint or the key is
      empty. */
  function Discover(endpoint: string, key: string, account: string, configDir: string,
                    auth: AuthSources, arm: Arm): (d: Discovery)
    ensures endpoint != "" && key != "" ==> d == Proceed(endpoint, key, None)
    ensures (endpoint == "" || key == "") && AzureAccountsClient(auth).Failure? ==>
      d == Stop(AzureAccountsClient(auth).error)
    ensures d.Proceed? && key != "" ==> d.key == key
    ensures d.Stop? && AzureAccountsClient(auth).Success? ==> key == "" && d.error == MissingKey(configDir)
  {
    if endpoint != "" && key != "" then Proceed(endpoint, key, None)
    else
      match AzureAccountsClient(auth)
      case Failure(e) => Stop(e)
      case Success(client) =>
        match AzureFindAccount(arm.list(client), account)
        case Failure(e) =>
          if key == "" then Stop(MissingKey(configDir)) else Proceed("", key, Some(e))
        case Success(location) =>
          if key != "" then Proceed(location.blobEndpoint, key, None)
          else
            match arm.listKeys(client, location.resourceGroup, account)
            case Failure(_) => Stop(MissingKey(configDir))
            case Success(keys) =>
              if |keys| == 0 then Stop(MissingKey(configDir))
              else Proceed(location.blobEndpoint, keys[0].value, None)
  }

  /** The public-cloud blob endpoint of an account: an https URL whose host
      name starts with the account, as its own label. */
  function DefaultEndpoint(account: string): (e: string)
    ensures e != "" && e != EmulatorEndpoint
    ensures |e| > 8 + |account| && e[..8] == "https://" && e[8..8 + |account|] == account
    ensures e[8 + |account|..] == ".blob." + StorageEndpointSuffix
  {
    var e := "https://" + account + ".blob." + StorageEndpointSuffix;
    assert e[4] == 's' && EmulatorEndpoint[4] == ':';
    e
  }

  /** The synthesised endpoint leads back to its account: once URL parsing
      yields its host name, the endpoint stage recovers the account from
      it, whatever account the environment named. */
  lemma {:induction false} DefaultEndpointNamesAccount(account: string, other: string, parseUrl: string -> Option<Url>)
    requires account != "" && '.' !in account
    requires parseUrl(DefaultEndpoint(account)).Some?
    requires parseUrl(DefaultEndpoint(account)).value.hostname == account + ".blob." + StorageEndpointSuffix
    ensures AccountFromEndpoint(DefaultEndpoint(account), other, parseUrl) == Success(account)
  {
    var hostname := account + ".blob." + StorageEndpointSuffix;
    assert hostname[..|account|] == account;
    assert hostname[|account|] == '.';
    IndexOfIsFirst(hostname, '.', |account|);
  }

  /** What `AzureBlobConfig(endpoint, wasb)` returns. Without an error the
      configuration is complete: an endpoint, an account, the 15-minute
      renew buffer, and the argument's container and prefix. */
  function BlobConfigSpec(endpoint: string, wasb: string, host: BlobHost): (r: Resolution)
    ensures r.err.None? ==>
      && r.config.endpoint != "" && r.config.accountName != ""
      && r.config.tokenRenewBuffer == DefaultTokenRenewBuffer
      && r.config.container == ParseWasb(endpoint, wasb, host.parseUrl).container
      && r.config.prefix == ParseWasb(endpoint, wasb, host.parseUrl).prefix
  {
    var w := ParseWasb(endpoint, wasb, host.parseUrl);
    var partial := ZeroConfig.(container := w.container, prefix := w.prefix);
    match AccountFromEndpoint(w.endpoint, host.storageAccount, host.parseUrl)
    case Failure(e) => Resolution(partial, Some(e))
    case Success(account) =>
      var creds := ReadConfigFile(account, host.storageKey, host.configDir, host.homeAzureDir, host.loadIni);
      if creds.account == "" then Resolution(partial, Some(MissingAccount(creds.configDir)))
      else
        match Discover(w.endpoint, creds.key, creds.account, creds.configDir, host.auth, host.arm)
        case Stop(e) => Resolution(partial, Some(e))
        case Proceed(found, key, err) =>
          var final := if found == "" then DefaultEndpoint(creds.account) else found;
          Resolution(BlobConfig(final, creds.account, key, DefaultTokenRenewBuffer, w.container, w.prefix), err)
  }

  /** `BlobConfigSpec` unfolded one stage: once the endpoint stage has
      produced the account, the result is given by the ini file and
      discovery. `AzureBlobConfig` uses this step to tie its later stages to
      the specification. */
  lemma BlobConfigSpecAfterAccount(endpoint: string, wasb: string, host: BlobHost, account: string)
    requires AccountFromEndpoint(ParseWasb(endpoint, wasb, host.parseUrl).endpoint, host.storageAccount, host.parseUrl) == Success(account)
    ensures
      var w := ParseWasb(endpoint, wasb, host.parseUrl);
      var partial := ZeroConfig.(container := w.container, prefix := w.prefix);
      var creds := ReadConfigFile(account, host.storageKey, host.configDir, host.homeAzureDir, host.loadIni);
      BlobConfigSpec(endpoint, wasb, host) ==
        if creds.account == "" then Resolution(partial, Some(MissingAccount(creds.configDir)))
        else
          match Discover(w.endpoint, creds.key, creds.account, creds.configDir, host.auth, host.arm)
          case Stop(e) => Resolution(partial, Some(e))
          case Proceed(found, key, err) =>
            var final := if found == "" then DefaultEndpoint(creds.account) else found;
            Resolution(BlobConfig(final, creds.account, key, DefaultTokenRenewBuffer, w.container, w.prefix), err)
  {
  }

  /** What one discovery run returns once the control plane is consulted:
      a failed lookup stops without a key and otherwise goes on with the
      known key and the error; a found account goes on with its blob
      endpoint and the known key, or else with the first listed key, and
      stops when no key can be listed. */
  lemma DiscoveryOutcome(endpoint: string, key: string, account: string, configDir: string,
                         auth: AuthSources, arm: Arm, client: AccountsClient)
    requires endpoint == "" || key == ""
    requires AzureAccountsClient(auth) == Success(client)
    ensures var found := AzureFindAccount(arm.list(client), account);
      found.Failure? ==>
        Discover(endpoint, key, account, configDir, auth, arm) ==
          if key == "" then Stop(MissingKey(configDir)) else Proceed("", key, Some(found.error))
    ensures var found := AzureFindAccount(arm.list(client), account);
      found.Success? && key != "" ==>
        Discover(endpoint, key, account, configDir, auth, arm) == Proceed(found.value.blobEndpoint, key, None)
    ensures var found := AzureFindAccount(arm.list(client), account);
      found.Success? && key == "" ==>
        var listed := arm.listKeys(client, found.value.resourceGroup, account);
        Discover(endpoint, key, account, configDir, auth, arm) ==
          if listed.Failure? || listed.value == [] then Stop(MissingKey(configDir))
          else Proceed(found.value.blobEndpoint, listed.value[0].value, None)
  {
  }

  /** The loop preferring a full-permission key has no effect: with a
      read-only key listed before a full one, the read-only key is taken. */
  lemma FullKeyIsNotPreferred(endpoint: string, account: string, configDir: string,
                              auth: AuthSources, arm: Arm, client: AccountsClient, location: AccountLocation,
                              readName: string, fullName: string)
    requires AzureAccountsClient(auth) == Success(client)
    requires AzureFindAccount(arm.list(client), account) == Success(location)
    requires arm.listKeys(client, location.resourceGroup, account) ==
      Success([AccountKey(readName, "B", Read), AccountKey(fullName, "A", Full)])
    ensures Discover(endpoint, "", account, configDir, auth, arm) == Proceed(location.blobEndpoint, "B", None)
  {
  }

  // ---------------------------------------------------------------------
  // Properties of the merge

  /** The directory whose `config` file is read when the environment leaves
      the account or the key empty. */
  function ConfigDirOf(host: BlobHost): string
  {
    if host.configDir == "" then host.homeAzureDir else host.configDir
  }

  /** Every result is either complete (endpoint and account non-empty, the
      15-minute renew buffer set) or the partial struct of an early return,
      which carries an error; the container and prefix of the argument are
      kept in both. */
  lemma ResolutionShape(endpoint: string, wasb: string, host: BlobHost)
    ensures
      var r := BlobConfigSpec(endpoint, wasb, host);
      var w := ParseWasb(endpoint, wasb, host.parseUrl);
      && r.config.container == w.container && r.config.prefix == w.prefix
      && (r.config.tokenRenewBuffer == DefaultTokenRenewBuffer ==> r.config.endpoint != "" && r.config.accountName != "")
      && (r.config.tokenRenewBuffer != DefaultTokenRenewBuffer ==> r.config == ZeroConfig.(container := w.container, prefix := w.prefix) && r.err.Some?)
  {
    var w := ParseWasb(endpoint, wasb, host.parseUrl);
    var fromEndpoint := AccountFromEndpoint(w.endpoint, host.storageAccount, host.parseUrl);
    if fromEndpoint.Success? {
      BlobConfigSpecAfterAccount(endpoint, wasb, host, fromEndpoint.value);
    }
  }

  /** With an endpoint and a key known before discovery, the control plane
      is never consulted: the result does not depend on the authorizer
      sources or on the accounts API. */
  lemma KnownEndpointAndKeySkipDiscovery(endpoint: string, wasb: string, host: BlobHost, auth: AuthSources, arm: Arm)
    requires ParseWasb(endpoint, wasb, host.parseUrl).endpoint != ""
    requires host.storageKey != ""
    ensures BlobConfigSpec(endpoint, wasb, host) == BlobConfigSpec(endpoint, wasb, host.(auth := auth, arm := arm))
  {
  }

  /** The emulator endpoint with account and key in the environment is used
      as it is. */
  lemma EmulatorKeepsEnvironmentCredentials(wasb: string, host: BlobHost)
    requires '@' !in wasb
    requires host.storageAccount != "" && host.storageKey != ""
    ensures BlobConfigSpec(EmulatorEndpoint, wasb, host) ==
      Resolution(BlobConfig(EmulatorEndpoint, host.storageAccount, host.storageKey, DefaultTokenRenewBuffer, "", ""), None)
  {
  }

  /** The first label of the endpoint's host name replaces the account of
      the environment; with a key known, nothing else is consulted. */
  lemma HostNameOverridesAccount(endpoint: string, wasb: string, host: BlobHost, account: string, domain: string)
    requires '@' !in wasb
    requires endpoint != "" && endpoint != EmulatorEndpoint
    requires host.parseUrl(endpoint).Some? && host.parseUrl(endpoint).value.hostname == account + "." + domain
    requires account != "" && '.' !in account
    requires host.storageKey != ""
    ensures BlobConfigSpec(endpoint, wasb, host) ==
      Resolution(BlobConfig(endpoint, account, host.storageKey, DefaultTokenRenewBuffer, "", ""), None)
  {
    var hostname := account + "." + domain;
    assert hostname[..|account|] == account;
    IndexOfIsFirst(hostname, '.', |account|);
  }

  /** Without an endpoint, failing to build the accounts client is fatal
      even when the key is known. */
  lemma AccountsClientFailureIsFatal(wasb: string, host: BlobHost)
    requires '@' !in wasb
    requires host.storageAccount != "" && host.storageKey != ""
    requires AzureAccountsClient(host.auth).Failure?
    ensures BlobConfigSpec("", wasb, host) == Resolution(ZeroConfig, Some(AzureAccountsClient(host.auth).error))
  {
  }

  /** When the account is not found but the key is known, the configuration
      is complete, with the endpoint synthesised from the account, and the
      lookup error is returned beside it. */
  lemma LookupFailureKeepsKnownKey(wasb: string, host: BlobHost, client: AccountsClient)
    requires '@' !in wasb
    requires host.storageAccount != "" && host.storageKey != ""
    requires AzureAccountsClient(host.auth) == Success(client)
    requires AzureFindAccount(host.arm.list(client), host.storageAccount).Failure?
    ensures BlobConfigSpec("", wasb, host) ==
      Resolution(BlobConfig(DefaultEndpoint(host.storageAccount), host.storageAccount, host.storageKey,
                            DefaultTokenRenewBuffer, "", ""),
                 Some(AzureFindAccount(host.arm.list(client), host.storageAccount).error))
  {
  }

  /** Discovery with the key unknown: the endpoint found replaces the one
      given (here the emulator's), the keys are listed in the account's
      resource group, and the first key is taken whatever its permissions. */
  lemma DiscoveryTakesFirstKey(wasb: string, host: BlobHost, client: AccountsClient,
                               location: AccountLocation, keys: seq<AccountKey>)
    requires '@' !in wasb
    requires host.storageAccount != "" && host.storageKey == ""
    requires IniSetting(host.loadIni, ConfigDirOf(host) + "/config", "key").None?
    requires AzureAccountsClient(host.auth) == Success(client)
    requires AzureFindAccount(host.arm.list(client), host.storageAccount) == Success(location)
    requires host.arm.listKeys(client, location.resourceGroup, host.storageAccount) == Success(keys)
    requires |keys| > 0
    ensures BlobConfigSpec(EmulatorEndpoint, wasb, host) ==
      Resolution(BlobConfig(if location.blobEndpoint == "" then DefaultEndpoint(host.storageAccount) else location.blobEndpoint,
                            host.storageAccount, keys[0].value, DefaultTokenRenewBuffer, "", ""),
                 None)
  {
  }

  /** Discovery with the key unknown and no key to be had (listing fails or
      returns none) stops with a missing-key error. */
  lemma NoListedKeyIsMissingKey(wasb: string, host: BlobHost, client: AccountsClient, location: AccountLocation)
    requires '@' !in wasb
    requires host.storageAccount != "" && host.storageKey == ""
    requires IniSetting(host.loadIni, ConfigDirOf(host) + "/config", "key").None?
    requires AzureAccountsClient(host.auth) == Success(client)
    requires AzureFindAccount(host.arm.list(client), host.storageAccount) == Success(location)
    requires var listed := host.arm.listKeys(client, location.resourceGroup, host.storageAccount);
      listed.Failure? || listed.value == []
    ensures BlobConfigSpec(EmulatorEndpoint, wasb, host) == Resolution(ZeroConfig, Some(MissingKey(ConfigDirOf(host))))
  {
  }

  /** Without an account in the environment or in the ini file, the merge
      stops with a missing-account error naming the directory read. */
  lemma MissingAccountIsFatal(wasb: string, host: BlobHost)
    requires '@' !in wasb
    requires host.storageAccount == ""
    requires IniSetting(host.loadIni, ConfigDirOf(host) + "/config", "account").GetOr("") == ""
    ensures BlobConfigSpec("", wasb, host) == Resolution(ZeroConfig, Some(MissingAccount(ConfigDirOf(host))))
  {
  }

  // ---------------------------------------------------------------------
  // The procedure

  /** The part of `AzureBlobConfig` that reads the `container@host/path`
      argument. */
  method ParseWasbArgument(endpoint: string, wasb: string, parseUrl: string -> Option<Url>) returns (w: WasbTarget)
    ensures w == ParseWasb(endpoint, wasb, parseUrl)
  {
    w := WasbTarget(endpoint, "", "");
    var at := IndexOf(wasb, '@');
    if at != -1 {
      var storageEndpoint := "https://" + wasb[at + 1..];
      var u := Ask(parseUrl, storageEndpoint);
      if u.Some? {
        // it overrides the endpoint given
        w := WasbTarget(storageEndpoint, wasb[..at], Trim(u.value.path, '/'));
      }
    }
  }

  /** The part of `AzureBlobConfig` that takes the account from the
      endpoint's host name. */
  method AccountFromEndpointVar(endpoint: string, account0: string, parseUrl: string -> Option<Url>) returns (r: Result<string, Error>)
    ensures r == AccountFromEndpoint(endpoint, account0, parseUrl)
  {
    var account := account0;
    if endpoint != "" && endpoint != EmulatorEndpoint {
      var u := Ask(parseUrl, endpoint);
      if u.None? {
        return Failure(BadUrl(endpoint));
      }
      var dot := IndexOf(u.value.hostname, '.');
      if dot != -1 {
        account := u.value.hostname[..dot];
      }
    }
    r := Success(account);
  }

  /** The ini-file part of `AzureBlobConfig`: the locals `account`, `key`
      and `configDir` after it. */
  method ReadConfigVars(account0: string, key0: string, configDir0: string, homeAzureDir: string,
                        loadIni: string -> Option<map<string, map<string, string>>>)
    returns (account: string, key: string, configDir: string)
    ensures Credentials(account, key, configDir) == ReadConfigFile(account0, key0, configDir0, homeAzureDir, loadIni)
  {
    account, key, configDir := account0, key0, configDir0;
    if account == "" || key == "" {
      if configDir == "" {
        configDir := homeAzureDir;
      }
      var file := Ask(loadIni, configDir + "/config");
      if file.Some? && "storage" in file.value {
        var section := file.value["storage"];
        if account == "" && "account" in section {
          account := section["account"];
        }
        if key == "" && "key" in section {
          key := section["key"];
        }
      }
    }
  }

  /** The discovery part of `AzureBlobConfig`, run only when the endpoint or
      the key is still empty. Its key loop looks for a key with full
      permissions but then takes the first key in any case. */
  method DiscoverAccount(endpoint0: string, key0: string, account: string, configDir: string,
                         auth: AuthSources, arm: Arm) returns (d: Discovery)
    ensures d == Discover(endpoint0, key0, account, configDir, auth, arm)
  {
    var endpoint, key := endpoint0, key0;
    var err: Option<Error> := None;
    if endpoint == "" || key == "" {
      var client := AzureAccountsClient(auth);
      if client.Failure? {
        return Stop(client.error);
      }
      var found := AzureFindAccount(Ask(arm.list, client.value), account);
      var resourceGroup := "";
      if found.Failure? {
        endpoint := "";
        err := Some(found.error);
        if key == "" {
          return Stop(MissingKey(configDir));
        }
      } else {
        endpoint, resourceGroup := found.value.blobEndpoint, found.value.resourceGroup;
      }

      if key == "" {
        var keys := Ask3(arm.listKeys, client.value, resourceGroup, account);
        if keys.Failure? || |keys.value| == 0 {
          return Stop(MissingKey(configDir));
        }
        // prefer a key with full permissions ...
        var i := 0;
        while i < |keys.value| {
          if keys.value[i].permissions == Full {
            key := keys.value[i].value;
            break;
          }
          i := i + 1;
        }
        // ... but take the first one in any case
        key := keys.value[0].value;
      }
    }
    d := Proceed(endpoint, key, err);
  }

  /** `AzureBlobConfig`: reassigns the locals `account`, `key`, `endpoint`
      and `configDir` step by step and fills in the returned struct, which
      Go returns by value. */
  method AzureBlobConfig(endpoint0: string, wasb: string, host: BlobHost) returns (config: BlobConfig, err: Option<Error>)
    ensures Resolution(config, err) == BlobConfigSpec(endpoint0, wasb, host)
  {
    config := ZeroConfig;
    err := None;
    var endpoint := endpoint0;
    var account := host.storageAccount;
    var key := host.storageKey;
    var configDir := host.configDir;

    // check if the wasb argument carries the storage endpoint
    var w := ParseWasbArgument(endpoint, wasb, host.parseUrl);
    endpoint := w.endpoint;
    config := config.(container := w.container, prefix := w.prefix);

    // the account from the endpoint's host name
    var fromEndpoint := AccountFromEndpointVar(endpoint, account, host.parseUrl);
    if fromEndpoint.Failure? {
      err := Some(fromEndpoint.error);
      return;
    }
    account := fromEndpoint.value;
    BlobConfigSpecAfterAccount(endpoint0, wasb, host, account);

    // the ini file
    account, key, configDir := ReadConfigVars(account, key, configDir, host.homeAzureDir, host.loadIni);
    if account == "" {
      err := Some(MissingAccount(configDir));
      return;
    }

    var discovery := DiscoverAccount(endpoint, key, account, configDir, host.auth, host.arm);
    if discovery.Stop? {
      err := Some(discovery.error);
      return;
    }
    endpoint, key, err := discovery.endpoint, discovery.key, discovery.err;

    if endpoint == "" {
      endpoint := DefaultEndpoint(account);
    }
    config := config.(tokenRenewBuffer := DefaultTokenRenewBuffer);  // config.Init()
    config := config.(endpoint := endpoint, accountName := account, accountKey := key);
  }
}
