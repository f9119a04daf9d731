/** Storage-account discovery through the control plane: the accounts
    client of the default subscription (`azureAccountsClient`) and the
    search of its account list (`azureFindAccount`). */
module AzureAccounts {
  import opened Wrappers
  import opened GoStrings
  import opened AzureTypes
  import opened AzureAuth

  /** A storage account as listed by the control plane: its name, its
      resource id and its primary blob endpoint. */
  datatype StorageAccount = StorageAccount(name: string, id: string, blobEndpoint: string)

  datatype KeyPermission = Read | Full

  /** An access key of a storage account. */
  datatype AccountKey = AccountKey(keyName: string, value: string, permissions: KeyPermission)

  /** An accounts client: the subscription it lists and the authorizer it
      signs requests with. */
  datatype AccountsClient = AccountsClient(subscriptionId: string, authorizer: Authorizer)

  /** The control-plane calls `List` and `ListKeys(resourceGroup, account)`,
      as functions of the client and the arguments. */
  datatype Arm = Arm(
    list: AccountsClient -> Result<seq<StorageAccount>, Error>,
    listKeys: (AccountsClient, string, string) -> Result<seq<AccountKey>, Error>)

  /** Where a storage account was found: its blob endpoint and resource group. */
  datatype AccountLocation = AccountLocation(blobEndpoint: string, resourceGroup: string)

  /** `azureAccountsClient`: a client for the default subscription, signed
      by the chain's authorizer for that subscription's tenant; either
      failure is passed on. */
  function AzureAccountsClient(src: AuthSources): (r: Result<AccountsClient, Error>)
    ensures AzureDefaultSubscription(src.profile).Failure? ==>
      r == Failure(AzureDefaultSubscription(src.profile).error)
    ensures r.Success? <==>
      AzureDefaultSubscription(src.profile).Success? &&
      AuthorizerChain(AuthorizerConfig(AzureDefaultSubscription(src.profile).value.tenantId), src).Success?
    ensures r.Success? ==>
      r.value.subscriptionId == AzureDefaultSubscription(src.profile).value.id &&
      Success(r.value.authorizer) ==
        AuthorizerChain(AuthorizerConfig(AzureDefaultSubscription(src.profile).value.tenantId), src)
  {
    match AzureDefaultSubscription(src.profile)
    case Failure(e) => Failure(e)
    case Success(subscription) =>
      match AuthorizerChain(AuthorizerConfig(subscription.tenantId), src)
      case Failure(e) => Failure(e)
      case Success(authorizer) => Success(AccountsClient(subscription.id, authorizer))
  }

  /** The first account with the given name, if any. */
  function FindByName(accounts: seq<StorageAccount>, name: string): (r: Option<StorageAccount>)
    ensures r.None? <==> forall i | 0 <= i < |accounts| :: accounts[i].name != name
    ensures r.Some? ==> r.value.name == name && r.value in accounts
  {
    if |accounts| == 0 then None
    else if accounts[0].name == name then Some(accounts[0])
    else FindByName(accounts[1..], name)
  }

  lemma {:induction false} FindByNameIsEarliest(accounts: seq<StorageAccount>, name: string, i: int)
    requires 0 <= i < |accounts| && accounts[i].name == name
    requires forall j | 0 <= j < i :: accounts[j].name != name
    ensures FindByName(accounts, name) == Some(accounts[i])
  {
    if i > 0 {
      FindByNameIsEarliest(accounts[1..], name, i - 1);
    }
  }

  /** `azureFindAccount`: a failed listing passes its error on; no account
      of that name is "account not found"; otherwise the first account of
      that name decides, and its resource id must split into six pieces at
      '/' (the resource group is the fifth). */
  function AzureFindAccount(listed: Result<seq<StorageAccount>, Error>, account: string): (r: Result<AccountLocation, Error>)
    ensures listed.Failure? ==> r == Failure(listed.error)
    ensures listed.Success? && (forall i | 0 <= i < |listed.value| :: listed.value[i].name != account) ==>
      r == Failure(AccountNotFound(account))
  {
    match listed
    case Failure(e) => Failure(e)
    case Success(accounts) =>
      match FindByName(accounts, account)
      case None => Failure(AccountNotFound(account))
      case Some(acc) =>
        var parts := SplitN(acc.id, '/', 6);
        if |parts| != 6 then Failure(MalformedAccountId(acc.id))
        else Success(AccountLocation(acc.blobEndpoint, parts[4]))
  }

  /** The first account with the name decides, even when a later one has a
      well-formed id: an id with fewer than five slashes is malformed, any
      other gives the account's blob endpoint and the id's fifth piece. */
  lemma FindAccountUsesFirstMatch(accounts: seq<StorageAccount>, account: string, i: int)
    requires 0 <= i < |accounts| && accounts[i].name == account
    requires forall j | 0 <= j < i :: accounts[j].name != account
    ensures Occurrences(accounts[i].id, '/') < 5 ==>
      AzureFindAccount(Success(accounts), account) == Failure(MalformedAccountId(accounts[i].id))
    ensures Occurrences(accounts[i].id, '/') >= 5 ==>
      AzureFindAccount(Success(accounts), account) ==
        Success(AccountLocation(accounts[i].blobEndpoint, SplitN(accounts[i].id, '/', 6)[4]))
  {
    FindByNameIsEarliest(accounts, account, i);
  }

  /** A resource id of the documented shape
      `/subscriptions/{sub}/resourceGroups/{rg}/...` (here with the two
      fixed segments as `subscriptions` and `groups`) splits into its parts,
      so the fifth piece is the resource group. */
  lemma ResourceIdPieces(subscriptions: string, sub: string, groups: string, rg: string, rest: string)
    requires '/' !in subscriptions && '/' !in sub && '/' !in groups && '/' !in rg
    ensures SplitN("/" + subscriptions + "/" + sub + "/" + groups + "/" + rg + "/" + rest, '/', 6) ==
      ["", subscriptions, sub, groups, rg, rest]
  {
    var p4 := [rg, rest];
    var p3 := [groups] + p4;
    var p2 := [sub] + p3;
    var p1 := [subscriptions] + p2;
    var parts := [""] + p1;
    assert parts == ["", subscriptions, sub, groups, rg, rest];
    JoinCons(p4, '/');
    assert Join([rest], '/') == rest;
    JoinCons(p3, '/');
    JoinCons(p2, '/');
    JoinCons(p1, '/');
    JoinCons(parts, '/');
    assert p4 == p3[1..] && p3 == p2[1..] && p2 == p1[1..] && p1 == parts[1..];
    assert Join(parts, '/') == "/" + subscriptions + "/" + sub + "/" + groups + "/" + rg + "/" + rest;
    SplitNJoin(parts, '/', 6);
  }

  /** An id with only four slashes, such as `/sub/rg/providers/x`, is
      reported as malformed rather than read out of range. */
  lemma ShortIdIsMalformed(name: string, blobEndpoint: string)
    ensures AzureFindAccount(Success([StorageAccount(name, "/sub/rg/providers/x", blobEndpoint)]), name) ==
      Failure(MalformedAccountId("/sub/rg/providers/x"))
  {
    var parts := ["", "sub", "rg", "providers", "x"];
    assert Join(parts, '/') == "/sub/rg/providers/x" by {
      assert parts[1..][1..][1..] == ["providers", "x"];
    }
    SplitNJoin(parts, '/', 6);
  }
}
