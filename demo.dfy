/** The demo page's own copy of `useMultiSupabase`: the same address
    reading, resolution and `switchAccount`, but no client cache (a new mock
    client is built whenever the current account changes) and no
    back/forward listener, so only initialization and `switchAccount` ever
    change the current account. */
module Demo {
  import opened Accounts
  import opened Location
  import opened Resolution
  import MultiSupabase

  /** `createMockClient(account)`: a client bound to one account; `serial`
      stands for the identity of the freshly built object. */
  datatype MockClient = MockClient(owner: Account, serial: nat)

  class DemoSession {
    const config: Config

    var current: Option<Account>
    var isLoading: bool
    var error: Option<string>
    /** The browser address; `None` when there is no window. */
    var location: Option<Address>
    var client: Option<MockClient>
    /** How many mock clients have been built so far. */
    var builds: nat

    /** A mock client exactly when an account is selected, bound to it. */
    ghost predicate Valid()
      reads this
    {
      (client.None? <==> current.None?) &&
      (client.Some? ==> client.value.owner == current.value && client.value.serial < builds)
    }

    constructor (config: Config, location: Option<Address>)
      ensures Valid()
      ensures this.config == config && this.location == location
      ensures current.None? && client.None? && error.None? && isLoading && builds == 0
    {
      this.config := config;
      this.location := location;
      current := None;
      client := None;
      error := None;
      isLoading := true;
      builds := 0;
    }

    /** The uncached client memo: when the account differs from `previous`,
        a new mock client is built for it; otherwise the old one stays. */
    method RefreshClient(previous: Option<Account>)
      requires previous == current ==> Valid()
      requires current.Some? || Valid()
      modifies this`client, this`builds
      ensures Valid()
      ensures current == previous ==> client == old(client) && builds == old(builds)
      ensures current != previous && current.Some? ==> client == Some(MockClient(current.value, old(builds))) && builds == old(builds) + 1
    {
      if current != previous {
        if current.None? {
          client := None;
        } else {
          client := Some(MockClient(current.value, builds));
          builds := builds + 1;
        }
      }
    }

    /** The initialization effect, identical in rule to the hook's. */
    method Initialize()
      requires Valid()
      modifies this
      ensures Valid()
      ensures ResolveAt(config, location).Some? ==> current == ResolveAt(config, location) && error.None?
      ensures ResolveAt(config, location).None? ==> current == old(current) && error == Some(NoValidAccount)
      ensures !isLoading && location == old(location)
      ensures current == old(current) ==> client == old(client) && builds == old(builds)
      ensures current != old(current) ==> client == Some(MockClient(current.value, old(builds))) && builds == old(builds) + 1
    {
      var previous := current;
      isLoading := true;
      var urlAlias := UrlAlias(GetCurrentUrlParams(location, config.UrlParamName(), config.PathParamName()));
      var target := ResolveTarget(config.accounts, urlAlias, config.defaultAccount);
      assert target == ResolveAt(config, location);
      if target.Some? {
        current := target;
        error := None;
      } else {
        error := Some(NoValidAccount);
      }
      isLoading := false;
      RefreshClient(previous);
    }

    /** `switchAccount`, identical in rule to the hook's. */
    method SwitchAccount(alias: string)
      requires Valid()
      modifies this
      ensures Valid()
      ensures !Known(config.accounts, alias) ==>
        error == Some(MultiSupabase.NotFoundMessage(alias)) && current == old(current) && client == old(client) &&
        location == old(location)
      ensures Known(config.accounts, alias) ==>
        error.None? && current == Find(config.accounts, alias) && current.value.alias == alias &&
        location == (if old(location).Some? then Some(WithQueryParam(old(location).value, config.UrlParamName(), alias)) else None)
      ensures isLoading == old(isLoading)
      ensures current == old(current) ==> client == old(client) && builds == old(builds)
      ensures current != old(current) ==> client == Some(MockClient(current.value, old(builds))) && builds == old(builds) + 1
    {
      var previous := current;
      var account := Find(config.accounts, alias);
      if account.None? {
        error := Some(MultiSupabase.NotFoundMessage(alias));
        return;
      }
      FoundCarriesAlias(config.accounts, alias);
      error := None;
      current := account;
      if location.Some? {
        location := Some(WithQueryParam(location.value, config.UrlParamName(), alias));
      }
      RefreshClient(previous);
    }
  }

  /** "Refresh the page - the selected account persists via URL": after a
      successful switch, a fresh mount on the same address resolves to the
      account switched to. */
  method SwitchThenReload(s: DemoSession, alias: string) returns (reloaded: DemoSession)
    requires s.Valid() && s.location.Some?
    requires alias != "" && Known(s.config.accounts, alias)
    modifies s
    ensures reloaded.current == s.current == Find(s.config.accounts, alias)
    ensures reloaded.current.value.alias == alias
  {
    s.SwitchAccount(alias);
    reloaded := new DemoSession(s.config, s.location);
    reloaded.Initialize();
    ReloadAfterSwitch(s.config, old(s.location).value, alias);
  }

  /** The demo page's own setup: three accounts, default "personal", an
      address with no account token. Mounting selects "personal"; switching
      to "work" selects it and writes `account=work` to the query. */
  method WorkedExample() returns (initial: Option<string>, switched: Option<string>, query: Option<string>)
    ensures initial == Some("personal")
    ensures switched == Some("work")
    ensures query == Some("work")
  {
    var accounts := [
      CreateSupabaseAccount("personal", "https://personal-project.supabase.co", "personal-anon-key", Some("Personal Account")),
      CreateSupabaseAccount("work", "https://work-project.supabase.co", "work-anon-key", Some("Work Account")),
      CreateSupabaseAccount("client", "https://client-project.supabase.co", "client-anon-key", Some("Client Project"))
    ];
    var config := Config(accounts, Some("personal"), Some("account"), None);
    RootHasNoSegments();
    var s := new DemoSession(config, Some(Address("/", map[])));
    s.Initialize();
    initial := if s.current.Some? then Some(s.current.value.alias) else None;
    assert accounts[1] in accounts;
    s.SwitchAccount("work");
    switched := if s.current.Some? then Some(s.current.value.alias) else None;
    query := if s.location.Some? then QueryGet(s.location.value, "account") else None;
  }
}
