/** The account-resolution rule the initialization effect applies: the URL
    alias (non-empty query token, else the path token), then the configured
    default, then the first configured account. */
module Resolution {
  import opened Accounts
  import opened Location
  import Text

  /** `MultiSupabaseConfig`; an absent parameter name defaults to
      "account". */
  datatype Config = Config(
    accounts: seq<Account>,
    defaultAccount: Option<string>,
    urlParamName: Option<string>,
    pathParamName: Option<string>)
  {
    function UrlParamName(): (name: string)
      ensures urlParamName.None? ==> name == DefaultParamName
      ensures urlParamName.Some? ==> name == urlParamName.value
    {
      if urlParamName.Some? then urlParamName.value else DefaultParamName
    }

    function PathParamName(): (name: string)
      ensures pathParamName.None? ==> name == DefaultParamName
      ensures pathParamName.Some? ==> name == pathParamName.value
    {
      if pathParamName.Some? then pathParamName.value else DefaultParamName
    }
  }

  const NoValidAccount := "No valid account found"

  /** The account the initialization effect settles on for a given URL
      alias, or nothing when no account is configured at all. */
  function Resolve(accounts: seq<Account>, urlAlias: Option<string>, defaultAccount: Option<string>): (r: Option<Account>)
    ensures r.None? <==> |accounts| == 0
    ensures r.Some? ==> r.value in accounts
  {
    var fromUrl := if Truthy(urlAlias) then Find(accounts, urlAlias.value) else None;
    var fromDefault := if fromUrl.None? && Truthy(defaultAccount) then Find(accounts, defaultAccount.value) else fromUrl;
    if fromDefault.None? && |accounts| > 0 then Some(accounts[0]) else fromDefault
  }

  /** The effect's step-by-step choice of `targetAccount`: URL alias,
      then default, then the first account. */
  method ResolveTarget(accounts: seq<Account>, urlAlias: Option<string>, defaultAccount: Option<string>) returns (target: Option<Account>)
    ensures target == Resolve(accounts, urlAlias, defaultAccount)
  {
    target := None;
    if Truthy(urlAlias) {
      target := Find(accounts, urlAlias.value);
    }
    if target.None? && Truthy(defaultAccount) {
      target := Find(accounts, defaultAccount.value);
    }
    if target.None? && |accounts| > 0 {
      target := Some(accounts[0]);
    }
  }

  /** Resolution of what the address currently says under a configuration. */
  function ResolveAt(config: Config, location: Option<Address>): (r: Option<Account>)
    ensures r.None? <==> |config.accounts| == 0
    ensures r.Some? ==> r.value in config.accounts
  {
    Resolve(config.accounts, UrlAlias(GetCurrentUrlParams(location, config.UrlParamName(), config.PathParamName())), config.defaultAccount)
  }

  /** A non-empty query token naming a configured alias decides the account,
      whatever the path says. */
  lemma QueryTokenFirst(accounts: seq<Account>, query: string, path: Option<string>, defaultAccount: Option<string>)
    requires query != "" && Known(accounts, query)
    ensures Resolve(accounts, UrlAlias(UrlParams(Some(query), path)), defaultAccount) == Find(accounts, query)
  {
  }

  /** With no usable query token, a known path token decides the account. */
  lemma PathTokenSecond(accounts: seq<Account>, query: Option<string>, path: string, defaultAccount: Option<string>)
    requires !Truthy(query)
    requires path != "" && Known(accounts, path)
    ensures Resolve(accounts, UrlAlias(UrlParams(query, Some(path))), defaultAccount) == Find(accounts, path)
  {
  }

  /** A non-empty query token that names no account is not retried with the
      path token: the outcome is the one with no URL alias at all. */
  lemma UnknownQueryIgnoresPath(accounts: seq<Account>, query: string, path: Option<string>, defaultAccount: Option<string>)
    requires query != "" && !Known(accounts, query)
    ensures Resolve(accounts, UrlAlias(UrlParams(Some(query), path)), defaultAccount) == Resolve(accounts, None, defaultAccount)
  {
  }

  /** When the URL alias is missing or unknown, a non-empty default that is
      configured decides the account. */
  lemma DefaultThird(accounts: seq<Account>, urlAlias: Option<string>, defaultAlias: string)
    requires !Truthy(urlAlias) || !Known(accounts, urlAlias.value)
    requires defaultAlias != "" && Known(accounts, defaultAlias)
    ensures Resolve(accounts, urlAlias, Some(defaultAlias)) == Find(accounts, defaultAlias)
  {
  }

  /** When neither the URL alias nor the default names a configured
      account, the first configured account is taken. */
  lemma FirstAccountLast(accounts: seq<Account>, urlAlias: Option<string>, defaultAccount: Option<string>)
    requires |accounts| > 0
    requires !Truthy(urlAlias) || !Known(accounts, urlAlias.value)
    requires !Truthy(defaultAccount) || !Known(accounts, defaultAccount.value)
    ensures Resolve(accounts, urlAlias, defaultAccount) == Some(accounts[0])
  {
  }

  /** Both tokens naming different configured accounts: the query token
      wins, so `?account=personal` on `/account/work` resolves to the
      personal account. */
  lemma QueryBeatsPathExample()
    ensures var personal := Account("personal", "https://personal-project.supabase.co", "personal-anon-key", None);
            var work := Account("work", "https://work-project.supabase.co", "work-anon-key", None);
            var address := Address("/account/work", map["account" := "personal"]);
            ResolveAt(Config([personal, work], None, None, None), Some(address)) == Some(personal)
  {
    var personal := Account("personal", "https://personal-project.supabase.co", "personal-anon-key", None);
    assert Find([personal], "personal") == Some(personal);
  }

  /** After the query parameter is set to a configured non-empty alias,
      re-reading the address resolves to the first account with that alias,
      whatever the path token is: the state a page reload restores. */
  lemma ReloadAfterSwitch(config: Config, address: Address, alias: string)
    requires alias != "" && Known(config.accounts, alias)
    ensures ResolveAt(config, Some(WithQueryParam(address, config.UrlParamName(), alias))) == Find(config.accounts, alias)
  {
    QueryTokenFirst(config.accounts, alias, PathToken(address.pathname, config.PathParamName()), config.defaultAccount);
  }

  /** The non-empty condition above is needed: an empty query value is
      falsy, so a switch to an account whose alias is "" is replaced on
      reload by whatever the path token names. */
  lemma EmptyAliasNotRestored()
    ensures var blank := Account("", "https://blank.supabase.co", "blank-anon-key", None);
            var work := Account("work", "https://work-project.supabase.co", "work-anon-key", None);
            var config := Config([blank, work], None, None, None);
            var switched := WithQueryParam(Address("/account/work", map[]), "account", "");
            Find(config.accounts, "") == Some(blank) &&
            ResolveAt(config, Some(switched)) == Some(work)
  {
    var blank := Account("", "https://blank.supabase.co", "blank-anon-key", None);
    var work := Account("work", "https://work-project.supabase.co", "work-anon-key", None);
    var accounts := [blank, work];
    var switched := WithQueryParam(Address("/account/work", map[]), "account", "");
    assert switched.pathname == "/account/work";
    WorkPathToken();
    var params := GetCurrentUrlParams(Some(switched), DefaultParamName, DefaultParamName);
    assert params == UrlParams(Some(""), Some("work"));
    assert UrlAlias(params) == Some("work");
    assert accounts[1..] == [work];
    assert Find(accounts, "work") == Some(work);
    assert Resolve(accounts, Some("work"), None) == Some(work);
  }

  /** `/account/work` yields the path token `work`. */
  lemma WorkPathToken()
    ensures PathToken("/account/work", "account") == Some("work")
  {
    var segs := ["account", "work"];
    assert Text.Join(segs[1..], '/') == "work";
    assert "/" + Text.Join(segs, '/') == "/account/work";
    SegmentsOfJoined(segs);
    assert Segments("/account/work") == segs;
    assert Text.IndexOf(segs, "account") == 0;
  }
}
