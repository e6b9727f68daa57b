/** `useMultiSupabase`: the state one mounted hook keeps (current account,
    error, loading flag, memoized client) and the three triggers that change
    it: the initialization effect, `switchAccount` and the back/forward
    (`popstate`) handler. Each trigger runs to completion; the client memo
    is refreshed at the end of every trigger that changes the account. */
module MultiSupabase {
  import opened Accounts
  import opened Location
  import opened Resolution
  import opened ClientCache

  /** The message `switchAccount` reports for an unknown alias. */
  function NotFoundMessage(alias: string): (message: string)
    ensures |message| == |"Account with alias '"| + |alias| + |"' not found"|
    ensures message[..|"Account with alias '"|] == "Account with alias '"
    ensures message[|"Account with alias '"|..|"Account with alias '"| + |alias|] == alias
    ensures message[|"Account with alias '"| + |alias|..] == "' not found"
  {
    "Account with alias '" + alias + "' not found"
  }

  class Session {
    const config: Config
    /** The shared, process-wide client cache. */
    const cache: Cache

    var current: Option<Account>
    var isLoading: bool
    var error: Option<string>
    /** The browser address; `None` when there is no window. */
    var location: Option<Address>
    var client: Option<Client>

    /** The memo agrees with the current account: a client exactly when an
        account is selected, and then the cached client of its key. */
    ghost predicate Valid()
      reads this, cache
    {
      cache.Valid() &&
      (client.None? <==> current.None?) &&
      (current.Some? ==> CacheKey(current.value) in cache.entries && client == Some(cache.entries[CacheKey(current.value)]))
    }

    /** A freshly mounted hook: nothing selected, loading. */
    constructor (config: Config, cache: Cache, location: Option<Address>)
      requires cache.Valid()
      ensures Valid()
      ensures this.config == config && this.cache == cache && this.location == location
      ensures current.None? && client.None? && error.None? && isLoading
    {
      this.config := config;
      this.cache := cache;
      this.location := location;
      current := None;
      client := None;
      error := None;
      isLoading := true;
    }

    /** The client memo: no client without an account, otherwise the cached
        one for its key. */
    method RefreshClient()
      requires cache.Valid()
      modifies this`client, cache
      ensures Valid()
      ensures Attached(old(cache.entries), cache.entries, current, client)
      ensures forall k :: k in old(cache.entries) ==> k in cache.entries && cache.entries[k] == old(cache.entries)[k]
    {
      if current.None? {
        client := None;
      } else {
        var c := cache.GetClient(current.value);
        client := Some(c);
      }
    }

    /** The initialization effect: resolve the account from the address and
        the configuration, or report that none is configured. */
    method Initialize()
      requires Valid()
      modifies this, cache
      ensures Valid()
      ensures ResolveAt(config, location).Some? ==> current == ResolveAt(config, location) && error.None?
      ensures ResolveAt(config, location).None? ==> current == old(current) && error == Some(NoValidAccount)
      ensures !isLoading && location == old(location)
      ensures Attached(old(cache.entries), cache.entries, current, client)
      ensures forall k :: k in old(cache.entries) ==> k in cache.entries && cache.entries[k] == old(cache.entries)[k]
    {
      isLoading := true;
      var urlAlias := UrlAlias(GetCurrentUrlParams(location, config.UrlParamName(), config.PathParamName()));
      var target := ResolveTarget(config.accounts, urlAlias, config.defaultAccount);
      assert target == ResolveAt(config, location);
      if target.Some? {
        current := target;
        error := None;
      } else {
        error := Some(NoValidAccount);
      }
      isLoading := false;
      RefreshClient();
    }

    /** `switchAccount`: an authoritative registry lookup; on success the
        account is selected and written to the query parameter in place. */
    method SwitchAccount(alias: string)
      requires Valid()
      modifies this, cache
      ensures Valid()
      ensures !Known(config.accounts, alias) ==>
        error == Some(NotFoundMessage(alias)) && current == old(current) && client == old(client) &&
        location == old(location) && cache.entries == old(cache.entries)
      ensures Known(config.accounts, alias) ==>
        error.None? && current == Find(config.accounts, alias) && current.value.alias == alias &&
        location == (if old(location).Some? then Some(WithQueryParam(old(location).value, config.UrlParamName(), alias)) else None) &&
        Attached(old(cache.entries), cache.entries, current, client)
      ensures isLoading == old(isLoading)
      ensures forall k :: k in old(cache.entries) ==> k in cache.entries && cache.entries[k] == old(cache.entries)[k]
    {
      var account := Find(config.accounts, alias);
      if account.None? {
        error := Some(NotFoundMessage(alias));
        return;
      }
      FoundCarriesAlias(config.accounts, alias);
      error := None;
      current := account;
      location := if location.Some? then Some(WithQueryParam(location.value, config.UrlParamName(), alias)) else None;
      RefreshClient();
    }

    /** The `popstate` handler, run after back/forward navigation moved the
        browser to `entry`: it follows a non-empty, known URL alias that
        differs from the current one, and otherwise leaves everything alone
        (no error, no default or first-account fallback). */
    method OnPopState(entry: Address)
      requires Valid()
      modifies this, cache
      ensures Valid()
      ensures location == Some(entry) && isLoading == old(isLoading)
      ensures var urlAlias := UrlAlias(GetCurrentUrlParams(Some(entry), config.UrlParamName(), config.PathParamName()));
              if Truthy(urlAlias) && (old(current).None? || old(current).value.alias != urlAlias.value) && Known(config.accounts, urlAlias.value)
              then current == Find(config.accounts, urlAlias.value) && error.None? &&
                   Attached(old(cache.entries), cache.entries, current, client)
              else current == old(current) && error == old(error) && client == old(client) && cache.entries == old(cache.entries)
      ensures forall k :: k in old(cache.entries) ==> k in cache.entries && cache.entries[k] == old(cache.entries)[k]
    {
      location := Some(entry);
      var urlAlias := UrlAlias(GetCurrentUrlParams(location, config.UrlParamName(), config.PathParamName()));
      if Truthy(urlAlias) && (current.None? || current.value.alias != urlAlias.value) {
        var account := Find(config.accounts, urlAlias.value);
        if account.Some? {
          current := account;
          error := None;
          RefreshClient();
        }
      }
    }
  }

  /** Client lifecycle across a switch and back: returning to an account
      hands out the very client it had before. */
  method SwitchAndBack(s: Session, first: string, second: string) returns (before: Client, after: Client)
    requires s.Valid()
    requires Known(s.config.accounts, first) && Known(s.config.accounts, second)
    modifies s, s.cache
    ensures before == after
    ensures s.current == Find(s.config.accounts, first) && s.client == Some(after)
  {
    s.SwitchAccount(first);
    before := s.client.value;
    s.SwitchAccount(second);
    s.SwitchAccount(first);
    after := s.client.value;
  }
}
