/** The configured backend accounts and the alias lookup every operation of
    the hook performs (`accounts.find(acc => acc.alias === alias)`). */
module Accounts {

  datatype Option<T> = None | Some(value: T)

  /** One configured backend: its alias, endpoint, public key and an
      optional label. */
  datatype Account = Account(alias: string, url: string, anonKey: string, displayName: Option<string>)

  /** `createSupabaseAccount`: packs its four arguments into an account. */
  function CreateSupabaseAccount(alias: string, url: string, anonKey: string, displayName: Option<string>): (a: Account)
    ensures a.alias == alias && a.url == url && a.anonKey == anonKey && a.displayName == displayName
  {
    Account(alias, url, anonKey, displayName)
  }

  /** Some configured account carries this alias. */
  ghost predicate Known(accounts: seq<Account>, alias: string)
  {
    exists a :: a in accounts && a.alias == alias
  }

  /** The account at position `i` carries `alias`, and no account before
      it does. */
  ghost predicate FirstWithAliasAt(accounts: seq<Account>, i: int, alias: string)
  {
    0 <= i < |accounts| && accounts[i].alias == alias &&
    forall j :: 0 <= j < i ==> accounts[j].alias != alias
  }

  /** `accounts.find(acc => acc.alias === alias)`: the first account with
      that alias (exact, case-sensitive comparison), or nothing. */
  function Find(accounts: seq<Account>, alias: string): (r: Option<Account>)
    ensures r.None? <==> !Known(accounts, alias)
    ensures r.Some? ==> exists i :: FirstWithAliasAt(accounts, i, alias) && accounts[i] == r.value
  {
    if |accounts| == 0 then None
    else if accounts[0].alias == alias then
      assert FirstWithAliasAt(accounts, 0, alias);
      Some(accounts[0])
    else
      var r := Find(accounts[1..], alias);
      assert forall a :: a in accounts <==> a == accounts[0] || a in accounts[1..];
      assert r.Some? ==> exists i :: FirstWithAliasAt(accounts, i, alias) && accounts[i] == r.value by {
        if r.Some? {
          var i :| FirstWithAliasAt(accounts[1..], i, alias) && accounts[1..][i] == r.value;
          assert FirstWithAliasAt(accounts, i + 1, alias);
        }
      }
      r
  }

  /** What Find returns carries the alias asked for and is configured. */
  lemma FoundCarriesAlias(accounts: seq<Account>, alias: string)
    requires Find(accounts, alias).Some?
    ensures Find(accounts, alias).value.alias == alias
    ensures Find(accounts, alias).value in accounts
  {
    var i :| FirstWithAliasAt(accounts, i, alias) && accounts[i] == Find(accounts, alias).value;
  }

  /** There is no duplicate-alias check: when two accounts share an alias,
      the earlier one is the one every lookup returns. */
  lemma {:induction false} EarlierDuplicateWins(accounts: seq<Account>, i: nat, j: nat)
    requires i < j < |accounts|
    requires accounts[i].alias == accounts[j].alias
    requires forall k :: 0 <= k < i ==> accounts[k].alias != accounts[i].alias
    ensures Find(accounts, accounts[j].alias) == Some(accounts[i])
  {
    var alias := accounts[i].alias;
    assert accounts[i] in accounts;
    assert Find(accounts, alias).Some?;
    var k :| FirstWithAliasAt(accounts, k, alias) && accounts[k] == Find(accounts, alias).value;
    assert k == i;
  }
}
