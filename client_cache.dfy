/** The process-wide client cache: one client per `url-anonKey` key,
    created on first request and never replaced or evicted. */
module ClientCache {
  import opened Accounts

  /** An opaque handle from the connection library, with the arguments it
      was created with; `handle` stands for the object's identity. */
  datatype Client = Client(handle: nat, url: string, anonKey: string, storageKey: string)

  /** The cache key `${url}-${anonKey}`; the alias is not part of it. */
  function CacheKey(account: Account): (key: string)
    ensures |key| == |account.url| + 1 + |account.anonKey|
    ensures key[..|account.url|] == account.url && key[|account.url|] == '-'
    ensures key[|account.url| + 1..] == account.anonKey
  {
    account.url + "-" + account.anonKey
  }

  /** The per-account name under which the library persists its session. */
  function StorageKey(alias: string): (key: string)
    ensures |key| == |"supabase-auth-"| + |alias|
    ensures key[..|"supabase-auth-"|] == "supabase-auth-"
    ensures key[|"supabase-auth-"|..] == alias
  {
    "supabase-auth-" + alias
  }

  /** Different aliases get different storage keys, so accounts sharing
      one connection still keep separate saved sessions by name. */
  lemma StorageKeyInjective(a: string, b: string)
    requires StorageKey(a) == StorageKey(b)
    ensures a == b
  {
    assert a == StorageKey(a)[|"supabase-auth-"|..];
  }

  /** How one `getClient(account)` call moves the cache from `before` to
      `after` and what it hands back: nothing without an account; otherwise
      the stored client of the account's key, or a new client created for
      this account and stored under that key, with nothing else changed. */
  ghost predicate Attached(before: map<string, Client>, after: map<string, Client>, account: Option<Account>, client: Option<Client>)
  {
    if account.None? then after == before && client.None?
    else
      var key := CacheKey(account.value);
      client.Some? && after == before[key := client.value] &&
      (key in before ==> client.value == before[key]) &&
      (key !in before ==>
        client.value.url == account.value.url && client.value.anonKey == account.value.anonKey &&
        client.value.storageKey == StorageKey(account.value.alias))
  }

  /** Accounts that differ only in alias share a key, hence a client. */
  lemma AliasNotInKey(a: Account, b: Account)
    requires a.url == b.url && a.anonKey == b.anonKey
    ensures CacheKey(a) == CacheKey(b)
  {
  }

  /** The key is not injective: url "a-b" with key "c" and url "a" with key
      "b-c" are different connections under one key. */
  lemma CacheKeyCollides()
    ensures var first := Account("x", "a-b", "c", None);
            var second := Account("y", "a", "b-c", None);
            (first.url, first.anonKey) != (second.url, second.anonKey) && CacheKey(first) == CacheKey(second)
  {
    assert "a-b" + "-" + "c" == "a" + "-" + "b-c";
  }

  class Cache {
    /** `clientCache` */
    var entries: map<string, Client>
    /** Source of fresh identities, standing in for `createClient`. */
    var nextHandle: nat

    /** Every stored client has an identity already handed out, and no two
        keys hold the same client. */
    ghost predicate Valid()
      reads this
    {
      (forall k :: k in entries ==> entries[k].handle < nextHandle) &&
      (forall k1, k2 :: k1 in entries && k2 in entries && k1 != k2 ==> entries[k1].handle != entries[k2].handle)
    }

    constructor ()
      ensures Valid() && entries == map[]
    {
      entries := map[];
      nextHandle := 0;
    }

    /** `getClient`: the stored client for the account's key, creating and
        storing one first when the key is new. */
    method GetClient(account: Account) returns (c: Client)
      requires Valid()
      modifies this
      ensures Valid()
      ensures CacheKey(account) in entries && entries[CacheKey(account)] == c
      ensures CacheKey(account) in old(entries) ==>
        c == old(entries)[CacheKey(account)] && entries == old(entries) && nextHandle == old(nextHandle)
      ensures CacheKey(account) !in old(entries) ==>
        c == Client(old(nextHandle), account.url, account.anonKey, StorageKey(account.alias)) &&
        entries == old(entries)[CacheKey(account) := c] && nextHandle == old(nextHandle) + 1
      ensures forall k :: k in old(entries) ==> k in entries && entries[k] == old(entries)[k]
      ensures forall k :: k in entries && k != CacheKey(account) ==> entries[k].handle != c.handle
    {
      var key := CacheKey(account);
      if key !in entries {
        var created := Client(nextHandle, account.url, account.anonKey, StorageKey(account.alias));
        entries := entries[key := created];
        nextHandle := nextHandle + 1;
      }
      c := entries[key];
    }
  }

  /** Two lookups on one cache: they return the same client exactly when the
      two accounts have the same key, and that client is named after the
      account that asked first. */
  method TwoLookups(first: Account, second: Account) returns (c1: Client, c2: Client)
    ensures c1 == c2 <==> CacheKey(first) == CacheKey(second)
    ensures c1.storageKey == StorageKey(first.alias)
    ensures c1.url == first.url && c1.anonKey == first.anonKey
    ensures CacheKey(first) != CacheKey(second) ==> c2.storageKey == StorageKey(second.alias)
  {
    var cache := new Cache();
    c1 := cache.GetClient(first);
    c2 := cache.GetClient(second);
  }
}
