# Multi-account backend selection, modelled in Dafny

This project models `useMultiSupabase`, the React hook that decides which
of several configured backend accounts is active and hands out one client
per connection. Each account has an alias, an endpoint URL, a public key
and an optional label. The hook does four things:

- It reads two tokens from the browser address: the query parameter
  (default name `account`) and the path segment that follows the first
  `account` segment.
- It resolves the active account once on mount. A non-empty query token
  wins over the path token. An unknown alias falls back to the configured
  default, then to the first account. It reports `No valid account found`
  only when no account is configured.
- `switchAccount(alias)` selects an account directly and rewrites the
  query parameter in place. Back/forward navigation (`popstate`) follows
  the address only to a known alias that differs from the current one.
- A process-wide cache keyed by `url-anonKey` creates each client once and
  never evicts it.

The demo page carries a second copy of the hook. That copy has no cache and
no back/forward listener.

Modules, one per concern:

- `Text` (`text.dfy`): `split`, `filter(Boolean)`, `findIndex`.
- `Accounts` (`accounts.dfy`): the account record and the first-match
  lookup `find`.
- `Location` (`location.dfy`): the address as a pathname plus a query map.
  It reads the two tokens and rewrites one query parameter.
- `Resolution` (`resolution.dfy`): the resolution rule as a function, and
  its priority order as lemmas.
- `ClientCache` (`client_cache.dfy`): the cache as a class.
- `MultiSupabase` (`multi_supabase.dfy`): the hook's state as a `Session`
  class. It has one method per trigger.
- `Demo` (`demo.dfy`): the demo copy, the page's worked example and the
  reload round trip.

Where the code and its descriptions disagree, the model follows the code:

- The usage note at `framework_examples.ts:303` says the path takes
  precedence. The code reads `searchParam || pathParam`, so the query token
  wins. `Resolution.QueryBeatsPathExample` states this.
- Nothing rejects duplicate aliases. Every lookup returns the first match
  (`Accounts.EarlierDuplicateWins`).
- The back/forward handler does not rerun the full resolution. It has no
  default or first-account fallback and sets no error.

## Model

| member | source | states |
|---|---|---|
| `Text.Split` | multi_account_supabase_hook.ts:51 | `split('/')` always yields at least one piece, no piece contains `/`, and joining the pieces with `/` gives back the pathname |
| `Text.SplitJoin` | multi_account_supabase_hook.ts:51 | splitting undoes joining when no piece contains the separator |
| `Text.SplitConcat` | multi_account_supabase_hook.ts:51 | the pieces of `a/b` are the pieces of `a` followed by the pieces of `b` |
| `Text.NonEmpty` | multi_account_supabase_hook.ts:51 | `filter(Boolean)` keeps exactly the non-empty pieces and never lengthens the list |
| `Text.NonEmptyAppend` | multi_account_supabase_hook.ts:51 | filtering a concatenation filters each part and keeps their order, so the kept pieces stay in order with their repeats |
| `Text.NonEmptySingle` | multi_account_supabase_hook.ts:51 | a single piece is kept iff it is non-empty |
| `Text.NonEmptyKeepsAll` | multi_account_supabase_hook.ts:51 | filtering a list with no empty piece returns it unchanged |
| `Text.IndexOf` | multi_account_supabase_hook.ts:52 | `findIndex` gives -1 iff the value is absent, else a position holding it with no earlier occurrence |
| `Accounts.CreateSupabaseAccount` | multi_account_supabase_hook.ts:167-174 | the account carries the four arguments unchanged; the demo copy at multi_account_demo.tsx:123-125 is the same |
| `Accounts.Find` | multi_account_supabase_hook.ts:79 | `find` by alias is empty iff no account has that alias, else it is the account at the first position carrying it |
| `Accounts.FoundCarriesAlias` | multi_account_supabase_hook.ts:106 | a found account has the requested alias and is one of the configured accounts |
| `Accounts.EarlierDuplicateWins` | multi_account_supabase_hook.ts:110 | with two accounts sharing an alias, every lookup of that alias returns the earlier one |
| `Location.QueryGet` | multi_account_supabase_hook.ts:48 | the query token is present iff the parameter is set, and then it is the parameter's value |
| `Location.Segments` | multi_account_supabase_hook.ts:51 | path segments are non-empty and contain no `/`; their order is stated by `Location.SegmentsConcat` and `Location.SegmentsOfPiece` |
| `Location.SegmentsConcat` | multi_account_supabase_hook.ts:51 | the segments of `a/b` are the segments of `a` followed by those of `b` |
| `Location.SegmentsOfPiece` | multi_account_supabase_hook.ts:51 | a non-empty string without `/` is exactly one segment, and the empty string has none |
| `Location.TrailingSlash` | multi_account_supabase_hook.ts:51 | a trailing `/` adds no segment |
| `Location.DoubleSlash` | multi_account_supabase_hook.ts:51 | `//` gives the same segments as `/` |
| `Location.PathTokenIgnoresExtraSlashes` | multi_account_supabase_hook.ts:50-55 | a trailing or doubled `/` leaves the path token unchanged |
| `Location.PathToken` | multi_account_supabase_hook.ts:50-55 | the path token is non-empty and is the segment right after the first marker segment; it is absent iff there is no marker or the first marker is the last segment |
| `Location.GetCurrentUrlParams` | multi_account_supabase_hook.ts:44-58 | without a window both tokens are absent; otherwise the query token is the parameter's value and the path token is the one after the marker |
| `Location.UrlAlias` | multi_account_supabase_hook.ts:101 | `searchParam \|\| pathParam`: the alias is truthy iff one of the tokens is; a truthy query token is taken, otherwise the path token, whatever it is |
| `Location.WithQueryParam` | multi_account_supabase_hook.ts:89-93 | after the write, the parameter reads back as the alias; the pathname and every other parameter are unchanged |
| `Location.SegmentsOfJoined` | multi_account_supabase_hook.ts:51 | a pathname `/s1/.../sn` built from clean segments reads back as exactly those segments |
| `Location.RootHasNoSegments` | multi_account_supabase_hook.ts:51 | the root path `/` has no segments |
| `Location.PathTokenExample` | multi_account_supabase_hook.ts:50 | `/account/work/dashboard` yields the path token `work` |
| `Resolution.Resolve` | multi_account_supabase_hook.ts:103-116 | resolution yields nothing iff no account is configured, and otherwise a configured account |
| `Resolution.Config.UrlParamName` | multi_account_supabase_hook.ts:39 | an absent query parameter name defaults to `account`, a given one is used as is |
| `Resolution.Config.PathParamName` | multi_account_supabase_hook.ts:40 | an absent path marker defaults to `account`, a given one is used as is |
| `Resolution.ResolveAt` | multi_account_supabase_hook.ts:100-116 | resolving what the address says yields nothing iff no account is configured, and otherwise a configured account |
| `Resolution.ResolveTarget` | multi_account_supabase_hook.ts:103-115 | the step-by-step reassignment of `targetAccount` ends at exactly the account the resolution rule picks |
| `Resolution.QueryTokenFirst` | multi_account_supabase_hook.ts:101-107 | a non-empty query token naming a configured alias selects the first account with it, whatever the path token |
| `Resolution.PathTokenSecond` | multi_account_supabase_hook.ts:101 | with an absent or empty query token, a known path token selects the first account with it |
| `Resolution.UnknownQueryIgnoresPath` | multi_account_supabase_hook.ts:100-107 | a non-empty unknown query token is not retried with the path token: the outcome equals that of no URL alias |
| `Resolution.DefaultThird` | multi_account_supabase_hook.ts:109-111 | with the URL alias missing or unknown, a non-empty configured default is selected |
| `Resolution.FirstAccountLast` | multi_account_supabase_hook.ts:113-115 | with URL alias and default both missing or unknown, the first configured account is selected |
| `Resolution.QueryBeatsPathExample` | multi_account_supabase_hook.ts:101 | `?account=personal` on `/account/work` resolves to `personal` |
| `Resolution.ReloadAfterSwitch` | multi_account_demo.tsx:70-86 | after the query parameter is set to a known non-empty alias, re-resolving the address selects the first account with it, whatever the path |
| `Resolution.EmptyAliasNotRestored` | multi_account_demo.tsx:81 | an account with the empty alias is found by `find`, but after switching to it a reload on `/account/work` resolves to `work` |
| `Resolution.WorkPathToken` | multi_account_demo.tsx:51-55 | `/account/work` yields the path token `work` |
| `ClientCache.CacheKey` | multi_account_supabase_hook.ts:62 | the key is the url, a `-`, then the public key, in that order and nothing else |
| `ClientCache.StorageKey` | multi_account_supabase_hook.ts:68 | the storage key is `supabase-auth-` followed by the alias |
| `ClientCache.StorageKeyInjective` | multi_account_supabase_hook.ts:68 | different aliases get different storage keys |
| `ClientCache.AliasNotInKey` | multi_account_supabase_hook.ts:62 | accounts that differ only in alias have the same cache key |
| `ClientCache.CacheKeyCollides` | multi_account_supabase_hook.ts:62 | url `a-b` with key `c` and url `a` with key `b-c` are distinct connections with one cache key |
| `ClientCache.Cache.constructor` | multi_account_supabase_hook.ts:29 | the cache starts empty |
| `ClientCache.Cache.GetClient` | multi_account_supabase_hook.ts:61-75 | a stored key returns its client and changes nothing. A new key stores a fresh client with the account's url, key and `supabase-auth-<alias>` storage key. No entry is ever overwritten or removed, and no two keys share a client |
| `ClientCache.TwoLookups` | multi_account_supabase_hook.ts:62-74 | two lookups return the same client iff the keys are equal, and that client is named after the account that asked first |
| `MultiSupabase.NotFoundMessage` | multi_account_supabase_hook.ts:81 | the message is `Account with alias '`, the alias, then `' not found` |
| `MultiSupabase.Session.constructor` | multi_account_supabase_hook.ts:32-34 | a fresh hook has no account, no error, no client, and is loading |
| `MultiSupabase.Session.RefreshClient` | multi_account_supabase_hook.ts:151-154 | the memoized client is absent iff no account is selected, and then the cache is unchanged. Otherwise the cache gains exactly the entry `CacheKey(account) := client`: a stored key hands back its client, and a new key gets a client with the account's url, public key and storage key |
| `MultiSupabase.Session.Initialize` | multi_account_supabase_hook.ts:97-125 | on a resolved account it selects it and clears the error. With no account configured it sets `No valid account found` and keeps the current account. Loading ends and the address is untouched. The memo is refreshed: the cache gains exactly the entry for the selected account's key, and no existing entry changes |
| `MultiSupabase.Session.SwitchAccount` | multi_account_supabase_hook.ts:78-94 | an unknown alias sets `Account with alias '<alias>' not found` and changes nothing else. A known alias clears the error, selects the first account with it and writes it to the query parameter (no write without a window). The cache then gains exactly the entry for the selected account's key, and no existing entry changes |
| `MultiSupabase.Session.OnPopState` | multi_account_supabase_hook.ts:128-140 | the handler changes account only for a non-empty, known URL alias differing from the current alias, then clears the error, and the cache gains exactly the entry for the new account's key. Otherwise account, error, client and cache stay as they were |
| `MultiSupabase.SwitchAndBack` | multi_account_supabase_hook.ts:151-154 | switching away and back returns the very same client object |
| `Demo.DemoSession.constructor` | multi_account_demo.tsx:34-36 | a fresh demo hook has no account, no error, no client, and is loading |
| `Demo.DemoSession.RefreshClient` | multi_account_demo.tsx:107-110 | the mock client is absent iff no account is selected; a changed account gets a newly built client bound to it and the build count goes up by one. An unchanged account keeps its client and the build count |
| `Demo.DemoSession.Initialize` | multi_account_demo.tsx:77-105 | the same resolution outcome and error rule as the hook's initialization. When the account changes, a new mock client is built for it and the build count rises by one; otherwise client and build count stay |
| `Demo.DemoSession.SwitchAccount` | multi_account_demo.tsx:60-75 | the same not-found error, selection and query write as the hook's `switchAccount`. When the account changes, a new mock client is built for it and the build count rises by one; otherwise client and build count stay |
| `Demo.SwitchThenReload` | multi_account_demo.tsx:338 | after a successful switch to a non-empty alias, a fresh mount on the new address selects the same account |
| `Demo.WorkedExample` | multi_account_demo.tsx:219-244 | with accounts personal, work and client, default `personal` and no tokens, mounting selects `personal`. Switching to `work` then selects `work` and sets `account=work` |

## Left out

- URL parsing is not modelled. The address is a pathname string plus a map from parameter names to values, so repeated query names, parameter order and percent-encoding are out.
- Browser I/O is not modelled: `window.location`, `history.replaceState` and the `popstate` subscription. A back/forward step is a call of `OnPopState` with the new address. "No window" is a `None` address, in which both tokens are absent.
- `createClient` from `@supabase/supabase-js` is foreign code. It is a fresh numbered handle that records its url, key and storage key. The `persistSession` option and everything the client does are out.
- `createMockClient`'s canned user and row data are out. A mock client records only the account it was built for.
- React scheduling is not modelled: `useState`, `useEffect`, `useMemo` and re-renders. Each effect is an explicit method call. The client memo is refreshed at the end of each trigger that changes the account. Effects re-running because the caller rebuilt its account list (the demo builds it on every render) are not modelled.
- `Demo.DemoSession.RefreshClient` treats two accounts as the same when they are equal as values. React compares object references.
- `AccountSwitcher` and the rest of the pages are presentation code and are not modelled.
- Asynchronous consumers of the client and stale results after a switch are out. The code has no generation guard to verify.
- `Resolution.ReloadAfterSwitch` and `Demo.SwitchThenReload` hold only for a non-empty alias. An empty query value is falsy and falls through to the path token, as `Resolution.EmptyAliasNotRestored` shows.
- `MultiSupabase.Session.Valid` is proved for the session that makes a call. Other sessions sharing the cache stay valid because `GetClient` never changes an existing entry, but no lemma states this.
