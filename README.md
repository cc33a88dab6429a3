# FACR registry client with a response cache, in Dafny

This project models the client the dashboard uses to query the FACR club registry
(`src/services/facr/facrApi.ts`). The client sits on top of an in-memory response cache,
and the model covers four parts of it:

- **The cache store.** A `Map` from cache key to `{data, timestamp}`. It is modelled as the class
  `Caching.CacheStore` with a `map` field and the methods `Lookup`, `Store` and `Clear`.
- **The request interceptor.** A GET request whose entry is younger than the TTL is answered
  from the cache with status 200 and "OK". Every other request goes to the network unchanged.
  The cache key is `method:url:JSON.stringify(params)`. `JSON.stringify` of the query parameters
  is modelled exactly for flat string-valued objects (module `Json`), together with a decoder.
  Through the decoder the model proves that different parameter lists never share a key, and
  that the same parameters in another order do not share one either.
- **The response interceptor.** A successful GET response is stored under its key with the
  current time. Failed responses and non-GET responses store nothing. Every response and every
  failure is passed on unchanged. A response answered from the cache passes through this
  interceptor too, so a cache hit is stored again with a new time.
- **The client operations.** `searchClubs`, `getClub`, `getClubTable`, `clearCache`,
  `getClubCompetitions` and `getCompetitionMatches`, and the three-way error mapping
  `handleApiError`.

Each interceptor is a pure function over the cache's `map`: `Transport.Intercept`,
`Transport.WriteBack`, and `Transport.Exchange` for one whole request, hit write-back
included. Each also has a method
over the shared `CacheStore` object that is proved equal to that function. Properties that
involve several calls are lemmas about the functions.

Time and the network are parameters:

- `now` is `Date.now()` as the request interceptor reads it.
- `at` is `Date.now()` as the response interceptor reads it.
- `ttl` is the configured TTL.
- `reply` is what the network would answer if the request were sent: a 2xx response, or one of
  the three failure shapes.

Five behaviours of the code that a reader may not expect:

- The cache key is not canonical. The code does not sort parameter names
  (`Json.StringifyOrderSensitive`).
- A TTL of 0 or less stops every hit only while the clock does not run backwards
  (`Caching.NonPositiveTtlNeverFresh`).
- A failed `getClub` inside `getClubCompetitions` reaches the caller with its message prefixed
  a second time (`FacrClient.CompetitionsFailureWrappedTwice`).
- The code stores a cache hit again, so its entry's timestamp is renewed and an entry that
  keeps being read never expires (`Transport.HitRenewsEntryAsWritten`; see Findings).
- The two interceptors spell the method differently in the key (see Findings). axios
  lower-cases the method before the interceptors run, so for the client both spellings agree
  and the model uses the lower-cased key `Transport.CacheKey` on both sides.

## Model

| member | source | states |
|---|---|---|
| `Caching.CacheStore.constructor` | src/services/facr/facrApi.ts:16 | the store starts with no entries |
| `Caching.CacheStore.Lookup` | src/services/facr/facrApi.ts:40 | returns the entry exactly when the key is present, and that key's entry; nothing changes |
| `Caching.CacheStore.Store` | src/services/facr/facrApi.ts:75-78 | the key now maps to `{data, timestamp: now}`; every other key keeps its entry; no key disappears |
| `Caching.CacheStore.Clear` | src/services/facr/facrApi.ts:144 | afterwards no key is present |
| `Caching.FreshUntilTtl` | src/services/facr/facrApi.ts:44 | an entry stored at t0 is fresh at t0 + age iff age < ttl: still fresh at t0 + ttl - 1, stale from t0 + ttl on |
| `Caching.NonPositiveTtlNeverFresh` | src/services/facr/facrApi.ts:44 | with ttl <= 0 and a clock that has not gone back, no entry is fresh |
| `Text.LowerIsGet` | src/services/facr/facrApi.ts:32 | the lower-cased method equals "get" exactly for the eight upper/lower-case spellings of GET |
| `Text.SplitPiecesAreSeparatorFree` | src/services/facr/facrApi.ts:161 | no piece of `split('/')` contains '/' |
| `Text.JoinSplit` | src/services/facr/facrApi.ts:161 | joining the pieces with '/' gives the original id back, so nothing is lost |
| `Text.SplitWithoutSeparator` | src/services/facr/facrApi.ts:161 | an id without '/' splits into itself alone |
| `Text.SplitAfterHead` | src/services/facr/facrApi.ts:161 | `a/b` with `a` free of '/' splits into `a` followed by the pieces of `b` |
| `Json.StringifyPlainParam` | src/services/facr/facrApi.ts:37 | `{q: v}` with unescaped characters serializes as `{"q":"v"}` |
| `Json.ParseStringify` | src/services/facr/facrApi.ts:37 | decoding the serialized parameters (or `undefined`) gives them back |
| `Json.StringifyInjective` | src/services/facr/facrApi.ts:37 | two parameter objects share a serialization only if they are equal, order included |
| `Json.StringifyOrderSensitive` | src/services/facr/facrApi.ts:37 | the same two parameters in the other order serialize differently: the key is not canonical |
| `Errors.HandleApiErrorCases` | src/services/facr/facrApi.ts:89-106 | with a response: the server's non-empty message, or "API request failed"; request only: the fixed no-response text; otherwise "API request failed: " + error.message |
| `Errors.MessageNonEmpty` | src/services/facr/facrApi.ts:89-106 | every mapped error has a non-empty message |
| `Errors.ShapesDistinguishable` | src/services/facr/facrApi.ts:89-106 | the default server message, the no-response text and every setup message differ pairwise |
| `Transport.RequestInterceptor` | src/services/facr/facrApi.ts:29-59 | reading the shared store, returns the decision of `Intercept` for its current entries |
| `Transport.ResponseInterceptor` | src/services/facr/facrApi.ts:66-86 | the store becomes `WriteBack` of the old store; the outcome is passed on unchanged |
| `Transport.Send` | src/services/facr/facrApi.ts:29-86 | the new store and the outcome are those of `Exchange` on the old store: a miss goes to the network, and both a miss and a hit pass the response interceptor |
| `Transport.NonGetPassesThrough` | src/services/facr/facrApi.ts:32-34 | a non-GET request passes unchanged whatever the cache holds; it goes to the network and the cache is not changed |
| `Transport.ServedIffFresh` | src/services/facr/facrApi.ts:40-58 | answered from the cache iff GET, entry present and now - timestamp < ttl; otherwise the config passes unchanged |
| `Transport.HitIgnoresNetwork` | src/services/facr/facrApi.ts:46-80 | a hit yields exactly the cached data with status 200 and "OK", whatever the network would reply; the response interceptor then stores the same data at `at`, and no other entry changes |
| `Transport.SuccessfulGetIsStored` | src/services/facr/facrApi.ts:73-80 | a missed GET that succeeds maps its key to `{data, at}`, leaves every other key alone and returns the response unmodified |
| `Transport.NoStoreOnFailureOrNonGet` | src/services/facr/facrApi.ts:72-85 | a request that goes to the network and fails, and any non-GET request, leave the cache identical; the failure is passed on |
| `Transport.WriteBackTouchesOneKey` | src/services/facr/facrApi.ts:72-80 | the response interceptor never removes a key and changes only the response's own key |
| `Transport.ClearedStoreMisses` | src/services/facr/facrApi.ts:143-145 | after clearing, every request goes to the network whatever the TTL |
| `Transport.RepeatedGetIsServed` | src/services/facr/facrApi.ts:37-80 | with the lower-cased key on both sides, after a successful GET at `at` the same request while now' - at < ttl is served from the cache with the same data, without the network; the entry keeps its data and takes the second response's time |
| `Transport.ReadsDoNotExtendLifetime` | src/services/facr/facrApi.ts:44-80 | in the exchange without renewal, an entry stored at t0 is served at t0 + ttl - 1, the read leaves the cache alone, and the request misses at t0 + ttl |
| `Transport.RenewalIsTheOnlyDifference` | src/services/facr/facrApi.ts:44-80 | the transport and the exchange without renewal settle every request alike and leave the same cache after a miss; after a hit the transport's cache differs only in the hit entry's time, which becomes `at` |
| `Transport.KeyDistinguishesParams` | src/services/facr/facrApi.ts:37 | same method and URL with different parameters give different keys |
| `Transport.UpperCaseGetNeverServedAsWritten` | src/services/facr/facrApi.ts:32-79 | as written, a "GET" request is stored under "get:..." but looked up under "GET:...", so it misses again |
| `Transport.HitRenewsEntryAsWritten` | src/services/facr/facrApi.ts:44-80 | in the transport as it runs, a hit at t0 + ttl - 1 re-stores the entry, so it is still served at t0 + ttl and at t0 + 2·ttl - 2 |
| `FacrClient.GetKey` | src/services/facr/facrApi.ts:37 | an `apiClient.get` request's key is "get:" + url + ":" + serialized params |
| `FacrClient.SearchKeyExample` | src/services/facr/facrApi.ts:113-115 | the search for "Sparta" is cached under `get:/club/search:{"q":"Sparta"}` |
| `FacrClient.ClubKeyExample` | src/services/facr/facrApi.ts:125 | the club request for football/123 is cached under `get:/club/football/123:undefined` |
| `FacrClient.SearchKeysDistinct` | src/services/facr/facrApi.ts:113-115 | searches for different queries never share an entry |
| `FacrClient.SearchTwiceThenClear` | src/services/facr/facrApi.ts:111-145 | a search repeated at once settles with the same payload without the network and leaves the cache as the first one did; after clearCache it misses |
| `FacrClient.CompetitionsFailureWrappedTwice` | src/services/facr/facrApi.ts:148-154 | a getClub failure seen through getClubCompetitions carries the "API request failed: " prefix once more than through getClub: never the same message, never the bare no-response text, and "API request failed: API request failed" without a server message |
| `FacrClient.SearchClubs` | src/services/facr/facrApi.ts:111-120 | sends `GET /club/search` with `{q: query}` through the transport (store as `Exchange` leaves it, hit write-back included); resolves with the payload or rejects with handleApiError's message |
| `FacrClient.GetClub` | src/services/facr/facrApi.ts:123-130 | sends `GET /club/<type>/<id>`, type defaulting to football; same settling |
| `FacrClient.GetClubTable` | src/services/facr/facrApi.ts:133-140 | sends `GET /club/<type>/<id>/table`; same settling |
| `FacrClient.ClearCache` | src/services/facr/facrApi.ts:143-145 | the shared store is empty afterwards |
| `FacrClient.GetClubCompetitions` | src/services/facr/facrApi.ts:148-155 | the store as getClub leaves it; the club's competitions, or none if the field is absent; a getClub failure's message is wrapped again |
| `FacrClient.GetCompetitionMatches` | src/services/facr/facrApi.ts:158-169 | fetches the club named by the split id; resolves with the matches of the competition with that id, or rejects via handleApiError |
| `FacrClient.FirstWithId` | src/services/facr/facrApi.ts:164 | the position of the first competition with the id, or the length when no competition has it |
| `FacrClient.FindCompetition` | src/services/facr/facrApi.ts:164 | `find` yields nothing iff no competition has the id, else the first one with it |
| `FacrClient.CompetitionRoutedThroughClub` | src/services/facr/facrApi.ts:161-162 | `type/id` splits into (type, id) and issues the same request as getClub(id, type) |
| `FacrClient.SplitCompetitionIdParts` | src/services/facr/facrApi.ts:161 | the type is the text before the first '/'; with no '/', the id is "undefined" |
| `FacrClient.MatchesOfFirstWithId` | src/services/facr/facrApi.ts:164-165 | no competition with the id gives no matches; otherwise the first such competition's matches, or none when it lists none |
| `FacrClient.CompetitionsDefaultToEmpty` | src/services/facr/facrApi.ts:151 | an absent competitions field gives the empty list; a present one is returned as is |

## Findings

| source | as written | input that shows it | evidently intended | confidence | as-written member | corrected member |
|---|---|---|---|---|---|---|
| src/services/facr/facrApi.ts:37 | the request interceptor builds the key from `config.method` as given, but the response interceptor (line 74) lower-cases it | a request configured with method "GET": stored under `get:...`, looked up under `GET:...`, never a hit | both interceptors use the same key | low, not executed: axios lower-cases `config.method` before interceptors run, which hides it | `Transport.UpperCaseGetNeverServedAsWritten` | `Transport.RepeatedGetIsServed` |
| src/services/facr/facrApi.ts:44-80 | the synthetic response of a hit passes through the response interceptor, which stores it again with `Date.now()` | entry stored at t0, TTL T: reads at t0 + T - 1 and t0 + T are both served from the cache | an entry expires T after the response that filled it | medium, not executed: relies on axios running response interceptors on the adapter's result | `Transport.HitRenewsEntryAsWritten` | `Transport.ReadsDoNotExtendLifetime` |

The client operations use `Transport.Exchange`, the transport as it runs: a hit is stored
again, which is the second finding. `Transport.ExchangeWithoutRenewal` is the exchange with
the intended fixed lifetime, and `Transport.RenewalIsTheOnlyDifference` relates the two.
For the first finding, `Transport.ExchangeAsWritten` is the exchange for a config whose
method is not lower-cased. The rest of the model uses the lower-cased key, because axios
lower-cases the method before the interceptors run.

## Left out

- The axios instance is not modelled: base URL, timeout, headers, and reading the TTL and
  timeout from environment variables with `parseInt`. The TTL is an `int` parameter. A `NaN`
  TTL, which would make every lookup miss, is not modelled.
- The `console.error` logging is left out. It has no effect on results.
- The network, promises and `await` become the `reply` parameter, and the two clock readings
  become the `now` and `at` parameters. Concurrent calls are not modelled: each request runs
  to completion before the next one. The race in which two concurrent misses for one key both
  write, last write wins, is outside the model.
- Some axios behaviour is assumed rather than modelled:
  - that axios turns non-2xx statuses into errors;
  - that an adapter's response still runs through the response interceptors.
- `toLowerCase` is modelled for ASCII letters only. For the `=== 'get'` test this gives the same
  answer, because no non-ASCII character lower-cases to g, e or t.
- `JSON.stringify` is modelled for flat objects with string values, written in the order given.
  JavaScript's rule that integer-like property names come first is not modelled. The source
  only sends `{q: query}` or no parameters at all.
- Response bodies are either a search answer or a club record. A `null` or non-object body, which
  would raise a TypeError inside `getCompetitionMatches`, is not modelled. The `table` field of
  a competition is not modelled either, because no operation reads it.
- `src/hooks/useFacrApi.ts`, `src/services/api.ts` and the `.tsx` pages and components are not
  part of this model. They are UI state, routing and authentication code.
- `Caching.NonPositiveTtlNeverFresh`: assumes `timestamp <= now`. With a clock that has gone
  back, the source does serve an entry even when the TTL is 0 or less.
