# eip721-subgraph, modelled in Dafny

This project models three parts of the eip721-subgraph repository and proves properties of them:

- **The ERC-721 event indexer** (`src/mapping.ts`). It keeps an entity store of accounts, contracts, detection records, tokens, operator approvals and transfer logs. It classifies each emitting address once through ERC-165 introspection. It then updates the store from the ERC-721 `Transfer`, `Approval` and `ApprovalForAll` events, the ERC-2309 `ConsecutiveTransfer` event, and the ERC-4906 `MetadataUpdate` and `BatchMetadataUpdate` events.
- **Token-metadata retrieval** (`packages/client/src/metadata/fetcher.ts`). A token URI is resolved to the gateway URLs to try, in order. The URI gets a cache key. The URLs are tried in order, and the first answer is cached.
- **The metadata caches** (`packages/client/src/metadata/cache.ts`). The memory cache has lazy TTL expiry; the no-op cache stores nothing.

Files:

- `wrappers.dfy`: `Option` and `Result`.
- `decimal.dfy`: decimal numerals with parse round trips. They give the injectivity of the log ids of a consecutive transfer and of the escaped cache key.
- `entities.dfy`: the value side of the indexer. This covers addresses, the interface ids `0x01ffc9a7`, `0x80ac58cd`, `0x00000000` and `0x5b5e139f`, the entities, the contract reads as an oracle `Chain`, the range guard, log ids, and predicates describing what a range handler does to the token and log tables.
- `mapping.dfy`: the store as the class `Indexer`, with one map per entity kind and one method per function of `mapping.ts`. What `fetchERC721` does to the store is first defined on values (`FetchedContract`, `AccountsAfterFetch`, `ContractsAfterFetch`, `ProbesOfFetch`). The methods are proved against those functions. The invariant `ContractsMatchVerdicts` is preserved by every handler: a contract exists exactly for an address whose recorded verdict is positive.
- `cache.dfy`: the class `MetadataCache`. It is a memory cache or a no-op cache, and it takes `now` explicitly.
- `fetcher.dfy`: URI resolution, cache keys, cache selection and the failover loop. The loop is proved against `LeadingFailures`.

A contract read that reverts is `None` in the oracle. A `supportsInterface` probe passes only when the call returns the expected answer. So a revert fails the negated probe on `0x00000000` too, as `result != null && … == expected` does.

The ghost field `probes` records every `supportsInterface` call. This is what lets "classification runs at most once per address" be stated.

With the cache option unset or 'memory', `fetchTokenMetadata` builds a new, empty memory cache on every call, and with 'none' a no-op cache (`ResolveCache`). So a hit needs a cache instance passed in, or, in a browser, the 'localStorage' cache, which persists across calls there and is not part of this model. Where `localStorage` is undefined, that option also yields a new memory cache on every call.

`FetchTokenMetadata` takes the cache-key function as a parameter. With `CacheKey` it is `fetchTokenMetadata` as written; with `EscapedCacheKey` it is the corrected version (see "## Findings"). The cache is read at the clock reading `now` and written at a later reading `setAt`, taken once the value arrived.

## Model

| member | source | states |
|---|---|---|
| Entities.SupportsInterface | src/mapping.ts:43-53 | the probe passes iff the call returned exactly `expected`; a revert fails it whatever `expected` is |
| Entities.IsERC721 | src/mapping.ts:72-75 | the verdict is positive iff ERC-165 and ERC-721 answer true and `0x00000000` answers false |
| Entities.DetectionKey | src/mapping.ts:66 | the detection record key is 24 bytes long and begins with the address |
| Entities.DetectionKeyIsNoAddress | src/mapping.ts:66 | a detection record never shares its id with a plain account |
| Entities.DetectionKeyInjective | src/mapping.ts:66 | distinct addresses have distinct detection records |
| Mapping.FetchIdempotent | src/mapping.ts:56-97 | a second fetchERC721 of an address issues no probe, changes nothing and returns what the first returned |
| Mapping.FirstFetchClassifies | src/mapping.ts:65-78 | a first fetch issues the three probes in order and records their verdict; a contract results iff the verdict is positive |
| Mapping.NewContractFields | src/mapping.ts:80-94 | a new contract has the address as id and account link, name and symbol from the chain or '' on revert, and the metadata probe as `supportsMetadata` |
| Mapping.NegativeVerdictSticks | src/mapping.ts:67-96 | in a consistent store, a recorded negative verdict yields no contract and no probe, and writes nothing |
| Mapping.FetchKeepsInvariant | src/mapping.ts:56-97 | fetchERC721 keeps contracts and recorded verdicts in agreement |
| Mapping.AccountSavedKeepsInvariant | src/mapping.ts:37-41 | saving a plain account, whatever its fields, keeps the store consistent |
| Mapping.TransferSavesKeepInvariant | src/mapping.ts:135-186 | the saves of a transfer handler (emitter, from, to, zero account) keep the store consistent |
| Mapping.Indexer.constructor | src/mapping.ts:37-41 | the store starts empty and consistent |
| Mapping.Indexer.FetchAccount | src/mapping.ts:37-41 | the account of the address is saved and returned; a new one has no verdict |
| Mapping.Indexer.FetchERC721 | src/mapping.ts:56-97 | result, account table, contract table and issued probes are those of the fetch functions on the old store; the result is the stored contract; consistency is kept |
| Mapping.Indexer.FetchERC721Token | src/mapping.ts:99-119 | a stored token is returned unchanged with nothing written; a new one is unsaved, owned by and approved to zero, and has a uri iff the contract supports metadata ('' on revert); the zero account is saved |
| Mapping.Indexer.FetchERC721Operator | src/mapping.ts:121-133 | the stored record, else an unsaved one for (contract, owner, operator) that is not approved |
| Mapping.Indexer.HandleTransfer | src/mapping.ts:135-156 | without a contract only the fetch happens; otherwise the token gets owner `to` and zero approval, exactly one log with the event id is written, and the accounts of from, to and zero are saved |
| Mapping.Indexer.HandleConsecutiveTransfer | src/mapping.ts:158-186 | a difference above 5000 changes nothing; otherwise every id from..to is transferred to `to` with approval reset and gets its own log `eventId-id`; other tokens and logs are kept |
| Mapping.Indexer.TransferInRange | src/mapping.ts:170-184 | one id of a consecutive transfer: token transferred, log written under `eventId-id`, zero account saved |
| Mapping.Indexer.HandleApproval | src/mapping.ts:188-211 | the token gets the event's owner and approval; no log is written; the owner and approved accounts are saved |
| Mapping.Indexer.HandleApprovalForAll | src/mapping.ts:213-234 | the operator record (contract, owner, operator) is upserted with the event's flag; no log is written |
| Mapping.Indexer.UpdateURI | src/mapping.ts:257-266 | a token owned by zero is not saved; any other token gets the uri read from the chain ('' on revert); no token is created |
| Mapping.Indexer.HandleMetadataUpdate | src/mapping.ts:236-241 | one token is refreshed, and only for a contract that supports metadata |
| Mapping.Indexer.HandleBatchMetadataUpdate | src/mapping.ts:243-255 | a difference above 5000 changes nothing; otherwise every id from..to is refreshed, only for a contract that supports metadata |
| Entities.NewContract | src/mapping.ts:82-88 | the contract built on a positive verdict: the address as id and account link, name and symbol read from the chain ('' on revert), and the metadata probe; its properties are stated by NewContractFields |
| Entities.ResolveToken | src/mapping.ts:99-119 | the token fetchERC721Token yields: the stored one, else a new one owned by and approved to zero, with a uri only for a metadata contract; stated by FetchERC721Token |
| Entities.ResolveOperator | src/mapping.ts:121-133 | the operator record fetchERC721Operator yields: the stored one, else a new, unapproved one; stated by FetchERC721Operator |
| Entities.Transferred | src/mapping.ts:143-144 | a transfer sets the owner and resets the approval to zero |
| Mapping.StoredVerdict | src/mapping.ts:67-78 | the verdict fetchERC721 acts on: the recorded one, else a new classification |
| Mapping.FetchedContract | src/mapping.ts:56-97 | the result of fetchERC721 on a given store; its properties are FetchIdempotent, FirstFetchClassifies and NegativeVerdictSticks |
| Mapping.ContractsAfterFetch | src/mapping.ts:56-97 | the contract table after fetchERC721: only a contract built on a positive verdict is added |
| Mapping.AccountsAfterFetch | src/mapping.ts:56-97 | the account table after fetchERC721: a missing detection record gets the verdict, and a positive verdict links the address's account |
| Mapping.ProbesOfFetch | src/mapping.ts:56-97 | the supportsInterface calls of fetchERC721, in order: the three classification probes only without a detection record, and the metadata probe only on a positive verdict |
| Entities.RangeTransferred | src/mapping.ts:169-174 | every id lo..hi of the contract is owned by `to` with approval reset; every other token is kept |
| Entities.RangeLogged | src/mapping.ts:176-184 | one log per id lo..hi under `eventId-id`; every other log is kept |
| Entities.UrisRefreshed | src/mapping.ts:252-265 | no token is created, a token owned by zero is kept, every other token in lo..hi gets the uri read from the chain |
| Entities.Verdict | src/mapping.ts:76 | the detection record holds the address exactly on a positive verdict, and nothing otherwise |
| Entities.OrEmpty | src/mapping.ts:85-86 | a reverted string read becomes '' and a successful one its value |
| Entities.TokenURI | src/mapping.ts:113-114 | the uri read for a token from its contract, '' on revert; used again at mapping.ts:263-264 |
| Entities.ClassificationProbes | src/mapping.ts:72-74 | the three classification probes on the address, ERC-165, ERC-721 and 0x00000000, in that order |
| Mapping.Refreshes | src/mapping.ts:238 | a metadata update proceeds only for a fetched contract that supports metadata (also mapping.ts:248) |
| Entities.LogId | src/mapping.ts:176 | the log id of one token of a consecutive transfer: the event id, '-', and the decimal token id |
| Decimal.DecimalString | src/mapping.ts:176 | `BigInt.toString()`: at least one character, starting with '-' iff the number is negative; read back by DecimalStringInjective |
| Entities.RangeCount | src/mapping.ts:160-167 | the event is dropped iff to - from > 5000; otherwise the loop bound is to - from |
| Entities.RangeBoundary | src/mapping.ts:160-169 | a difference of exactly 5000 is accepted and gives 5001 logs; 5001 is dropped |
| Entities.EmptyRange | src/mapping.ts:169 | a range with to < from transfers, logs and refreshes nothing |
| Entities.LogIdInjective | src/mapping.ts:176 | distinct token ids of one event give distinct log ids |
| Entities.RangeLogIdsCount | src/mapping.ts:169-184 | a consecutive transfer of lo..hi writes exactly hi - lo + 1 distinct logs |
| Decimal.DecimalStringInjective | src/mapping.ts:176 | `tokenId.toString()` is injective |
| Fetcher.WithEach | packages/client/src/metadata/fetcher.ts:54 | one URL per gateway, in gateway order, each the gateway followed by the path |
| Fetcher.SchemeMarks | packages/client/src/metadata/fetcher.ts:52-80 | the URI schemes are told apart by their first characters, and no URI with a known scheme looks like a bare hash, so the hash rule never overrides a scheme rule |
| Fetcher.ResolveTokenURI | packages/client/src/metadata/fetcher.ts:33-85 | empty URI iff error; never an empty list; ipfs://, /ipfs/ and ar:// fan out over their gateways; data: and http(s) are kept; a 46-alphanumeric prefix fans out whole; anything else is kept |
| Fetcher.DefaultIpfsFanOut | packages/client/src/metadata/fetcher.ts:9-19 | with a missing or empty IPFS gateway list, `ipfs://`, `/ipfs/` and bare-hash URIs fan out over exactly the nine default gateways, in order |
| Fetcher.DefaultArweaveFanOut | packages/client/src/metadata/fetcher.ts:21-24 | with a missing or empty Arweave gateway list, an `ar://` URI fans out over exactly the two default gateways, in order |
| Fetcher.GatewaysOrDefault | packages/client/src/metadata/fetcher.ts:40-45 | a non-empty given list is used as it is, otherwise the defaults; the result is never empty when the defaults are not |
| Fetcher.LooksLikeIpfsHash | packages/client/src/metadata/fetcher.ts:80 | the URI begins with at least 46 ASCII letters and digits; what follows is not looked at |
| Fetcher.SanitizedChar | packages/client/src/metadata/fetcher.ts:109 | only letters, digits and '_' come out; a letter or digit is kept, and a character comes out alphanumeric iff it went in alphanumeric |
| Fetcher.Sanitized | packages/client/src/metadata/fetcher.ts:109 | same length; letters and digits kept in place, every other character replaced by '_' |
| Fetcher.CacheKey | packages/client/src/metadata/fetcher.ts:108-110 | length min(|uri|, 100); each character the sanitised one at the same position; only letters, digits and '_' |
| Fetcher.CacheKeyMergesPunctuation | packages/client/src/metadata/fetcher.ts:108-110 | `ar://A-B` and `ar://A_B` get the same key |
| Fetcher.LongUrisShareKey | packages/client/src/metadata/fetcher.ts:108-110 | any two URIs of 100 characters or more that agree on their first 100 characters get the same key, however they differ after |
| Fetcher.EscapedChar | packages/client/src/metadata/fetcher.ts:109 | a letter or digit stands for itself; any other character is escaped |
| Fetcher.EscapedCacheKey | packages/client/src/metadata/fetcher.ts:108-110 | the corrected key uses only letters, digits and '_', like getCacheKey |
| Fetcher.UnescapeEscaped | packages/client/src/metadata/fetcher.ts:108-110 | the corrected key reads back to the URI |
| Fetcher.EscapedCacheKeyInjective | packages/client/src/metadata/fetcher.ts:190-194 | distinct URIs get distinct corrected keys, so a cache hit is always for the same URI |
| Fetcher.ResolveCache | packages/client/src/metadata/fetcher.ts:115-129 | unset or 'memory' gives a new empty memory cache with the ttl; 'none' gives a new no-op cache; an instance is used as given |
| Fetcher.LeadingFailures | packages/client/src/metadata/fetcher.ts:211-221 | the URLs before it all fail, and the one at it answers |
| Fetcher.CachedAnswer | packages/client/src/metadata/fetcher.ts:191-194 | a hit is a fresh entry whose value is truthy, and then it is that entry's value |
| Fetcher.FetchFirst | packages/client/src/metadata/fetcher.ts:209-226 | the first URL that answers wins and is cached at the set-time clock, after only the URLs before it were fetched; if all fail, every URL's failure is reported in order and nothing is cached |
| Fetcher.FetchTokenMetadata | packages/client/src/metadata/fetcher.ts:180-227 | a truthy cache hit is returned with nothing fetched; a data: URI is decoded and cached; an empty URI raises; otherwise the result of trying the resolved URLs in order; no entry under another key is changed or added |
| Fetcher.SharedKeyServesOtherToken | packages/client/src/metadata/fetcher.ts:189-216 | with getCacheKey, after a successful fetch of one URI, a fetch of another URI with the same key, while the entry is fresh, returns the first URI's document and fetches nothing |
| Fetcher.EscapedKeysKeepTokensApart | packages/client/src/metadata/fetcher.ts:189-216 | with the corrected key, after a fetch of one URI, a fetch of a distinct URI is decoded, or resolved and fetched, for its own URI |
| Cache.Lookup | packages/client/src/metadata/cache.ts:16-26 | an absent key gives null; a present entry is served iff now <= expiresAt |
| Cache.Evicted | packages/client/src/metadata/cache.ts:17-23 | the lookup answer is unchanged by the eviction; only the looked-up key can disappear, and no entry changes |
| Cache.Stored | packages/client/src/metadata/cache.ts:28-33 | the key is added to the table; with a non-negative ttl the value is served at the time of the set |
| Cache.Remembered | packages/client/src/metadata/cache.ts:28-33 | the table after set on either cache: the no-op cache (cache.ts:114) keeps its table; the memory cache serves the value at the time of the set with a non-negative ttl; every other entry is kept |
| Cache.StoredThenFound | packages/client/src/metadata/cache.ts:20-33 | after set at t, get answers the value at any now <= t + ttl and evicts nothing |
| Cache.StoredThenExpired | packages/client/src/metadata/cache.ts:20-33 | after set at t, get at now > t + ttl answers null and removes the key |
| Cache.EvictionIsLocal | packages/client/src/metadata/cache.ts:20-23 | an expired get removes that key alone; a hit changes nothing |
| Cache.MissIsFinal | packages/client/src/metadata/cache.ts:16-26 | without a new set, a miss stays a miss at later times |
| Cache.StoreReplaces | packages/client/src/metadata/cache.ts:28-33 | set replaces the value and resets the expiry to now + ttl; other keys are kept |
| Cache.MetadataCache.Memory | packages/client/src/metadata/cache.ts:12-13 | an empty memory cache with the given ttl |
| Cache.MetadataCache.NoStore | packages/client/src/metadata/cache.ts:111-118 | a cache whose table is empty and stays empty |
| Cache.MetadataCache.Get | packages/client/src/metadata/cache.ts:16-26 | answers `Lookup` of the old table and leaves the `Evicted` table; the no-op cache answers null |
| Cache.MetadataCache.Set | packages/client/src/metadata/cache.ts:28-33 | the table becomes the `Remembered` one: `Stored` for the memory cache, unchanged for the no-op cache |
| Cache.MetadataCache.Delete | packages/client/src/metadata/cache.ts:35-37 | removes that key only |
| Cache.MetadataCache.Clear | packages/client/src/metadata/cache.ts:39-41 | empties the table |

## Left out

- Network I/O is not modelled. `fetchWithTimeout`, `AbortController`, the per-gateway timeout (`DEFAULT_TIMEOUT`) and real `fetch` are replaced by an oracle from URL to a value or an error message.
- `parseDataURI` is not modelled. It rests on `atob`, `JSON.parse` and `decodeURIComponent`, so it is an oracle that yields a value or fails.
- `createLocalStorageCache` (browser storage and JSON) is not part of this model. `ResolveCache` answers `None` for 'localStorage'.
- `createMetadataFetcher` is not part of this model. It only wires a resolved cache and options into `fetchTokenMetadata` and `resolveTokenURI`.
- `fetchTokenMetadata` tests a cache hit with JavaScript truthiness, which is the parameter `truthy` here; the JSON values it is applied to are not modelled.
- Fetcher.FetchTokenMetadata: each call runs on the cache without interruption. In the source, the awaits at `cache.get`, at each gateway fetch and at `cache.set` let other calls that share the cache (such as the one `createMetadataFetcher` builds and reuses) get, set or clear in between, so the final table is not a function of the table at the start alone. A cache passed in is also modelled only as a memory or no-op `MetadataCache`, while the `MetadataCache` interface admits any implementation. A `set` of such a cache that throws inside the loop's `try` makes the source move on to the next gateway, which is not modelled.
- The thrown error text of `fetchTokenMetadata` is not modelled. The model returns the list of (URL, failure message) pairs the text is built from. The conversion of a non-`Error` throw into an `Error` is not modelled.
- `Date.now()` and `expiresAt` are JavaScript numbers; they are modelled as integers.
- Strings are sequences of Unicode scalar values. The source's regular expressions and `slice` work on UTF-16 code units. So for characters outside the Basic Multilingual Plane, getCacheKey writes two '_' where the model writes one, and cuts at a different place.
- Entity ids built with `toHex()` and '/' are modelled as structured keys (`TokenKey`, `OperatorKey`). `events.id(event)` and `transactions.log(event).id` are opaque strings carried by `Event`.
- `count.toI32()` is modelled as exact. Token ids and their differences are unbounded integers. The graph-ts behaviour for a negative difference below -2^31 is not modelled.
- Entity `save()` is modelled as writing the whole entity under its id. `load()` is a map lookup.
- Mapping.Indexer.FetchAccount: states nothing about the fields of an account that already existed. The source saves a new, empty `Account` under that id, and what a re-save does to a stored `asERC721` is up to the store. The model keeps the stored account.
- Mapping.Indexer.FetchERC721Operator: a new record's `approved` is unset in the source. It is modelled as false, and its only caller sets it before saving.
- No property ties tokens, operators and logs to existing accounts and contracts. The invariant covers contracts and detection records only.
- Mapping.Indexer.HandleTransfer and the other handlers state the saved account values as ghost out-parameters (`fromAccount`, `toAccount`, `zeroAccount`, …) rather than as fixed values, for the reason given for FetchAccount.

## Findings

| source | as written | input that shows it | evidently intended | confidence | as-written member | corrected member |
|---|---|---|---|---|---|---|
| packages/client/src/metadata/fetcher.ts:108-110 | the cache key replaces every character other than an ASCII letter or digit by '_' and cuts the result to 100 characters, so distinct token URIs share a key and a cache hit can return another token's metadata | `ar://A-B` and `ar://A_B`; or `b + "1"` and `b + "2"` for any base `b` of 100 or more characters, such as a long per-token HTTP URI | distinct token URIs have distinct cache entries | medium; not executed | Fetcher.SharedKeyServesOtherToken | Fetcher.EscapedKeysKeepTokensApart |

The key collisions themselves are `CacheKeyMergesPunctuation` and `LongUrisShareKey`. The corrected key `EscapedCacheKey` escapes each character other than a letter or digit as '_' followed by the seven decimal digits of its code point. It does not truncate. Like the original, it uses only letters, digits and '_'. `EscapedCacheKeyInjective` proves that distinct URIs get distinct corrected keys.
