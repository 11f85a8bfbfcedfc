/**
 * Token-metadata retrieval of packages/client/src/metadata/fetcher.ts:
 * resolution of a token URI to the gateway URLs to try in order, the cache
 * key of a URI, the choice of cache, and the failover loop that returns the
 * first gateway answer and caches it.
 *
 * Network access is an oracle `fetch` from URL to a value or an error
 * message; decoding a `data:` URI is an oracle `parseData`; the clock is an
 * explicit `now`.
 */
module Fetcher {
  import opened Wrappers
  import opened Decimal
  import opened Cache

  const DefaultIpfsGateways: seq<string> := [
    "https://ipfs.io/ipfs/",
    "https://cloudflare-ipfs.com/ipfs/",
    "https://gateway.pinata.cloud/ipfs/",
    "https://dweb.link/ipfs/",
    "https://w3s.link/ipfs/",
    "https://4everland.io/ipfs/",
    "https://ipfs.filebase.io/ipfs/",
    "https://flk-ipfs.xyz/ipfs/",
    "https://ipfs.runfission.com/ipfs/"
  ]

  const DefaultArweaveGateways: seq<string> := [
    "https://arweave.net/",
    "https://ar-io.net/"
  ]

  /** The longest cache key getCacheKey produces. */
  const MaxKeyLength: nat := 100

  /** The shortest run of ASCII letters and digits taken for a bare IPFS hash. */
  const MinHashLength: nat := 46

  predicate StartsWith(s: string, prefix: string) {
    |prefix| <= |s| && s[..|prefix|] == prefix
  }

  predicate IsAsciiAlnum(c: char) {
    ('a' <= c <= 'z') || ('A' <= c <= 'Z') || ('0' <= c <= '9')
  }

  /** The URI begins with at least 46 ASCII letters and digits; what follows is not looked at. */
  predicate LooksLikeIpfsHash(uri: string) {
    |uri| >= MinHashLength && forall i | 0 <= i < MinHashLength :: IsAsciiAlnum(uri[i])
  }

  /** A gateway list option: a missing or empty list stands for the default one. */
  function GatewaysOrDefault(given: Option<seq<string>>, defaults: seq<string>): (gateways: seq<string>)
    ensures defaults != [] ==> gateways != []
    ensures given.Some? && given.value != [] ==> gateways == given.value
    ensures given.None? || given.value == [] ==> gateways == defaults
  {
    if given.Some? && given.value != [] then given.value else defaults
  }

  /** `urls` holds one URL per gateway, in gateway order: the gateway followed by `path`. */
  predicate ViaGateways(urls: seq<string>, gateways: seq<string>, path: string) {
    |urls| == |gateways| && forall i | 0 <= i < |urls| :: urls[i] == gateways[i] + path
  }

  /** Every gateway followed by `path`. */
  function WithEach(gateways: seq<string>, path: string): (urls: seq<string>)
    ensures ViaGateways(urls, gateways, path)
  {
    if gateways == [] then [] else [gateways[0] + path] + WithEach(gateways[1..], path)
  }

  /** A URI that none of the prefix rules of resolveTokenURI claims. */
  predicate HasNoKnownScheme(uri: string) {
    && !StartsWith(uri, "ipfs://") && !StartsWith(uri, "/ipfs/") && !StartsWith(uri, "ar://")
    && !StartsWith(uri, "data:") && !StartsWith(uri, "http://") && !StartsWith(uri, "https://")
  }

  /**
   * The characters that tell the schemes apart: their first characters
   * differ (but for HTTP and HTTPS), and each has a ':' or '/' among its
   * first 46, so no URI with a known scheme looks like a bare hash.
   */
  lemma SchemeMarks(uri: string)
    ensures StartsWith(uri, "ipfs://") ==> uri[0] == 'i' && uri[4] == ':'
    ensures StartsWith(uri, "/ipfs/") ==> uri[0] == '/'
    ensures StartsWith(uri, "ar://") ==> uri[0] == 'a' && uri[2] == ':'
    ensures StartsWith(uri, "data:") ==> uri[0] == 'd' && uri[4] == ':'
    ensures StartsWith(uri, "http://") ==> uri[0] == 'h' && uri[4] == ':'
    ensures StartsWith(uri, "https://") ==> uri[0] == 'h' && uri[5] == ':'
    ensures !HasNoKnownScheme(uri) ==> !LooksLikeIpfsHash(uri)
  {
    if StartsWith(uri, "ipfs://") {
      assert uri[0] == uri[..7][0] && uri[4] == uri[..7][4];
    }
    if StartsWith(uri, "/ipfs/") {
      assert uri[0] == uri[..6][0];
    }
    if StartsWith(uri, "ar://") {
      assert uri[0] == uri[..5][0] && uri[2] == uri[..5][2];
    }
    if StartsWith(uri, "data:") {
      assert uri[0] == uri[..5][0] && uri[4] == uri[..5][4];
    }
    if StartsWith(uri, "http://") {
      assert uri[0] == uri[..7][0] && uri[4] == uri[..7][4];
    }
    if StartsWith(uri, "https://") {
      assert uri[0] == uri[..8][0] && uri[5] == uri[..8][5];
    }
  }

  /**
   * resolveTokenURI: the URLs to try, in order. An empty URI is an error;
   * the IPFS and Arweave schemes fan out over their gateways; `data:` and
   * HTTP(S) URIs are used as they are; a URI that starts like a bare IPFS
   * hash fans out over the IPFS gateways whole; anything else is used as it is.
   */
  function ResolveTokenURI(uri: string, ipfsGateways: Option<seq<string>>, arweaveGateways: Option<seq<string>>)
    : (r: Result<seq<string>, string>)
    ensures r.Failure? <==> uri == ""
    ensures r.Success? ==> r.value != []
    ensures StartsWith(uri, "ipfs://") ==>
              r.Success? && ViaGateways(r.value, GatewaysOrDefault(ipfsGateways, DefaultIpfsGateways), uri[7..])
    ensures StartsWith(uri, "/ipfs/") ==>
              r.Success? && ViaGateways(r.value, GatewaysOrDefault(ipfsGateways, DefaultIpfsGateways), uri[6..])
    ensures StartsWith(uri, "ar://") ==>
              r.Success? && ViaGateways(r.value, GatewaysOrDefault(arweaveGateways, DefaultArweaveGateways), uri[5..])
    ensures StartsWith(uri, "data:") || StartsWith(uri, "http://") || StartsWith(uri, "https://") ==>
              r == Success([uri])
    ensures LooksLikeIpfsHash(uri) ==>
              r.Success? && ViaGateways(r.value, GatewaysOrDefault(ipfsGateways, DefaultIpfsGateways), uri)
    ensures uri != "" && HasNoKnownScheme(uri) && !LooksLikeIpfsHash(uri) ==> r == Success([uri])
  {
    SchemeMarks(uri);
    var ipfs := GatewaysOrDefault(ipfsGateways, DefaultIpfsGateways);
    var arweave := GatewaysOrDefault(arweaveGateways, DefaultArweaveGateways);
    if uri == "" then Failure("Token URI is empty")
    else if StartsWith(uri, "ipfs://") then Success(WithEach(ipfs, uri[7..]))
    else if StartsWith(uri, "/ipfs/") then Success(WithEach(ipfs, uri[6..]))
    else if StartsWith(uri, "ar://") then Success(WithEach(arweave, uri[5..]))
    else if StartsWith(uri, "data:") then Success([uri])
    else if StartsWith(uri, "http://") || StartsWith(uri, "https://") then Success([uri])
    else if LooksLikeIpfsHash(uri) then Success(WithEach(ipfs, uri))
    else Success([uri])
  }

  /**
   * With no IPFS gateway list, or an empty one, every IPFS form fans out
   * over the nine default gateways, in their order.
   */
  lemma DefaultIpfsFanOut(uri: string, ipfsGateways: Option<seq<string>>, arweaveGateways: Option<seq<string>>)
    requires ipfsGateways == None || ipfsGateways == Some([])
    ensures var r := ResolveTokenURI(uri, ipfsGateways, arweaveGateways);
            StartsWith(uri, "ipfs://") ==> r == Success(WithEach(DefaultIpfsGateways, uri[7..]))
    ensures var r := ResolveTokenURI(uri, ipfsGateways, arweaveGateways);
            StartsWith(uri, "/ipfs/") ==> r == Success(WithEach(DefaultIpfsGateways, uri[6..]))
    ensures var r := ResolveTokenURI(uri, ipfsGateways, arweaveGateways);
            LooksLikeIpfsHash(uri) ==> r == Success(WithEach(DefaultIpfsGateways, uri))
    ensures |DefaultIpfsGateways| == 9
  {
    SchemeMarks(uri);
  }

  /**
   * With no Arweave gateway list, or an empty one, an `ar://` URI fans out
   * over the two default Arweave gateways, in their order.
   */
  lemma DefaultArweaveFanOut(uri: string, ipfsGateways: Option<seq<string>>, arweaveGateways: Option<seq<string>>)
    requires arweaveGateways == None || arweaveGateways == Some([])
    ensures StartsWith(uri, "ar://") ==>
              ResolveTokenURI(uri, ipfsGateways, arweaveGateways) == Success(WithEach(DefaultArweaveGateways, uri[5..]))
    ensures |DefaultArweaveGateways| == 2
  {
    SchemeMarks(uri);
  }

  /** The replacement of getCacheKey: a letter or digit is kept, anything else becomes '_'. */
  function SanitizedChar(c: char): (r: char)
    ensures IsAsciiAlnum(r) || r == '_'
    ensures IsAsciiAlnum(r) <==> IsAsciiAlnum(c)
    ensures IsAsciiAlnum(c) ==> r == c
  {
    if IsAsciiAlnum(c) then c else '_'
  }

  /** Every character that is not an ASCII letter or digit replaced by '_'. */
  function Sanitized(s: string): (r: string)
    ensures |r| == |s|
    ensures forall i | 0 <= i < |s| :: r[i] == SanitizedChar(s[i])
  {
    if s == [] then [] else Sanitized(s[..|s| - 1]) + [SanitizedChar(s[|s| - 1])]
  }

  /**
   * getCacheKey: the URI sanitised and cut to 100 characters. Letters and
   * digits stay in place, every other character becomes '_'.
   */
  function CacheKey(uri: string): (key: string)
    ensures |key| == if |uri| < MaxKeyLength then |uri| else MaxKeyLength
    ensures forall i | 0 <= i < |key| :: key[i] == SanitizedChar(uri[i])
    ensures forall i | 0 <= i < |key| :: IsAsciiAlnum(key[i]) || key[i] == '_'
  {
    var s := Sanitized(uri);
    if |s| < MaxKeyLength then s else s[..MaxKeyLength]
  }

  /** getCacheKey sends URIs that differ only in punctuation to the same key. */
  lemma CacheKeyMergesPunctuation()
    ensures "ar://A-B" != "ar://A_B"
    ensures CacheKey("ar://A-B") == CacheKey("ar://A_B")
  {
    var k1, k2 := CacheKey("ar://A-B"), CacheKey("ar://A_B");
    assert |k1| == |k2| == 8;
    forall i | 0 <= i < 8
      ensures k1[i] == k2[i]
    {
      assert SanitizedChar('-') == '_';
    }
  }

  /**
   * getCacheKey sends any two URIs that agree on their first 100
   * characters to the same key, however they differ after that, so a cached
   * document of one token is served for the other.
   */
  lemma {:induction false} LongUrisShareKey(u: string, w: string)
    requires |u| >= MaxKeyLength && |w| >= MaxKeyLength
    requires u[..MaxKeyLength] == w[..MaxKeyLength]
    ensures CacheKey(u) == CacheKey(w)
  {
    var ku, kw := CacheKey(u), CacheKey(w);
    forall i | 0 <= i < MaxKeyLength
      ensures ku[i] == kw[i]
    {
      assert u[i] == u[..MaxKeyLength][i] == w[..MaxKeyLength][i] == w[i];
    }
  }

  /** The number of decimal digits that encode one escaped code point. */
  const EscapeWidth: nat := 7

  /** A letter or digit stands for itself; any other character is '_' and its code point in 7 digits. */
  function EscapedChar(c: char): (s: string)
    ensures |s| >= 1
    ensures IsAsciiAlnum(c) <==> s == [c]
    ensures !IsAsciiAlnum(c) ==> s == ['_'] + PaddedDigits(c as int, EscapeWidth)
  {
    if IsAsciiAlnum(c) then [c] else ['_'] + PaddedDigits(c as int, EscapeWidth)
  }

  /**
   * The cache key used by the model: like getCacheKey it uses only ASCII
   * letters, digits and '_', but it escapes instead of replacing and does
   * not truncate, so distinct URIs get distinct keys.
   */
  function EscapedCacheKey(uri: string): (key: string)
    ensures |key| >= |uri|
    ensures forall i | 0 <= i < |key| :: IsAsciiAlnum(key[i]) || key[i] == '_'
  {
    if uri == [] then [] else EscapedChar(uri[0]) + EscapedCacheKey(uri[1..])
  }

  predicate IsScalarValue(n: int) {
    (0 <= n < 0xD800) || (0xE000 <= n < 0x11_0000)
  }

  predicate AllDigits(s: string) {
    forall i | 0 <= i < |s| :: IsDigit(s[i])
  }

  function Prepend(c: char, rest: Option<string>): Option<string> {
    if rest.Some? then Some([c] + rest.value) else None
  }

  /** Reads an escaped key back; None for a string no URI escapes to. */
  function UnescapedCacheKey(key: string): Option<string>
    decreases |key|
  {
    if key == [] then Some([])
    else if IsAsciiAlnum(key[0]) then Prepend(key[0], UnescapedCacheKey(key[1..]))
    else if key[0] == '_' && |key| > EscapeWidth && AllDigits(key[1..EscapeWidth + 1])
            && IsScalarValue(ParseDigits(key[1..EscapeWidth + 1])) then
      Prepend(ParseDigits(key[1..EscapeWidth + 1]) as char, UnescapedCacheKey(key[EscapeWidth + 1..]))
    else None
  }

  lemma CodePointFits(c: char)
    ensures c as int < Pow10(EscapeWidth)
    ensures IsScalarValue(c as int)
  {
    assert Pow10(EscapeWidth) == 10000000;
  }

  /** Unescaping reads one escaped character back off the front. */
  lemma UnescapeChar(c: char, tail: string)
    ensures UnescapedCacheKey(EscapedChar(c) + tail) == Prepend(c, UnescapedCacheKey(tail))
  {
    var key := EscapedChar(c) + tail;
    if IsAsciiAlnum(c) {
      assert key[0] == c && key[1..] == tail;
    } else {
      var digits := PaddedDigits(c as int, EscapeWidth);
      assert key[0] == '_' && key[1..EscapeWidth + 1] == digits && key[EscapeWidth + 1..] == tail;
      CodePointFits(c);
      ParsePaddedDigits(c as int, EscapeWidth);
    }
  }

  /** Unescaping an escaped key gives back the URI. */
  lemma {:induction false} UnescapeEscaped(uri: string)
    ensures UnescapedCacheKey(EscapedCacheKey(uri)) == Some(uri)
    decreases |uri|
  {
    if uri != [] {
      UnescapeEscaped(uri[1..]);
      UnescapeChar(uri[0], EscapedCacheKey(uri[1..]));
      assert [uri[0]] + uri[1..] == uri;
    }
  }

  /** Distinct URIs get distinct escaped keys. */
  lemma EscapedCacheKeyInjective(u: string, v: string)
    requires EscapedCacheKey(u) == EscapedCacheKey(v)
    ensures u == v
  {
    UnescapeEscaped(u);
    UnescapeEscaped(v);
  }

  /** The cache option of fetchTokenMetadata: unset, one of the named kinds, or a cache instance. */
  datatype CacheOption<V> = Unset | MemoryOption | LocalStorageOption | NoneOption | Given(cache: MetadataCache<V>)

  /**
   * resolveCache: a new memory cache when unset or 'memory', a new no-op
   * cache for 'none', the given instance as it is. The localStorage cache
   * is not part of this model: for 'localStorage' the answer is None.
   */
  method ResolveCache<V>(option: CacheOption<V>, ttl: int) returns (cache: Option<MetadataCache<V>>)
    ensures option.Unset? || option.MemoryOption? ==>
              cache.Some? && fresh(cache.value) && cache.value.Valid()
              && cache.value.storing && cache.value.ttl == ttl && cache.value.entries == map[]
    ensures option.NoneOption? ==>
              cache.Some? && fresh(cache.value) && cache.value.Valid() && !cache.value.storing
    ensures option.Given? ==> cache == Some(option.cache)
    ensures option.LocalStorageOption? ==> cache == None
  {
    if option.Unset? || option.MemoryOption? {
      var memory := new MetadataCache.Memory(ttl);
      cache := Some(memory);
    } else if option.LocalStorageOption? {
      cache := None;
    } else if option.NoneOption? {
      var none := new MetadataCache.NoStore();
      cache := Some(none);
    } else {
      cache := Some(option.cache);
    }
  }

  /** Why fetchTokenMetadata raised. */
  datatype FetchError =
    | UriError(message: string)
    | InvalidDataUri
    | AllGatewaysFailed(failures: seq<(string, string)>)

  /**
   * How many URLs fail before the first one that answers (all of them when
   * none answers).
   */
  function LeadingFailures<V>(urls: seq<string>, fetch: string -> Result<V, string>): (n: nat)
    ensures n <= |urls|
    ensures forall k | 0 <= k < n :: fetch(urls[k]).Failure?
    ensures n < |urls| ==> fetch(urls[n]).Success?
  {
    if urls == [] || fetch(urls[0]).Success? then 0 else 1 + LeadingFailures(urls[1..], fetch)
  }

  /**
   * What the hit test `if (cached)` of fetchTokenMetadata returns: a fresh
   * entry whose value is truthy. `truthy` stands for JavaScript truthiness
   * of the cached JSON value: a fresh entry holding `null`, `false`, `0` or
   * `""` is treated as a miss.
   */
  function CachedAnswer<V>(entries: map<string, Entry<V>>, key: string, now: int, truthy: V -> bool): (r: Option<V>)
    ensures r.Some? <==> Lookup(entries, key, now).Some? && truthy(Lookup(entries, key, now).value)
    ensures r.Some? ==> r == Lookup(entries, key, now)
  {
    var found := Lookup(entries, key, now);
    if found.Some? && truthy(found.value) then found else None
  }

  /**
   * The failover loop of fetchTokenMetadata: the URLs are fetched in order
   * until one answers; its answer is cached under `key`, at the clock
   * reading `setAt` taken when it arrives, and returned. When every URL
   * fails, the failures are returned in order, each with its URL, and the
   * cache is left alone. `tried` lists the URLs fetched.
   */
  method FetchFirst<V>(urls: seq<string>, fetch: string -> Result<V, string>,
                       cache: MetadataCache<V>, key: string, setAt: int)
    returns (r: Result<V, seq<(string, string)>>, ghost tried: seq<string>)
    requires cache.Valid()
    modifies cache`entries
    ensures cache.Valid()
    ensures var n := LeadingFailures(urls, fetch);
            n < |urls| ==>
              && r == Success(fetch(urls[n]).value) && tried == urls[..n + 1]
              && cache.entries == Remembered(cache.storing, old(cache.entries), key, r.value, setAt, cache.ttl)
    ensures var n := LeadingFailures(urls, fetch);
            n == |urls| ==>
              && tried == urls && cache.entries == old(cache.entries)
              && r.Failure? && |r.error| == |urls|
              && forall k | 0 <= k < |urls| :: r.error[k] == (urls[k], fetch(urls[k]).error)
  {
    tried := [];
    ghost var n := LeadingFailures(urls, fetch);
    var errors: seq<(string, string)> := [];
    var i := 0;
    while i < |urls|
      invariant 0 <= i <= n
      invariant |errors| == i && forall k | 0 <= k < i :: errors[k] == (urls[k], fetch(urls[k]).error)
      invariant tried == urls[..i]
      invariant cache.entries == old(cache.entries)
    {
      var attempt := fetch(urls[i]);
      tried := tried + [urls[i]];
      if attempt.Success? {
        cache.Set(key, attempt.value, setAt);
        return Success(attempt.value), tried;
      }
      errors := errors + [(urls[i], attempt.error)];
      i := i + 1;
    }
    assert tried == urls;
    r := Failure(errors);
  }

  /**
   * fetchTokenMetadata, keyed by `keyOf`: getCacheKey as written is
   * `CacheKey`, the corrected key `EscapedCacheKey`. The cache is read at
   * `now`; a value obtained is written at `setAt`, the later clock reading
   * taken once it arrived. A truthy cache hit is returned without resolving
   * or fetching anything. Otherwise a `data:` URI is decoded, and any other
   * URI is resolved and its URLs tried in order by `FetchFirst`; a value
   * obtained either way is cached. `tried` lists the URLs fetched.
   */
  method FetchTokenMetadata<V>(tokenURI: string, ipfsGateways: Option<seq<string>>, arweaveGateways: Option<seq<string>>,
                               cache: MetadataCache<V>, keyOf: string -> string, now: int, setAt: int,
                               fetch: string -> Result<V, string>, parseData: string -> Option<V>, truthy: V -> bool)
    returns (r: Result<V, FetchError>, ghost tried: seq<string>)
    requires cache.Valid()
    modifies cache`entries
    ensures cache.Valid()
    ensures forall k | k != keyOf(tokenURI) && k in old(cache.entries) ::
              k in cache.entries && cache.entries[k] == old(cache.entries)[k]
    ensures forall k | k != keyOf(tokenURI) && k in cache.entries :: k in old(cache.entries)
    ensures var hit := CachedAnswer(old(cache.entries), keyOf(tokenURI), now, truthy);
            hit.Some? ==> r == Success(hit.value) && tried == [] && cache.entries == old(cache.entries)
    ensures var key := keyOf(tokenURI);
            var evicted := Evicted(old(cache.entries), key, now);
            CachedAnswer(old(cache.entries), key, now, truthy).None? && StartsWith(tokenURI, "data:") ==>
              && tried == []
              && (parseData(tokenURI).None? ==> r == Failure(InvalidDataUri) && cache.entries == evicted)
              && (parseData(tokenURI).Some? ==>
                    && r == Success(parseData(tokenURI).value)
                    && cache.entries == Remembered(cache.storing, evicted, key, r.value, setAt, cache.ttl))
    ensures var key := keyOf(tokenURI);
            var evicted := Evicted(old(cache.entries), key, now);
            CachedAnswer(old(cache.entries), key, now, truthy).None? && !StartsWith(tokenURI, "data:") && tokenURI == "" ==>
              r == Failure(UriError("Token URI is empty")) && tried == [] && cache.entries == evicted
    ensures var key := keyOf(tokenURI);
            var evicted := Evicted(old(cache.entries), key, now);
            CachedAnswer(old(cache.entries), key, now, truthy).None? && !StartsWith(tokenURI, "data:") && tokenURI != "" ==>
              var urls := ResolveTokenURI(tokenURI, ipfsGateways, arweaveGateways).value;
              var n := LeadingFailures(urls, fetch);
              && (n < |urls| ==>
                    && r == Success(fetch(urls[n]).value) && tried == urls[..n + 1]
                    && cache.entries == Remembered(cache.storing, evicted, key, r.value, setAt, cache.ttl))
              && (n == |urls| ==>
                    && tried == urls && cache.entries == evicted
                    && r.Failure? && r.error.AllGatewaysFailed? && |r.error.failures| == |urls|
                    && forall k | 0 <= k < |urls| :: r.error.failures[k] == (urls[k], fetch(urls[k]).error))
  {
    tried := [];
    var key := keyOf(tokenURI);
    var cached := cache.Get(key, now);
    if cached.Some? && truthy(cached.value) {
      return Success(cached.value), tried;
    }
    if StartsWith(tokenURI, "data:") {
      var metadata := parseData(tokenURI);
      if metadata.None? {
        return Failure(InvalidDataUri), tried;
      }
      cache.Set(key, metadata.value, setAt);
      return Success(metadata.value), tried;
    }
    var resolved := ResolveTokenURI(tokenURI, ipfsGateways, arweaveGateways);
    if resolved.Failure? {
      return Failure(UriError(resolved.error)), tried;
    }
    var fetched;
    fetched, tried := FetchFirst(resolved.value, fetch, cache, key, setAt);
    if fetched.Failure? {
      return Failure(AllGatewaysFailed(fetched.error)), tried;
    }
    r := Success(fetched.value);
  }

  /**
   * With getCacheKey as written, a memory cache shared by two fetches
   * serves the metadata of one token URI for another whose key is the same
   * (`CacheKeyMergesPunctuation` and `LongUrisShareKey` give such pairs):
   * once the first fetch succeeded, the second one, while the entry is
   * fresh, returns the same document and fetches nothing.
   */
  method SharedKeyServesOtherToken<V>(u: string, w: string, cache: MetadataCache<V>, now: int, setAt: int, later: int,
                                      fetch: string -> Result<V, string>, parseData: string -> Option<V>,
                                      truthy: V -> bool)
    returns (first: Result<V, FetchError>, second: Result<V, FetchError>, ghost fetchedForSecond: seq<string>)
    requires cache.Valid() && cache.storing
    requires CacheKey(u) == CacheKey(w)
    requires CacheKey(u) !in cache.entries
    requires later <= setAt + cache.ttl
    modifies cache`entries
    ensures first.Success? && truthy(first.value) ==> second == first && fetchedForSecond == []
  {
    ghost var fetchedForFirst;
    first, fetchedForFirst := FetchTokenMetadata(u, None, None, cache, CacheKey, now, setAt, fetch, parseData, truthy);
    second, fetchedForSecond := FetchTokenMetadata(w, None, None, cache, CacheKey, later, later, fetch, parseData, truthy);
  }

  /**
   * With the corrected key, two distinct token URIs stay apart: whatever
   * the first fetch cached, the second one is decoded or fetched for its
   * own URI, as on a cache that never saw the first.
   */
  method EscapedKeysKeepTokensApart<V>(u: string, w: string, cache: MetadataCache<V>, now: int, setAt: int, later: int,
                                       fetch: string -> Result<V, string>, parseData: string -> Option<V>,
                                       truthy: V -> bool)
    returns (first: Result<V, FetchError>, second: Result<V, FetchError>, ghost fetchedForSecond: seq<string>)
    requires cache.Valid()
    requires u != w
    requires EscapedCacheKey(w) !in cache.entries
    modifies cache`entries
    ensures StartsWith(w, "data:") ==>
              second == if parseData(w).Some? then Success(parseData(w).value) else Failure(InvalidDataUri)
    ensures w == "" ==> second == Failure(UriError("Token URI is empty"))
    ensures w != "" && !StartsWith(w, "data:") ==>
              var urls := ResolveTokenURI(w, None, None).value;
              var n := LeadingFailures(urls, fetch);
              && fetchedForSecond != []
              && (n < |urls| ==> second == Success(fetch(urls[n]).value))
              && (n == |urls| ==> second.Failure? && second.error.AllGatewaysFailed?)
  {
    if EscapedCacheKey(u) == EscapedCacheKey(w) {
      EscapedCacheKeyInjective(u, w);
    }
    ghost var fetchedForFirst;
    first, fetchedForFirst := FetchTokenMetadata(u, None, None, cache, EscapedCacheKey, now, setAt, fetch, parseData, truthy);
    assert EscapedCacheKey(w) !in cache.entries;
    second, fetchedForSecond := FetchTokenMetadata(w, None, None, cache, EscapedCacheKey, later, later, fetch, parseData, truthy);
  }
}
