/**
 * The pure and in-memory parts of the danmaku API client
 * (clients/danmaku_client.py): the request URL, the send payload and its
 * style presets, the response cache with its time-to-live and size bound,
 * the request counters, and the tally of a bulk send.  The HTTP session,
 * the rate limiter and the retry decorator are not part of this model.
 */
module DanmakuClient {
  import opened Wrappers
  import opened Text
  import opened Subseq
  import opened Json

  // ---------------------------------------------------------------------
  // Request URL

  const ApiKeyParam := "api_key="

  /** `_build_url`: the joined path, then the API key as the first query
      parameter (`?`) or as a further one (`&`) when the path already holds
      a query. */
  function BuildUrl(baseUrl: string, endpoint: string, apiKey: string): string {
    var path := JoinPath(baseUrl, endpoint);
    path + [if '?' in path then '&' else '?'] + (ApiKeyParam + apiKey)
  }

  /** The URL is the joined path, one query mark (`&` exactly when the path
      already holds a `?`), and the key parameter at the very end. */
  lemma BuildUrlShape(baseUrl: string, endpoint: string, apiKey: string)
    ensures var url, n := BuildUrl(baseUrl, endpoint, apiKey), |JoinPath(baseUrl, endpoint)|;
      IsSuffix(ApiKeyParam + apiKey, url)
      && n < |url| && url[..n] == JoinPath(baseUrl, endpoint)
      && url[n] == (if '?' in url[..n] then '&' else '?')
  {
    var path := JoinPath(baseUrl, endpoint);
    var tail := ApiKeyParam + apiKey;
    var url := BuildUrl(baseUrl, endpoint, apiKey);
    assert url[..|path|] == path;
    assert url[|url| - |tail|..] == tail;
  }

  /** A slash typed at the end of the base does not change the URL. */
  lemma BuildUrlTrailingSlash(baseUrl: string, endpoint: string, apiKey: string)
    ensures BuildUrl(baseUrl + ['/'], endpoint, apiKey) == BuildUrl(baseUrl, endpoint, apiKey)
  {
    var b := baseUrl + ['/'];
    assert b[..|b| - 1] == baseUrl;
    assert RStripChar(b, '/') == RStripChar(baseUrl, '/');
    assert JoinPath(b, endpoint) == JoinPath(baseUrl, endpoint);
  }

  /** A slash typed at the start of the endpoint does not change the URL. */
  lemma BuildUrlLeadingSlash(baseUrl: string, endpoint: string, apiKey: string)
    ensures BuildUrl(baseUrl, ['/'] + endpoint, apiKey) == BuildUrl(baseUrl, endpoint, apiKey)
  {
    var e := ['/'] + endpoint;
    assert e[1..] == endpoint;
    assert LStripChar(e, '/') == LStripChar(endpoint, '/');
    assert JoinPath(baseUrl, e) == JoinPath(baseUrl, endpoint);
  }

  /** With no slash at the joint and no query anywhere, the URL is the base,
      one slash, the endpoint and `?api_key=`. */
  lemma BuildUrlPlain(baseUrl: string, endpoint: string, apiKey: string)
    requires baseUrl == [] || baseUrl[|baseUrl| - 1] != '/'
    requires endpoint == [] || endpoint[0] != '/'
    requires '?' !in baseUrl && '?' !in endpoint
    ensures BuildUrl(baseUrl, endpoint, apiKey) == baseUrl + ['/'] + endpoint + ['?'] + (ApiKeyParam + apiKey)
  {
    JoinPathPlain(baseUrl, endpoint);
    NoQueryMark(baseUrl, endpoint);
  }

  /** An endpoint that carries its own query gets the key appended with `&`. */
  lemma BuildUrlWithQuery(baseUrl: string, endpoint: string, query: string, apiKey: string)
    requires baseUrl == [] || baseUrl[|baseUrl| - 1] != '/'
    requires endpoint == [] || endpoint[0] != '/'
    ensures BuildUrl(baseUrl, endpoint + ['?'] + query, apiKey)
         == baseUrl + ['/'] + (endpoint + ['?'] + query) + ['&'] + (ApiKeyParam + apiKey)
  {
    var e := endpoint + ['?'] + query;
    assert e[0] == if endpoint == [] then '?' else endpoint[0];
    JoinPathPlain(baseUrl, e);
    var path := baseUrl + ['/'] + e;
    assert path[|baseUrl| + 1 + |endpoint|] == '?';
    assert '?' in path;
    assert JoinPath(baseUrl, e) == path;
    calc {
      BuildUrl(baseUrl, e, apiKey);
      path + ['&'] + (ApiKeyParam + apiKey);
      baseUrl + ['/'] + (endpoint + ['?'] + query) + ['&'] + (ApiKeyParam + apiKey);
    }
  }

  // ---------------------------------------------------------------------
  // Send payload

  const MinFontSize := 12
  const MaxFontSize := 48
  const MinDuration := 1
  const MaxDuration := 30

  /** `max(lo, min(hi, x))`. */
  function Clamp(lo: int, hi: int, x: int): (r: int)
    ensures lo <= hi ==> lo <= r <= hi
    ensures lo <= x <= hi ==> r == x
    ensures x < lo ==> r == lo
    ensures lo <= hi && hi < x ==> r == hi
  {
    if lo < (if hi < x then hi else x) then (if hi < x then hi else x) else lo
  }

  /** The JSON body of a send: the `send` action, the text, the colour and
      position as given, and the size and duration clamped into range. */
  datatype SendPayload = SendPayload(action: string, text: string, color: string, position: string,
                                     fontSize: int, duration: int)

  /** The payload `send_danmaku` posts. */
  function Payload(text: string, color: string, position: string, fontSize: int, duration: int)
    : (p: SendPayload)
    ensures p.action == "send" && p.text == text && p.color == color && p.position == position
    ensures MinFontSize <= p.fontSize <= MaxFontSize && MinDuration <= p.duration <= MaxDuration
    ensures MinFontSize <= fontSize <= MaxFontSize ==> p.fontSize == fontSize
    ensures MinDuration <= duration <= MaxDuration ==> p.duration == duration
    ensures fontSize < MinFontSize ==> p.fontSize == MinFontSize
    ensures fontSize > MaxFontSize ==> p.fontSize == MaxFontSize
    ensures duration < MinDuration ==> p.duration == MinDuration
    ensures duration > MaxDuration ==> p.duration == MaxDuration
  {
    SendPayload("send", text, color, position, Clamp(MinFontSize, MaxFontSize, fontSize),
                Clamp(MinDuration, MaxDuration, duration))
  }

  /** The keyword arguments of `send_danmaku` a style preset fills in. */
  datatype Style = Style(color: string, position: string, fontSize: int, duration: int)

  const NormalStyle := Style("#FFFFFF", "scroll", 24, 5)

  /** `style_configs` of `send_styled_danmaku`. */
  const StyleConfigs: map<string, Style> := map[
    "normal" := NormalStyle,
    "highlight" := Style("#FFD700", "top", 28, 8),
    "warning" := Style("#FF8C00", "scroll", 26, 6),
    "success" := Style("#00FF00", "bottom", 24, 5),
    "error" := Style("#FF0000", "top", 26, 8)
  ]

  /** `style_configs.get(style_preset, style_configs["normal"])`. */
  function PresetStyle(preset: string): (s: Style)
    ensures s in StyleConfigs.Values
  {
    if preset in StyleConfigs then StyleConfigs[preset] else StyleConfigs["normal"]
  }

  /** Any name that is not one of the five presets sends in the normal style. */
  lemma UnknownPresetIsNormal(preset: string)
    requires preset !in {"normal", "highlight", "warning", "success", "error"}
    ensures PresetStyle(preset) == Style("#FFFFFF", "scroll", 24, 5)
  {
  }

  /** `send_styled_danmaku`: the payload of the preset's style. */
  function StyledPayload(text: string, preset: string): (p: SendPayload)
    ensures p.text == text && p.action == "send"
  {
    var s := PresetStyle(preset);
    Payload(text, s.color, s.position, s.fontSize, s.duration)
  }

  /** Every preset lies within the clamping ranges, so a styled send carries
      its preset's values unchanged. */
  lemma StyledPayloadKeepsPreset(text: string, preset: string)
    ensures var s := PresetStyle(preset);
      StyledPayload(text, preset) == SendPayload("send", text, s.color, s.position, s.fontSize, s.duration)
  {
    var s := PresetStyle(preset);
    assert MinFontSize <= s.fontSize <= MaxFontSize && MinDuration <= s.duration <= MaxDuration;
  }

  // ---------------------------------------------------------------------
  // Bulk send

  /** The counters `send_bulk_danmaku` reports. */
  datatype BulkReport = BulkReport(success: bool, total: nat, succeeded: nat, failed: nat)

  predicate Succeeded(b: bool) {
    b
  }

  /** The tally of `send_bulk_danmaku` over the outcome of each send in turn
      (the sends themselves go over the network and are given here). */
  method BulkTally(outcomes: seq<bool>) returns (report: BulkReport)
    ensures report.total == |outcomes|
    ensures report.succeeded == Count(outcomes, Succeeded)
    ensures report.failed == report.total - report.succeeded
    ensures report.success <==> exists i :: 0 <= i < |outcomes| && outcomes[i]
  {
    var successCount := 0;
    var i := 0;
    while i < |outcomes|
      invariant 0 <= i <= |outcomes|
      invariant successCount == Count(outcomes[..i], Succeeded)
    {
      assert outcomes[..i + 1][..i] == outcomes[..i];
      if outcomes[i] {
        successCount := successCount + 1;
      }
      i := i + 1;
    }
    assert outcomes[..i] == outcomes;
    SomeSucceeded(outcomes);
    KeepSplit(outcomes, Succeeded, Failed);
    report := BulkReport(successCount > 0, |outcomes|, successCount, |outcomes| - successCount);
  }

  predicate Failed(b: bool) {
    !b
  }

  /** At least one send succeeded exactly when the success count is positive. */
  lemma SomeSucceeded(outcomes: seq<bool>)
    ensures Count(outcomes, Succeeded) > 0 <==> exists i :: 0 <= i < |outcomes| && outcomes[i]
  {
    KeepMembers(outcomes, Succeeded, true);
    KeepAll(outcomes, Succeeded);
    var k := Keep(outcomes, Succeeded);
    if |k| > 0 {
      assert k[0];
    }
  }

  // ---------------------------------------------------------------------
  // Response cache

  const CacheTtl := 60
  const MaxCacheEntries := 100

  /** One `cache_key: (data, timestamp)` item of the cache dict. */
  datatype CacheEntry = CacheEntry(key: string, data: JsonValue, timestamp: int)

  predicate UniqueKeys(c: seq<CacheEntry>) {
    forall i, j :: 0 <= i < j < |c| ==> c[i].key != c[j].key
  }

  /** The position of `key` in the cache dict, if it is there. */
  function Find(c: seq<CacheEntry>, key: string): (r: Option<nat>)
    ensures r.None? <==> forall i :: 0 <= i < |c| ==> c[i].key != key
    ensures r.Some? ==> r.value < |c| && c[r.value].key == key
    ensures r.Some? ==> forall i :: 0 <= i < r.value ==> c[i].key != key
  {
    if c == [] then None
    else if c[0].key == key then Some(0)
    else match Find(c[1..], key)
      case None => None
      case Some(k) => Some(k + 1)
  }

  function RemoveAt(c: seq<CacheEntry>, k: nat): seq<CacheEntry>
    requires k < |c|
  {
    c[..k] + c[k + 1..]
  }

  lemma RemoveAtUnique(c: seq<CacheEntry>, k: nat)
    requires k < |c| && UniqueKeys(c)
    ensures UniqueKeys(RemoveAt(c, k)) && |RemoveAt(c, k)| == |c| - 1
  {
    var r := RemoveAt(c, k);
    forall i, j | 0 <= i < j < |r|
      ensures r[i].key != r[j].key
    {
      var i', j' := if i < k then i else i + 1, if j < k then j else j + 1;
      assert r[i] == c[i'] && r[j] == c[j'];
    }
  }

  /** `cache[key] = (data, now)`: an existing key keeps its place, a new
      one goes last. */
  function Store(c: seq<CacheEntry>, key: string, data: JsonValue, now: int): (r: seq<CacheEntry>)
    ensures Find(c, key).Some? ==> r == c[Find(c, key).value := CacheEntry(key, data, now)]
    ensures Find(c, key).None? ==> r == c + [CacheEntry(key, data, now)]
  {
    match Find(c, key)
    case Some(k) => c[k := CacheEntry(key, data, now)]
    case None => c + [CacheEntry(key, data, now)]
  }

  lemma StoreUnique(c: seq<CacheEntry>, key: string, data: JsonValue, now: int)
    requires UniqueKeys(c)
    ensures UniqueKeys(Store(c, key, data, now))
    ensures |Store(c, key, data, now)| == |c| + (if Find(c, key).Some? then 0 else 1)
  {
  }

  /** `min(cache.keys(), key=timestamp)`: the first entry, in dict order,
      with the smallest timestamp. */
  function Oldest(c: seq<CacheEntry>): (k: nat)
    requires c != []
    ensures k < |c|
    ensures forall i :: 0 <= i < |c| ==> c[k].timestamp <= c[i].timestamp
    ensures forall i :: 0 <= i < k ==> c[i].timestamp > c[k].timestamp
  {
    if |c| == 1 then 0
    else
      var k := Oldest(c[..|c| - 1]);
      if c[|c| - 1].timestamp < c[k].timestamp then |c| - 1 else k
  }

  /** What `_get_from_cache` returns: the data of an entry younger than the
      time-to-live. */
  function CacheRead(c: seq<CacheEntry>, key: string, now: int): Option<JsonValue> {
    match Find(c, key)
    case None => None
    case Some(k) => if now - c[k].timestamp < CacheTtl then Some(c[k].data) else None
  }

  /** The cache after `_get_from_cache`: an expired entry is deleted. */
  function CacheAfterRead(c: seq<CacheEntry>, key: string, now: int): seq<CacheEntry> {
    match Find(c, key)
    case None => c
    case Some(k) => if now - c[k].timestamp < CacheTtl then c else RemoveAt(c, k)
  }

  /** The cache after `_set_cache`: the entry is stored, and past a hundred
      entries the oldest one is dropped. */
  function CacheAfterSet(c: seq<CacheEntry>, key: string, data: JsonValue, now: int): seq<CacheEntry> {
    var stored := Store(c, key, data, now);
    if |stored| > MaxCacheEntries then RemoveAt(stored, Oldest(stored)) else stored
  }

  /** A read hits exactly when the key holds an entry younger than the
      time-to-live, and then gives that entry's data. */
  lemma CacheReadHits(c: seq<CacheEntry>, key: string, now: int)
    requires UniqueKeys(c)
    ensures CacheRead(c, key, now).Some? <==>
      exists i :: 0 <= i < |c| && c[i].key == key && now - c[i].timestamp < CacheTtl
    ensures forall i :: 0 <= i < |c| && c[i].key == key && now - c[i].timestamp < CacheTtl ==>
      CacheRead(c, key, now) == Some(c[i].data)
  {
  }

  /** The entries for keys other than `key`, in cache order. */
  function Others(c: seq<CacheEntry>, key: string): (r: seq<CacheEntry>)
    ensures forall e :: e in r <==> e in c && e.key != key
  {
    if c == [] then [] else (if c[0].key == key then [] else [c[0]]) + Others(c[1..], key)
  }

  lemma {:induction false} OthersAppend(a: seq<CacheEntry>, b: seq<CacheEntry>, key: string)
    ensures Others(a + b, key) == Others(a, key) + Others(b, key)
    decreases |a|
  {
    if a == [] {
      assert a + b == b;
    } else {
      assert (a + b)[0] == a[0] && (a + b)[1..] == a[1..] + b;
      OthersAppend(a[1..], b, key);
    }
  }

  /** A key held once is found where it is. */
  lemma FindUnique(c: seq<CacheEntry>, i: nat)
    requires UniqueKeys(c) && i < |c|
    ensures Find(c, c[i].key) == Some(i)
  {
  }

  /** A read leaves the entries of every other key as they were, in their
      order. */
  lemma CacheAfterReadKeepsOthers(c: seq<CacheEntry>, key: string, now: int)
    ensures Others(CacheAfterRead(c, key, now), key) == Others(c, key)
  {
    match Find(c, key)
    case None =>
    case Some(k) =>
      if now - c[k].timestamp >= CacheTtl {
        var before, after := c[..k], c[k + 1..];
        var rest := [c[k]] + after;
        assert c == before + rest;
        assert rest[0] == c[k] && rest[1..] == after;
        assert Others(rest, key) == Others(after, key);
        OthersAppend(before, rest, key);
        OthersAppend(before, after, key);
      }
  }

  /** After a read, no expired entry for the key is left. */
  lemma CacheAfterReadFresh(c: seq<CacheEntry>, key: string, now: int)
    requires UniqueKeys(c)
    ensures var r := CacheAfterRead(c, key, now);
      UniqueKeys(r) && forall i :: 0 <= i < |r| && r[i].key == key ==> now - r[i].timestamp < CacheTtl
  {
    match Find(c, key)
    case None =>
    case Some(k) =>
      if now - c[k].timestamp >= CacheTtl {
        RemoveAtUnique(c, k);
        var r := RemoveAt(c, k);
        forall i | 0 <= i < |r|
          ensures r[i].key != key
        {
          var i' := if i < k then i else i + 1;
          assert r[i] == c[i'] && i' != k;
        }
      }
  }

  /** The cache never holds more than a hundred entries, one per key. */
  lemma CacheAfterSetBounded(c: seq<CacheEntry>, key: string, data: JsonValue, now: int)
    requires UniqueKeys(c) && |c| <= MaxCacheEntries
    ensures UniqueKeys(CacheAfterSet(c, key, data, now)) && |CacheAfterSet(c, key, data, now)| <= MaxCacheEntries
  {
    var stored := Store(c, key, data, now);
    StoreUnique(c, key, data, now);
    if |stored| > MaxCacheEntries {
      RemoveAtUnique(stored, Oldest(stored));
    }
  }

  /** With a clock that does not run backwards, what was just stored is
      read back at once, even when the store evicted an entry. */
  lemma CacheSetThenRead(c: seq<CacheEntry>, key: string, data: JsonValue, now: int)
    requires UniqueKeys(c) && |c| <= MaxCacheEntries
    requires forall i :: 0 <= i < |c| ==> c[i].timestamp <= now
    ensures CacheRead(CacheAfterSet(c, key, data, now), key, now) == Some(data)
  {
    var stored := Store(c, key, data, now);
    StoreUnique(c, key, data, now);
    var e := CacheEntry(key, data, now);
    var pos := if Find(c, key).Some? then Find(c, key).value else |c|;
    assert stored[pos] == e;
    if |stored| > MaxCacheEntries {
      assert pos == |c| > 0;
      var k := Oldest(stored);
      assert stored[0] == c[0];
      assert k != pos;
      var r := RemoveAt(stored, k);
      RemoveAtUnique(stored, k);
      assert r[pos - 1] == e;
      FindUnique(r, pos - 1);
    } else {
      FindUnique(stored, pos);
    }
  }

  // ---------------------------------------------------------------------
  // The client object

  class DanmakuApiClient {
    const baseUrl: string
    const apiKey: string
    var cache: seq<CacheEntry>
    var totalRequests: nat
    var successfulRequests: nat
    var failedRequests: nat
    var lastError: Option<string>
    var lastSuccess: Option<int>

    /** One entry per key, at most a hundred of them, and every request
        counted as exactly one of a success or a failure. */
    predicate Valid()
      reads this
    {
      UniqueKeys(cache) && |cache| <= MaxCacheEntries
      && totalRequests == successfulRequests + failedRequests
    }

    constructor(baseUrl: string, apiKey: string)
      ensures Valid() && this.baseUrl == baseUrl && this.apiKey == apiKey
      ensures cache == [] && totalRequests == 0 && lastError.None? && lastSuccess.None?
    {
      this.baseUrl := baseUrl;
      this.apiKey := apiKey;
      cache := [];
      totalRequests, successfulRequests, failedRequests := 0, 0, 0;
      lastError, lastSuccess := None, None;
    }

    function Url(endpoint: string): string {
      BuildUrl(baseUrl, endpoint, apiKey)
    }

    /** `_get_from_cache`. */
    method GetFromCache(key: string, now: int) returns (data: Option<JsonValue>)
      requires Valid()
      modifies this
      ensures Valid()
      ensures data == CacheRead(old(cache), key, now) && cache == CacheAfterRead(old(cache), key, now)
      ensures totalRequests == old(totalRequests) && successfulRequests == old(successfulRequests)
      ensures failedRequests == old(failedRequests)
      ensures lastError == old(lastError) && lastSuccess == old(lastSuccess)
    {
      var k := Find(cache, key);
      if k.Some? {
        var entry := cache[k.value];
        if now - entry.timestamp < CacheTtl {
          return Some(entry.data);
        }
        RemoveAtUnique(cache, k.value);
        cache := RemoveAt(cache, k.value);
      }
      return None;
    }

    /** `_set_cache`. */
    method SetCache(key: string, data: JsonValue, now: int)
      requires Valid()
      modifies this
      ensures Valid()
      ensures cache == CacheAfterSet(old(cache), key, data, now)
      ensures totalRequests == old(totalRequests) && successfulRequests == old(successfulRequests)
      ensures failedRequests == old(failedRequests)
      ensures lastError == old(lastError) && lastSuccess == old(lastSuccess)
    {
      CacheAfterSetBounded(cache, key, data, now);
      StoreUnique(cache, key, data, now);
      cache := Store(cache, key, data, now);
      if |cache| > MaxCacheEntries {
        var oldest := Oldest(cache);
        cache := RemoveAt(cache, oldest);
      }
    }

    /** The counter part of `_update_stats`: one more request, counted as a
        success (stamped with the time) or as a failure (with its error). */
    method UpdateStats(success: bool, error: Option<string>, now: int)
      requires Valid()
      modifies this
      ensures Valid()
      ensures totalRequests == old(totalRequests) + 1 && cache == old(cache)
      ensures success ==>
        successfulRequests == old(successfulRequests) + 1 && failedRequests == old(failedRequests)
        && lastSuccess == Some(now) && lastError == old(lastError)
      ensures !success ==>
        failedRequests == old(failedRequests) + 1 && successfulRequests == old(successfulRequests)
        && lastError == error && lastSuccess == old(lastSuccess)
    {
      totalRequests := totalRequests + 1;
      if success {
        successfulRequests := successfulRequests + 1;
        lastSuccess := Some(now);
      } else {
        failedRequests := failedRequests + 1;
        lastError := error;
      }
    }
  }
}
