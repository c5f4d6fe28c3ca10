/** The configuration service of src/services/config-service.js: the bot's
    configuration is fetched from the Learnverse API, merged over built-in
    defaults, and kept in a cache whose entry lives 300 seconds. The HTTP
    request is an input (`Response`), and so is the current time. */
module Config {
  import opened Js

  /** A configuration object: its top-level fields other than
      `featureFlags`, and the `featureFlags` object. */
  datatype Config = Config(top: map<string, Value>, flags: map<string, Value>)

  /** The `data` object of a successful response, split the same way. */
  datatype ConfigData = ConfigData(fields: map<string, Value>, featureFlags: map<string, Value>)

  /** How `axios.get` ends: it throws (network error, timeout, HTTP error
      status), or it answers with a body whose `success` field is any JSON
      value and whose `data` field is an object (`Some`) or falsy (`None`). */
  datatype Response = RequestFailed | Answered(success: Value, data: Option<ConfigData>)

  const FlagsKey: string := "featureFlags"
  const VersionKey: string := "version"
  const DefaultVersion: string := "1.0.0"
  const AiQueryDetection: string := "aiQueryDetection"
  const GroupChatReplies: string := "groupChatReplies"
  const RateLimiting: string := "rateLimiting"

  /** The cache's standard TTL, 300 seconds, in milliseconds. */
  const TtlMs: nat := 300 * 1000

  /** The axios request timeout, in milliseconds. */
  const RequestTimeoutMs: nat := 5000

  /** `DEFAULT_CONFIG` */
  const Default: Config :=
    Config(map[VersionKey := Str(DefaultVersion)],
           map[AiQueryDetection := Bool(true), GroupChatReplies := Bool(true), RateLimiting := Bool(true)])

  /** `{...DEFAULT_CONFIG, ...data, featureFlags: {...DEFAULT_CONFIG.featureFlags, ...data.featureFlags}}`:
      every field of the response overrides the default of the same name,
      and the flags are merged the same way, key by key. */
  function Merge(d: ConfigData): (c: Config)
    ensures c.top.Keys == Default.top.Keys + (d.fields.Keys - {FlagsKey})
    ensures forall k :: k in d.fields && k != FlagsKey ==> c.top[k] == d.fields[k]
    ensures forall k :: k in Default.top && k !in d.fields ==> c.top[k] == Default.top[k]
    ensures c.flags.Keys == Default.flags.Keys + d.featureFlags.Keys
    ensures forall k :: k in d.featureFlags ==> c.flags[k] == d.featureFlags[k]
    ensures forall k :: k in Default.flags && k !in d.featureFlags ==> c.flags[k] == Default.flags[k]
  {
    Config(Default.top + (d.fields - {FlagsKey}), Default.flags + d.featureFlags)
  }

  /** `response.data?.success && response.data?.data`: only a request that
      answered with a truthy `success` and a `data` object is used. */
  predicate Accepted(response: Response)
    ensures response.RequestFailed? ==> !Accepted(response)
    ensures Accepted(response) ==> Truthy(response.success) && response.data.Some?
  {
    response.Answered? && Truthy(response.success) && response.data.Some?
  }

  /** What a fetch that misses the cache returns: the merge of an accepted
      response, or the defaults. Either way it has a version and every
      default flag, and an accepted response adds its own flags. */
  function Resolve(response: Response): (c: Config)
    ensures CarriesDefaults(c)
    ensures !Accepted(response) ==> c == Default
    ensures Accepted(response) ==> c.flags.Keys == Default.flags.Keys + response.data.value.featureFlags.Keys
  {
    if Accepted(response) then Merge(response.data.value) else Default
  }

  /** `config.featureFlags?.[flagName] ?? false`: the flag's value, or
      `false` when it is absent or null. */
  function FlagValue(c: Config, name: string): (v: Value)
    ensures v != Null
    ensures name in c.flags && c.flags[name] != Null ==> v == c.flags[name]
    ensures name !in c.flags || c.flags[name] == Null ==> v == Bool(false)
  {
    if name in c.flags && c.flags[name] != Null then c.flags[name] else Bool(false)
  }

  /** `config.version || "1.0.0"` */
  function Version(c: Config): (v: Value)
    ensures Truthy(v)
    ensures VersionKey in c.top && Truthy(c.top[VersionKey]) ==> v == c.top[VersionKey]
    ensures !(VersionKey in c.top && Truthy(c.top[VersionKey])) ==> v == Str(DefaultVersion)
  {
    if VersionKey in c.top then Or(c.top[VersionKey], Str(DefaultVersion)) else Str(DefaultVersion)
  }

  /** The configuration has a version and every default flag. */
  predicate CarriesDefaults(c: Config)
  {
    VersionKey in c.top && Default.flags.Keys <= c.flags.Keys
  }

  /** A cached configuration and the time it was stored at. */
  datatype CacheEntry = CacheEntry(config: Config, storedAt: nat)

  /** Whether a cache entry is still served at time `now`: NodeCache drops
      an entry once its expiry time is strictly in the past, so an entry
      lives at most 300 seconds after it was stored. */
  predicate Live(entry: Option<CacheEntry>, now: nat)
    ensures Live(entry, now) ==> entry.Some? && now - entry.value.storedAt <= 300 * 1000
    ensures entry.Some? && now > entry.value.storedAt + 300 * 1000 ==> !Live(entry, now)
  {
    entry.Some? && now <= entry.value.storedAt + TtlMs
  }

  /** What `fetchTelegramConfig()` returns at time `now` with this cache
      content, if the request it may make ends as `response`. Within 300
      seconds of storing, the cached configuration is served whatever the
      API would answer; later, or with nothing cached, the response
      decides. What is served has a version and the three default flags
      (a merged response can override a default but never removes it). */
  function Served(entry: Option<CacheEntry>, now: nat, response: Response): (c: Config)
    ensures entry.Some? && now <= entry.value.storedAt + 300 * 1000 ==> c == entry.value.config
    ensures (entry.None? || now > entry.value.storedAt + 300 * 1000) ==> c == Resolve(response)
    ensures (entry.Some? ==> CarriesDefaults(entry.value.config)) ==> CarriesDefaults(c)
  {
    if Live(entry, now) then entry.value.config else Resolve(response)
  }

  /** How one fetch at time `now` changes the cache and the request count:
      a live entry is kept and no request is made; otherwise one request is
      made and only an accepted response is cached, stored at `now`. */
  predicate FetchEffect(entry: Option<CacheEntry>, requests: nat, now: nat, response: Response,
                        entry': Option<CacheEntry>, requests': nat)
  {
    if Live(entry, now) then entry' == entry && requests' == requests
    else requests' == requests + 1
         && entry' == (if Accepted(response) then Some(CacheEntry(Resolve(response), now)) else None)
  }

  /** The module-level cache, and the number of requests made to the API. */
  class ConfigService {
    var entry: Option<CacheEntry>
    var requests: nat

    /** Only a merged response is ever cached, so a cached configuration
        carries every default flag and a version. */
    predicate Valid()
      reads this
    {
      entry.Some? ==> CarriesDefaults(entry.value.config)
    }

    constructor ()
      ensures Valid() && entry == None && requests == 0
    {
      entry, requests := None, 0;
    }

    /** `fetchTelegramConfig()` at time `now`. A live entry is returned
        without a request; otherwise the expired entry is dropped, one
        request is made, and only an accepted response is merged and
        cached. */
    method FetchTelegramConfig(now: nat, response: Response) returns (c: Config)
      requires Valid()
      modifies this
      ensures Valid()
      ensures c == old(Served(entry, now, response))
      ensures FetchEffect(old(entry), old(requests), now, response, entry, requests)
    {
      if Live(entry, now) {
        return entry.value.config;
      }
      entry := None;
      requests := requests + 1;
      if response.Answered? && Truthy(response.success) && response.data.Some? {
        c := Merge(response.data.value);
        entry := Some(CacheEntry(c, now));
      } else {
        c := Default;
      }
    }

    /** `getFeatureFlag(flagName)` */
    method GetFeatureFlag(name: string, now: nat, response: Response) returns (v: Value)
      requires Valid()
      modifies this
      ensures Valid()
      ensures v == FlagValue(old(Served(entry, now, response)), name)
      ensures FetchEffect(old(entry), old(requests), now, response, entry, requests)
    {
      var c := FetchTelegramConfig(now, response);
      v := FlagValue(c, name);
    }

    /** `isAiQueryDetectionEnabled()` */
    method IsAiQueryDetectionEnabled(now: nat, response: Response) returns (v: Value)
      requires Valid()
      modifies this
      ensures Valid()
      ensures v == FlagValue(old(Served(entry, now, response)), AiQueryDetection)
      ensures FetchEffect(old(entry), old(requests), now, response, entry, requests)
    {
      v := GetFeatureFlag(AiQueryDetection, now, response);
    }

    /** `isGroupChatRepliesEnabled()` */
    method IsGroupChatRepliesEnabled(now: nat, response: Response) returns (v: Value)
      requires Valid()
      modifies this
      ensures Valid()
      ensures v == FlagValue(old(Served(entry, now, response)), GroupChatReplies)
      ensures FetchEffect(old(entry), old(requests), now, response, entry, requests)
    {
      v := GetFeatureFlag(GroupChatReplies, now, response);
    }

    /** `isRateLimitingEnabled()` */
    method IsRateLimitingEnabled(now: nat, response: Response) returns (v: Value)
      requires Valid()
      modifies this
      ensures Valid()
      ensures v == FlagValue(old(Served(entry, now, response)), RateLimiting)
      ensures FetchEffect(old(entry), old(requests), now, response, entry, requests)
    {
      v := GetFeatureFlag(RateLimiting, now, response);
    }

    /** `clearConfigCache()`: the next fetch makes a request. */
    method ClearConfigCache()
      modifies this
      ensures Valid()
      ensures entry == None && requests == old(requests)
      ensures forall now, response :: Served(entry, now, response) == Resolve(response)
    {
      entry := None;
    }

    /** `getBotVersion()` */
    method GetBotVersion(now: nat, response: Response) returns (v: Value)
      requires Valid()
      modifies this
      ensures Valid()
      ensures v == Version(old(Served(entry, now, response)))
      ensures FetchEffect(old(entry), old(requests), now, response, entry, requests)
    {
      var c := FetchTelegramConfig(now, response);
      v := Version(c);
    }
  }

  /** When the API cannot be used, every feature is on: a failed request
      or a rejected body yields `true` for each of the three flags. */
  lemma FailureEnablesEverything(response: Response, name: string)
    requires !Accepted(response)
    requires name in {AiQueryDetection, GroupChatReplies, RateLimiting}
    ensures FlagValue(Resolve(response), name) == Bool(true)
  {
  }

  /** A response that sends a flag as `null` or leaves it out keeps the
      default `true`; a flag it sends with any other value reads as that
      value. */
  lemma MergedFlag(d: ConfigData, name: string)
    requires name in Default.flags
    ensures name !in d.featureFlags ==> FlagValue(Merge(d), name) == Bool(true)
    ensures name in d.featureFlags && d.featureFlags[name] == Null ==> FlagValue(Merge(d), name) == Bool(false)
    ensures name in d.featureFlags && d.featureFlags[name] != Null ==> FlagValue(Merge(d), name) == d.featureFlags[name]
  {
  }

  /** The reported version is the response's version when that is truthy,
      and "1.0.0" otherwise (absent, null or empty). */
  lemma MergedVersion(d: ConfigData)
    ensures VersionKey in d.fields && Truthy(d.fields[VersionKey]) ==> Version(Merge(d)) == d.fields[VersionKey]
    ensures !(VersionKey in d.fields && Truthy(d.fields[VersionKey])) ==> Version(Merge(d)) == Str(DefaultVersion)
  {
  }

  /** Two fetches within the TTL of an accepted response: the second
      returns the first's configuration and makes no request, even though
      the API would now answer differently. */
  method CachedWithinTtl(d: ConfigData, later: Response) returns (first: Config, second: Config, requests: nat)
    ensures first == Merge(d) && second == first
    ensures requests == 1
  {
    var service := new ConfigService();
    first := service.FetchTelegramConfig(1000, Answered(Bool(true), Some(d)));
    second := service.FetchTelegramConfig(1000 + TtlMs, later);
    requests := service.requests;
  }
}
