/**
 * The `LocalStorage` helper of src/utils/storage.ts: plain string items
 * read with a `''` default, the model-list cache keyed by normalised
 * endpoint, and the JSON lists of custom prompts and provider configs.
 *
 * The browser's `localStorage` is the object's state. Plain string items
 * live in `items`; each JSON-valued key is kept as what `JSON.parse` makes
 * of its text (missing, unparsable, or a parsed value), so that writing a
 * value and reading it back goes through no serialiser.
 */
module LocalStore {
  import opened Wrappers
  import opened Text

  const ApiKeyName := "nano-banana-api-key"
  const ApiEndpointName := "nano-banana-api-endpoint"
  const ModelIdName := "nano-banana-model-id"
  const ActiveProviderIdName := "nano-banana-active-provider-id"

  /** `ModelOption` of src/types/index.ts; `label` is a Dafny keyword, so the field is `labelText`. */
  datatype ModelOption = ModelOption(id: string, labelText: string, description: Option<string>, supportsImages: bool)

  /** `StyleTemplate` of src/types/index.ts (`mode` is not modelled). */
  datatype StyleTemplate = StyleTemplate(id: string, title: string, prompt: string, image: string, description: string)

  /** `ApiProviderConfig` of src/types/index.ts. */
  datatype ApiProviderConfig = ApiProviderConfig(id: string, name: string, apiKey: string, endpoint: string, model: string)

  /**
   * The stored model cache: no item (or an empty one), text `JSON.parse`
   * rejects, a parsed value that is not an object (or is `null`), or an
   * object from normalised endpoint to model list.
   */
  datatype RawCache = Missing | Unparsable | NotObject | CacheObject(entries: map<string, seq<ModelOption>>)

  /** A stored JSON list: no item (or an empty one), unparsable text, or the parsed list. */
  datatype RawList<T> = NoList | GarbledList | StoredList(values: seq<T>)

  /** `endpoint.trim().replace(/\/$/, '').toLowerCase()` */
  function NormalizeEndpoint(endpoint: string): (key: string)
    ensures |key| <= |endpoint|
    ensures forall i :: 0 <= i < |key| ==> !IsUpper(key[i])
  {
    ToLower(StripTrailingSlash(Trim(endpoint)))
  }

  /** Whitespace around an endpoint does not change its key. */
  lemma NormalizeIgnoresPadding(a: string, endpoint: string, b: string)
    requires AllSpace(a) && AllSpace(b) && IsTrimmed(endpoint)
    ensures NormalizeEndpoint(a + endpoint + b) == NormalizeEndpoint(endpoint)
  {
    TrimPadding(a, endpoint, b);
    TrimOfTrimmed(endpoint);
  }

  /** One trailing '/' does not change the key. */
  lemma NormalizeIgnoresTrailingSlash(endpoint: string)
    requires IsTrimmed(endpoint) && !EndsWith(endpoint, "/")
    ensures NormalizeEndpoint(endpoint + "/") == NormalizeEndpoint(endpoint)
  {
    var e := endpoint + "/";
    assert e[|e| - 1] == '/';
    assert IsTrimmed(e) by {
      if endpoint != [] { assert e[0] == endpoint[0]; }
    }
    TrimOfTrimmed(e);
    TrimOfTrimmed(endpoint);
    assert e[..|e| - 1] == endpoint;
  }

  /** Letter case does not change the key. */
  lemma NormalizeIgnoresCase(endpoint: string)
    ensures NormalizeEndpoint(ToLower(endpoint)) == NormalizeEndpoint(endpoint)
  {
    var t := Trim(endpoint);
    TrimLower(endpoint);
    StripTrailingSlashLower(t);
    ToLowerIdempotent(StripTrailingSlash(t));
  }

  /** `getModelCacheMap`: the parsed object, or `{}` for anything else. */
  function CacheMap(raw: RawCache): (m: map<string, seq<ModelOption>>)
    ensures !raw.CacheObject? ==> m == map[]
    ensures raw.CacheObject? ==> m == raw.entries
  {
    if raw.CacheObject? then raw.entries else map[]
  }

  /** `getModelCache(endpoint)`: the list under the endpoint's key, or `[]`. */
  function CacheLookup(raw: RawCache, endpoint: string): (models: seq<ModelOption>)
    ensures NormalizeEndpoint(endpoint) in CacheMap(raw) ==> models == CacheMap(raw)[NormalizeEndpoint(endpoint)]
    ensures NormalizeEndpoint(endpoint) !in CacheMap(raw) ==> models == []
  {
    var key := NormalizeEndpoint(endpoint);
    var cache := CacheMap(raw);
    if key in cache then cache[key] else []
  }

  /** The stored cache after `saveModelCache(endpoint, models)`. */
  function CacheAfterSave(raw: RawCache, endpoint: string, models: seq<ModelOption>): (r: RawCache)
    ensures r.CacheObject?
    ensures r.entries.Keys == CacheMap(raw).Keys + {NormalizeEndpoint(endpoint)}
  {
    CacheObject(CacheMap(raw)[NormalizeEndpoint(endpoint) := models])
  }

  /** The stored cache after `clearModelCache(endpoint)`; `None` is an undefined argument. */
  function CacheAfterClear(raw: RawCache, endpoint: Option<string>): (r: RawCache)
    ensures endpoint.None? || endpoint.value == "" ==> r == Missing
    ensures endpoint.Some? && endpoint.value != "" && NormalizeEndpoint(endpoint.value) !in CacheMap(raw) ==> r == raw
    ensures endpoint.Some? && endpoint.value != "" && NormalizeEndpoint(endpoint.value) in CacheMap(raw) ==>
      r == CacheObject(CacheMap(raw) - {NormalizeEndpoint(endpoint.value)})
  {
    match endpoint
    case None => Missing
    case Some(e) =>
      if e == "" then Missing
      else
        var key := NormalizeEndpoint(e);
        var cache := CacheMap(raw);
        if key in cache then CacheObject(cache - {key}) else raw
  }

  /** After a save, every endpoint with the same key reads the saved list back. */
  lemma SaveThenGet(raw: RawCache, endpoint: string, models: seq<ModelOption>, other: string)
    requires NormalizeEndpoint(other) == NormalizeEndpoint(endpoint)
    ensures CacheLookup(CacheAfterSave(raw, endpoint, models), other) == models
  {
  }

  /** A save leaves the lists of every other key as they were. */
  lemma SaveKeepsOtherKeys(raw: RawCache, endpoint: string, models: seq<ModelOption>, other: string)
    requires NormalizeEndpoint(other) != NormalizeEndpoint(endpoint)
    ensures CacheLookup(CacheAfterSave(raw, endpoint, models), other) == CacheLookup(raw, other)
  {
  }

  /** A cache that is missing, unparsable or not an object reads as empty for every endpoint. */
  lemma BrokenCacheReadsEmpty(raw: RawCache, endpoint: string)
    requires !raw.CacheObject?
    ensures CacheLookup(raw, endpoint) == []
  {
  }

  /** Clearing one endpoint empties its key and keeps every other key. */
  lemma ClearOneKey(raw: RawCache, endpoint: string, other: string)
    requires endpoint != ""
    ensures NormalizeEndpoint(other) == NormalizeEndpoint(endpoint) ==> CacheLookup(CacheAfterClear(raw, Some(endpoint)), other) == []
    ensures NormalizeEndpoint(other) != NormalizeEndpoint(endpoint) ==>
      CacheLookup(CacheAfterClear(raw, Some(endpoint)), other) == CacheLookup(raw, other)
  {
  }

  /** Clearing without an endpoint empties every key. */
  lemma ClearAllKeys(raw: RawCache, endpoint: Option<string>, other: string)
    requires endpoint.None? || endpoint.value == ""
    ensures CacheLookup(CacheAfterClear(raw, endpoint), other) == []
  {
  }

  /** A stored JSON list as read back: the parsed list, or `[]` when missing or unparsable. */
  function ListOrEmpty<T>(raw: RawList<T>): (r: seq<T>)
    ensures raw.StoredList? ==> r == raw.values
    ensures !raw.StoredList? ==> r == []
  {
    if raw.StoredList? then raw.values else []
  }

  /** The browser's `localStorage`, as the helper uses it. */
  class LocalStorage {
    var items: map<string, string>
    var modelCache: RawCache
    var customPrompts: RawList<StyleTemplate>
    var apiConfigs: RawList<ApiProviderConfig>

    constructor(items: map<string, string>, modelCache: RawCache, customPrompts: RawList<StyleTemplate>, apiConfigs: RawList<ApiProviderConfig>)
      ensures this.items == items && this.modelCache == modelCache
      ensures this.customPrompts == customPrompts && this.apiConfigs == apiConfigs
    {
      this.items := items;
      this.modelCache := modelCache;
      this.customPrompts := customPrompts;
      this.apiConfigs := apiConfigs;
    }

    /** `localStorage.getItem(key) || ''` */
    function GetString(key: string): (r: string)
      reads this
      ensures key in items ==> r == items[key]
      ensures key !in items ==> r == ""
    {
      if key in items then items[key] else ""
    }

    /** `localStorage.setItem(key, value)` */
    method SetItem(key: string, value: string)
      modifies this
      ensures items == old(items)[key := value]
      ensures modelCache == old(modelCache) && customPrompts == old(customPrompts) && apiConfigs == old(apiConfigs)
    {
      items := items[key := value];
    }

    /** `localStorage.removeItem(key)` */
    method RemoveItem(key: string)
      modifies this
      ensures items == old(items) - {key}
      ensures modelCache == old(modelCache) && customPrompts == old(customPrompts) && apiConfigs == old(apiConfigs)
    {
      items := items - {key};
    }

    method SaveApiKey(apiKey: string)
      modifies this
      ensures items == old(items)[ApiKeyName := apiKey] && GetApiKey() == apiKey
      ensures modelCache == old(modelCache) && customPrompts == old(customPrompts) && apiConfigs == old(apiConfigs)
    {
      SetItem(ApiKeyName, apiKey);
    }

    function GetApiKey(): (r: string)
      reads this
      ensures ApiKeyName in items ==> r == items[ApiKeyName]
      ensures ApiKeyName !in items ==> r == ""
    {
      GetString(ApiKeyName)
    }

    method ClearApiKey()
      modifies this
      ensures items == old(items) - {ApiKeyName} && GetApiKey() == ""
      ensures modelCache == old(modelCache) && customPrompts == old(customPrompts) && apiConfigs == old(apiConfigs)
    {
      RemoveItem(ApiKeyName);
    }

    method SaveApiEndpoint(endpoint: string)
      modifies this
      ensures items == old(items)[ApiEndpointName := endpoint] && GetApiEndpoint() == endpoint
      ensures modelCache == old(modelCache) && customPrompts == old(customPrompts) && apiConfigs == old(apiConfigs)
    {
      SetItem(ApiEndpointName, endpoint);
    }

    function GetApiEndpoint(): (r: string)
      reads this
      ensures ApiEndpointName in items ==> r == items[ApiEndpointName]
      ensures ApiEndpointName !in items ==> r == ""
    {
      GetString(ApiEndpointName)
    }

    method ClearApiEndpoint()
      modifies this
      ensures items == old(items) - {ApiEndpointName} && GetApiEndpoint() == ""
      ensures modelCache == old(modelCache) && customPrompts == old(customPrompts) && apiConfigs == old(apiConfigs)
    {
      RemoveItem(ApiEndpointName);
    }

    method SaveModelId(modelId: string)
      modifies this
      ensures items == old(items)[ModelIdName := modelId] && GetModelId() == modelId
      ensures modelCache == old(modelCache) && customPrompts == old(customPrompts) && apiConfigs == old(apiConfigs)
    {
      SetItem(ModelIdName, modelId);
    }

    function GetModelId(): (r: string)
      reads this
      ensures ModelIdName in items ==> r == items[ModelIdName]
      ensures ModelIdName !in items ==> r == ""
    {
      GetString(ModelIdName)
    }

    method ClearModelId()
      modifies this
      ensures items == old(items) - {ModelIdName} && GetModelId() == ""
      ensures modelCache == old(modelCache) && customPrompts == old(customPrompts) && apiConfigs == old(apiConfigs)
    {
      RemoveItem(ModelIdName);
    }

    method SaveActiveProviderId(id: string)
      modifies this
      ensures items == old(items)[ActiveProviderIdName := id] && GetActiveProviderId() == id
      ensures modelCache == old(modelCache) && customPrompts == old(customPrompts) && apiConfigs == old(apiConfigs)
    {
      SetItem(ActiveProviderIdName, id);
    }

    function GetActiveProviderId(): (r: string)
      reads this
      ensures ActiveProviderIdName in items ==> r == items[ActiveProviderIdName]
      ensures ActiveProviderIdName !in items ==> r == ""
    {
      GetString(ActiveProviderIdName)
    }

    /** `saveModelCache`: read the map, assign the key, write the map back. */
    method SaveModelCache(endpoint: string, models: seq<ModelOption>)
      modifies this
      ensures modelCache == CacheAfterSave(old(modelCache), endpoint, models)
      ensures GetModelCache(endpoint) == models
      ensures items == old(items) && customPrompts == old(customPrompts) && apiConfigs == old(apiConfigs)
    {
      var cache := CacheMap(modelCache);
      cache := cache[NormalizeEndpoint(endpoint) := models];
      modelCache := CacheObject(cache);
    }

    function GetModelCache(endpoint: string): (models: seq<ModelOption>)
      reads this
      ensures !modelCache.CacheObject? ==> models == []
      ensures modelCache.CacheObject? && NormalizeEndpoint(endpoint) in modelCache.entries ==>
        models == modelCache.entries[NormalizeEndpoint(endpoint)]
      ensures modelCache.CacheObject? && NormalizeEndpoint(endpoint) !in modelCache.entries ==> models == []
    {
      CacheLookup(modelCache, endpoint)
    }

    /** `clearModelCache`: with no endpoint the item goes; otherwise the key is deleted and the map written back only when it was there. */
    method ClearModelCache(endpoint: Option<string>)
      modifies this
      ensures modelCache == CacheAfterClear(old(modelCache), endpoint)
      ensures items == old(items) && customPrompts == old(customPrompts) && apiConfigs == old(apiConfigs)
    {
      if endpoint.None? || endpoint.value == "" {
        modelCache := Missing;
        return;
      }
      var cache := CacheMap(modelCache);
      var normalized := NormalizeEndpoint(endpoint.value);
      if normalized in cache {
        cache := cache - {normalized};
        modelCache := CacheObject(cache);
      }
    }

    method SaveCustomPrompts(prompts: seq<StyleTemplate>)
      modifies this
      ensures customPrompts == StoredList(prompts) && GetCustomPrompts() == prompts
      ensures items == old(items) && modelCache == old(modelCache) && apiConfigs == old(apiConfigs)
    {
      customPrompts := StoredList(prompts);
    }

    function GetCustomPrompts(): (prompts: seq<StyleTemplate>)
      reads this
      ensures customPrompts.StoredList? ==> prompts == customPrompts.values
      ensures !customPrompts.StoredList? ==> prompts == []
    {
      ListOrEmpty(customPrompts)
    }

    method SaveApiConfigs(configs: seq<ApiProviderConfig>)
      modifies this
      ensures apiConfigs == StoredList(configs) && GetApiConfigs() == configs
      ensures items == old(items) && modelCache == old(modelCache) && customPrompts == old(customPrompts)
    {
      apiConfigs := StoredList(configs);
    }

    function GetApiConfigs(): (configs: seq<ApiProviderConfig>)
      reads this
      ensures apiConfigs.StoredList? ==> configs == apiConfigs.values
      ensures !apiConfigs.StoredList? ==> configs == []
    {
      ListOrEmpty(apiConfigs)
    }
  }
}
