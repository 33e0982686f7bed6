/** RxCacheService (rxcache.service.ts): the newer registry, a list of RxCacheItem objects
    with get-or-create lookup, deletion that also clears the item's local-storage entry,
    and setters for the process-wide fallback error policy. */
module RxCache {
  import opened Values
  import opened Models
  import Registry

  /** An item of this registry. Its class body is not part of this model, so an item is
      its id plus what the registry did to it: the configurations it was built with or
      given through `configure`, in order, and how often `finish` was called on it. */
  class RxCacheItem {
    const id: string
    ghost var configs: seq<Config>
    ghost var finished: nat

    /** `new RxCacheItem(config)`. */
    constructor (config: Config)
      ensures id == config.id && configs == [config] && finished == 0
    {
      id := config.id;
      configs := [config];
      finished := 0;
    }

    /** `configure(config)`. */
    method Configure(config: Config)
      modifies this
      ensures configs == old(configs) + [config] && finished == old(finished)
    {
      configs := configs + [config];
    }

    /** `finish()`. */
    method Finish()
      modifies this
      ensures finished == old(finished) + 1 && configs == old(configs)
    {
      finished := finished + 1;
    }
  }

  /** The browser's `localStorage` as a map from keys to stored strings. */
  class Storage {
    var entries: map<string, string>

    constructor (entries: map<string, string>)
      ensures this.entries == entries
    {
      this.entries := entries;
    }

    /** `getItem(key)`: the stored string, or `null` for a missing key. */
    function GetItem(key: string): (r: Option<string>)
      reads this
      ensures r.Some? <==> key in entries
      ensures r.Some? ==> r.value == entries[key]
    {
      if key in entries then Some(entries[key]) else None
    }

    /** `removeItem(key)`. */
    method RemoveItem(key: string)
      modifies this
      ensures entries == old(entries) - {key}
    {
      entries := entries - {key};
    }
  }

  function Ids(s: seq<RxCacheItem>): (r: seq<string>)
    ensures |r| == |s| && forall i :: 0 <= i < |s| ==> r[i] == s[i].id
  {
    seq(|s|, i requires 0 <= i < |s| => s[i].id)
  }

  /** The storage after `delete(id)` (lines 37-39): the entry for `id` goes when it holds a
      non-empty string, since `getItem` gives `null` for a missing key and both `null` and
      `""` are falsy. */
  function Cleared(entries: map<string, string>, id: string): (r: map<string, string>)
    ensures r.Keys <= entries.Keys
    ensures forall key :: key in r ==> r[key] == entries[key]
    ensures forall key :: key in entries && key != id ==> key in r
    ensures id in r <==> id in entries && entries[id] == ""
  {
    if id in entries && entries[id] != "" then entries - {id} else entries
  }

  class RxCacheService {
    var cacheItems: seq<RxCacheItem>
    /** `localStorage`. */
    const storage: Storage
    /** The `globalConfig` object of models/rxcache-global-config.ts. */
    const globalConfig: GlobalConfig

    /** No two items have the same id. */
    ghost predicate Valid()
      reads this
    {
      Registry.Unique(Ids(cacheItems))
    }

    constructor (storage: Storage, globalConfig: GlobalConfig)
      ensures Valid() && cacheItems == [] && this.storage == storage && this.globalConfig == globalConfig
    {
      cacheItems := [];
      this.storage := storage;
      this.globalConfig := globalConfig;
    }

    function Index(id: string): Option<nat>
      reads this
    {
      Registry.FindIndex(Ids(cacheItems), id)
    }

    /** `exists` (lines 31-33). */
    function Exists(id: string): (b: bool)
      reads this
      ensures b <==> exists i :: 0 <= i < |cacheItems| && cacheItems[i].id == id
    {
      assert forall i :: 0 <= i < |cacheItems| ==> Ids(cacheItems)[i] == cacheItems[i].id;
      Index(id).Some?
    }

    /** The item for `id`. */
    ghost function Record(id: string): RxCacheItem
      reads this
      requires Exists(id)
    {
      cacheItems[Index(id).value]
    }

    /** With unique ids, the item at `k` is the item for its id. */
    lemma RecordOf(id: string, k: nat)
      requires Valid() && k < |cacheItems| && cacheItems[k].id == id
      ensures Exists(id) && Index(id) == Some(k) && Record(id) == cacheItems[k]
    {
      Registry.FindIndexUnique(Ids(cacheItems), id, k);
    }

    /** `cacheItems.find(i => i.id === id)`. */
    function Lookup(id: string): (r: Option<RxCacheItem>)
      reads this
      ensures r.Some? <==> Exists(id)
      ensures r.Some? ==> r.value.id == id && r.value == Record(id)
    {
      match Index(id)
      case Some(k) => Some(cacheItems[k])
      case None => None
    }

    /** Appending an item for an id not yet present keeps the ids unique. */
    lemma AppendFresh(item: RxCacheItem)
      requires Valid() && !Exists(item.id)
      ensures Registry.Unique(Ids(cacheItems + [item]))
    {
      assert Ids(cacheItems + [item]) == Ids(cacheItems) + [item.id];
    }

    /** `config` (lines 11-20): an existing item is configured again and returned; for a
        missing id a new item built from the configuration is appended. */
    method Config(config: Config) returns (item: RxCacheItem)
      requires Valid()
      modifies this, if Exists(config.id) then {Record(config.id)} else {}
      ensures Valid() && item.id == config.id && Exists(config.id) && Record(config.id) == item
      ensures old(Exists(config.id)) ==>
        cacheItems == old(cacheItems) && item == old(Record(config.id)) &&
        item.configs == old(item.configs) + [config] && item.finished == old(item.finished)
      ensures !old(Exists(config.id)) ==>
        cacheItems == old(cacheItems) + [item] && fresh(item) && item.configs == [config] && item.finished == 0
    {
      var found := Lookup(config.id);
      if found.None? {
        item := new RxCacheItem(config);
        AppendFresh(item);
        cacheItems := cacheItems + [item];
        RecordOf(config.id, |cacheItems| - 1);
      } else {
        item := found.value;
        item.Configure(config);
      }
    }

    /** `get` (lines 22-29): the item for `id`, created from `{ id }` and appended when
        missing; the list grows by at most one item and no existing item changes. */
    method Get(id: string) returns (item: RxCacheItem)
      requires Valid()
      modifies this
      ensures Valid() && item.id == id && Exists(id) && Record(id) == item
      ensures old(Exists(id)) ==> cacheItems == old(cacheItems) && item == old(Record(id))
      ensures !old(Exists(id)) ==>
        cacheItems == old(cacheItems) + [item] && fresh(item) &&
        item.configs == [IdConfig(id)] && item.finished == 0
    {
      var found := Lookup(id);
      if found.None? {
        item := new RxCacheItem(IdConfig(id));
        AppendFresh(item);
        cacheItems := cacheItems + [item];
        RecordOf(id, |cacheItems| - 1);
      } else {
        item := found.value;
      }
    }

    /** `delete` (lines 35-44): the local-storage entry for `id` is cleared whether or not
        the item exists; a present item is finished once and removed, and the other items
        keep their order. */
    method Delete(id: string)
      requires Valid()
      modifies this, storage, if Exists(id) then {Record(id)} else {}
      ensures Valid() && !Exists(id)
      ensures storage.entries == Cleared(old(storage.entries), id)
      ensures !old(Exists(id)) ==> cacheItems == old(cacheItems)
      ensures old(Exists(id)) ==>
        cacheItems == old(cacheItems[..Index(id).value] + cacheItems[Index(id).value + 1..])
      ensures old(Exists(id)) ==>
        old(Record(id)).finished == old(Record(id).finished) + 1 &&
        old(Record(id)).configs == old(Record(id).configs)
    {
      var cacheItem := Lookup(id);
      var stored := storage.GetItem(id);
      if stored.Some? && stored.value != "" {
        storage.RemoveItem(id);
      }
      if cacheItem.Some? {
        ghost var k := Index(id).value;
        cacheItem.value.Finish();
        forall i | 0 <= i < |cacheItems| && i != k
          ensures cacheItems[i].id != id
        {
          assert Ids(cacheItems)[i] != Ids(cacheItems)[k];
        }
        Registry.FilterRemovesOne(cacheItems, (item: RxCacheItem) => item.id != id, k);
        RemovePreservesUnique(k);
        cacheItems := Registry.Filter(cacheItems, (item: RxCacheItem) => item.id != id);
      }
    }

    /** Dropping one item keeps the ids unique and leaves no item with its id. */
    lemma RemovePreservesUnique(k: nat)
      requires Valid() && k < |cacheItems|
      ensures Registry.Unique(Ids(cacheItems[..k] + cacheItems[k + 1..]))
      ensures cacheItems[k].id !in Ids(cacheItems[..k] + cacheItems[k + 1..])
    {
      var rest := cacheItems[..k] + cacheItems[k + 1..];
      assert forall i :: 0 <= i < |rest| ==> rest[i] == if i < k then cacheItems[i] else cacheItems[i + 1];
      forall i, j | 0 <= i < j < |rest| ensures Ids(rest)[i] != Ids(rest)[j] {
        var i', j' := if i < k then i else i + 1, if j < k then j else j + 1;
        assert Ids(cacheItems)[i'] != Ids(cacheItems)[j'];
      }
    }

    /** `genericError` (lines 46-48): the process-wide fallback message. */
    method SetGenericError(genericError: string)
      modifies globalConfig
      ensures globalConfig.genericError == genericError
      ensures globalConfig.errorHandler == old(globalConfig.errorHandler)
    {
      globalConfig.genericError := genericError;
    }

    /** `errorHandler` (lines 50-52): the process-wide error formatter. */
    method SetErrorHandler(errorHandler: Handler)
      modifies globalConfig
      ensures globalConfig.errorHandler == Some(errorHandler)
      ensures globalConfig.genericError == old(globalConfig.genericError)
    {
      globalConfig.errorHandler := Some(errorHandler);
    }
  }
}
