# ngx-rxcache in Dafny

A model of the core of ngx-rxcache, an Angular cache of named items, and proofs about it.
Each item has a value and a loading / loaded / error status. Consumers observe these
through RxJS `BehaviorSubject`s. The model covers three parts:

- **`NgxRxcacheService`** (`ngx_rxcache_service.dfy`, module `NgxRxcache`). The service is a list of item records.
  - Each record is a `CacheItem` object with constant fields. Its five subjects are shared `Subject` cells, and it may hold a `Subscription` to a running load.
  - The service replaces a record by a spread copy `{ ...item, ... }`, which shares the subjects. The model keeps that sharing and these replacements:
    - by identity at lines 34, 119, 128 and 163;
    - by id at line 106.
  - `find` is get-or-create, and every reader that goes through it creates a missing item.
  - A load is split in two steps:
    - **Start** (`RefreshCacheItem`, `Reload`) sets the flags, cancels the record's subscription and takes out a new one.
    - **Settle** (`Settle(s, outcome)`) runs the success or error callback. It does so only while `s` is live, meaning not unsubscribed and not yet settled.
  - A producer that settles during `subscribe`, like `of(10)`, is an `Emission` of `Immediately(outcome)`. One that settles later is `Pending`.
  - The registry invariant `Coherent` holds in every state:
    - ids are unique;
    - no two records share a subject or a subscription;
    - every live subscription belongs to the current record for its id and writes to that record's subjects.
  - It follows that, of an item's loads, only the newest can change it. `update`, `reset` and `add`'s seeding write the subjects directly.
- **`RxCacheService`** (`rxcache_service.dfy`, module `RxCache`). The newer registry, with get-or-create, create-or-configure, `exists` and `delete`.
  - Its items' class body is not part of this model. An `RxCacheItem` is an id plus ghost records of the configurations given to it and of how often `finish` was called on it.
  - `localStorage` is a `Storage` object holding a `map<string, string>`.
  - `globalConfig` is a `GlobalConfig` object, which starts with the message `'An error has occoured'`.
- **`clone`** (`clone.dfy`, module `Clone`). The recursive deep copy.
  - It works over the JSON-like value tree `Values.Value`: undefined, null, primitives, dates, arrays, and objects as ordered property lists.

Two more modules support these. `registry.dfy` holds the list operations both services use (`find`, `filter`, `map`-replace). `models.dfy` holds the configuration shape and the global configuration.

ngx-rxcache.service.ts imports its record and configuration types from `models/ngx-rxcache/`, and those files are not part of this model. The model gives them the fields of `models/rxcache-item.ts` and `models/rxcache-item-config.ts`, which are the fields the service reads and writes.

Three behaviours of ngx-rxcache.service.ts that the model keeps as the code has them:
- `update` (lines 77-84) does not cancel a load in flight, and it always sets `loaded` to true.
- `unsubscribe` (lines 124-130) drops the subscription but leaves `loading` as it was.
- `add` with `load` refreshes the record as it was before the merge (line 32), where ngx-rxcache.service.spec.ts:89-177 expects a load; see "## Findings".

## Model

| member | source | states |
|---|---|---|
| Values.Or | projects/ngx-rxcache/src/lib/ngx-rxcache.service.ts:175 | JavaScript `a \|\| b` is one of its operands, truthy exactly when either operand is truthy, and the first operand whenever that one is truthy |
| Values.OrString | projects/ngx-rxcache/src/lib/ngx-rxcache.service.ts:23 | `config.genericError \|\| cacheItem.genericError` is the configured or the record's message; it is empty only when both are, and a non-empty configured message wins |
| Models.GlobalConfig.constructor | projects/ngx-rxcache/src/lib/models/rxcache-global-config.ts:6-8 | the global policy starts with the message 'An error has occoured' and no handler |
| Registry.FindIndex | projects/ngx-rxcache/src/lib/ngx-rxcache.service.ts:38 | `find` by id: the position of the first record with that id, and none exactly when no record has it |
| Registry.FilterRemovesOne | projects/ngx-rxcache/src/lib/ngx-rxcache.service.ts:143 | a filter that only the element at `k` fails removes that element and keeps the others in order |
| Registry.ReplaceOnce | projects/ngx-rxcache/src/lib/ngx-rxcache.service.ts:34 | the identity `map` replaces exactly the one position holding the record |
| Registry.ReplaceAbsent | projects/ngx-rxcache/src/lib/ngx-rxcache.service.ts:34 | the identity `map` of a record no longer in the list changes nothing |
| Clone.Clone | projects/ngx-rxcache/src/lib/clone.ts:1-11 | the deep copy; every object in its result has distinct property names and no own `__proto__` property |
| Clone.Assign | projects/ngx-rxcache/src/lib/clone.ts:8 | `o[prop] = …` gives an object whose property names are the old ones plus `prop`, except that a new `__proto__` reaches the prototype setter and adds no own property |
| Clone.CloneArray | projects/ngx-rxcache/src/lib/clone.ts:2-3 | an array clones to an array of the same length whose items are the clones of its items |
| Clone.CloneScalars | projects/ngx-rxcache/src/lib/clone.ts:4-6 | a date keeps its time; undefined, null and primitives come back unchanged |
| Clone.CloneObject | projects/ngx-rxcache/src/lib/clone.ts:6-10 | an object clones to one with the same property names in the same order, each mapped to the clone of its value, with an own `__proto__` dropped |
| Clone.CloneObjectNames | projects/ngx-rxcache/src/lib/clone.ts:7-10 | for any input object, the clone has exactly its property names other than `__proto__` |
| Clone.AccumulateDistinct | projects/ngx-rxcache/src/lib/clone.ts:7-10 | the `reduce` over distinct new names appends them in order, leaving out a `__proto__` pair |
| Clone.CloneIsIdentity | projects/ngx-rxcache/src/lib/clone.ts:1-11 | on every value `clone` could have built (distinct names, no own `__proto__`) the clone is structurally equal to the original at every depth |
| Clone.CloneIdempotent | projects/ngx-rxcache/src/lib/clone.ts:1-11 | cloning a clone gives the same value again |
| Clone.CloneProtoKey | projects/ngx-rxcache/src/lib/clone.ts:7-8 | the parsed `{"__proto__": {"a": 1}, "b": 2}` clones to an object whose only own property is `b` |
| NgxRxcache.GenerateErrorMessage | projects/ngx-rxcache/src/lib/ngx-rxcache.service.ts:174-176 | the message is the handler's or the generic one, and it is truthy exactly when the handler's message is truthy or the generic message is not empty |
| NgxRxcache.ErrorMessage | projects/ngx-rxcache/src/lib/ngx-rxcache.service.ts:168 | the handler path when there is a handler, the generic message otherwise, and never falsy while the generic message is not empty |
| NgxRxcache.SuccessPublishes | projects/ngx-rxcache/src/lib/ngx-rxcache.service.ts:149-160 | a started load that succeeds leaves the item as its value, loaded, not loading and without error |
| NgxRxcache.FailureReports | projects/ngx-rxcache/src/lib/ngx-rxcache.service.ts:167-172 | a started load that fails keeps the previous value, is neither loaded nor loading, has an error, and publishes the error message |
| NgxRxcache.ImmediateIsPendingThenSettled | projects/ngx-rxcache/src/lib/ngx-rxcache.service.ts:156-162 | a producer that settles during `subscribe` leaves the same subjects as a pending load settled afterwards |
| NgxRxcache.AfterStartIgnoresConstruct | projects/ngx-rxcache/src/lib/ngx-rxcache.service.ts:99-106 | the outcome of a load does not depend on the record's producer, so `reload` may store the new one afterwards |
| NgxRxcache.CacheItem.Create | projects/ngx-rxcache/src/lib/ngx-rxcache.service.ts:40-51 | a new record has five fresh distinct subjects holding undefined / false / false / false / undefined, the service's generic message, and no producer, handler or subscription |
| NgxRxcache.CacheItem.Spread | projects/ngx-rxcache/src/lib/ngx-rxcache.service.ts:21-27 | a spread copy has the same id and the very same subjects, with the given fields and subscription |
| NgxRxcache.ReplaceIdAt | projects/ngx-rxcache/src/lib/ngx-rxcache.service.ts:106 | with unique ids, the map by id puts the copy exactly at the one position holding the id and keeps every other record |
| NgxRxcache.CoherentReplace | projects/ngx-rxcache/src/lib/ngx-rxcache.service.ts:34 | replacing a record by a copy that shares its subjects keeps the registry invariant when the live subscriptions afterwards are the copy's or were live and not the old record's |
| NgxRxcache.CoherentRemove | projects/ngx-rxcache/src/lib/ngx-rxcache.service.ts:140-143 | dropping a record whose subscription is no longer live keeps the registry invariant |
| NgxRxcache.OwnLoad | projects/ngx-rxcache/src/lib/ngx-rxcache.service.ts:156-161 | a live subscription held by a record writes to that record's own subjects |
| NgxRxcache.Subject.constructor | projects/ngx-rxcache/src/lib/ngx-rxcache.service.ts:42-46 | `new BehaviorSubject(v)` holds `v` and is not completed |
| NgxRxcache.NgxRxcacheService.constructor | projects/ngx-rxcache/src/lib/ngx-rxcache.service.ts:11-13 | the service starts with no records and no subscriptions, and satisfies the registry invariant |
| NgxRxcache.NgxRxcacheService.Exists | projects/ngx-rxcache/src/lib/ngx-rxcache.service.ts:57-59 | true exactly when some record has the id |
| NgxRxcache.NgxRxcacheService.Find | projects/ngx-rxcache/src/lib/ngx-rxcache.service.ts:37-55 | an existing id returns its record and changes nothing; a missing id appends exactly one default record; ids stay unique and the id exists afterwards |
| NgxRxcache.NgxRxcacheService.PriorNotLive | projects/ngx-rxcache/src/lib/ngx-rxcache.service.ts:153-156 | after a load starts, the subscription it replaced is not live and not the record's, so the earlier load can no longer reach the value |
| NgxRxcache.NgxRxcacheService.Deliver | projects/ngx-rxcache/src/lib/ngx-rxcache.service.ts:157-160 | the success callback sets the value to the item, loaded to true and loading to false |
| NgxRxcache.NgxRxcacheService.ErrorHandler | projects/ngx-rxcache/src/lib/ngx-rxcache.service.ts:167-172 | the error callback publishes the error message, clears loaded and loading, sets hasError and keeps the value |
| NgxRxcache.NgxRxcacheService.Run | projects/ngx-rxcache/src/lib/ngx-rxcache.service.ts:157-161 | a load's outcome runs the success callback or the error callback on the record it was started for |
| NgxRxcache.NgxRxcacheService.Settle | projects/ngx-rxcache/src/lib/ngx-rxcache.service.ts:156-161 | a live subscription's callback updates the current record for its id and the subscription is no longer live; a cancelled or settled one changes no subject; the invariant holds |
| NgxRxcache.NgxRxcacheService.Cancel | projects/ngx-rxcache/src/lib/ngx-rxcache.service.ts:153-155 | `unsubscribe()` takes the record's subscription, if any, out of the live set |
| NgxRxcache.NgxRxcacheService.Subscribe | projects/ngx-rxcache/src/lib/ngx-rxcache.service.ts:156-162 | a new subscription targets the item; it stays live and changes no subject while pending, and settles the item at once otherwise |
| NgxRxcache.NgxRxcacheService.Start | projects/ngx-rxcache/src/lib/ngx-rxcache.service.ts:149-152 | a load start clears loaded, hasError and the error, sets loading, and keeps the value |
| NgxRxcache.NgxRxcacheService.RefreshCacheItem | projects/ngx-rxcache/src/lib/ngx-rxcache.service.ts:147-165 | with no producer nothing changes; otherwise the load starts, the old subscription is dropped and a copy holding the new one replaces the record |
| NgxRxcache.NgxRxcacheService.Restart | projects/ngx-rxcache/src/lib/ngx-rxcache.service.ts:149-162 | the subjects start loading, the old subscription leaves the live set and a new one is issued |
| NgxRxcache.NgxRxcacheService.Relaunch | projects/ngx-rxcache/src/lib/ngx-rxcache.service.ts:149-163 | the load starts, the old subscription leaves the live set, and a new copy holding the new subscription replaces the record and shares its subjects |
| NgxRxcache.NgxRxcacheService.Install | projects/ngx-rxcache/src/lib/ngx-rxcache.service.ts:163 | the map puts the copy exactly at the record's position and keeps the invariant |
| NgxRxcache.NgxRxcacheService.Add | projects/ngx-rxcache/src/lib/ngx-rxcache.service.ts:15-35 | the value is seeded; with `load` and a pre-merge producer a load starts from the pre-merge fields and the merged copy is discarded; otherwise the merged copy holding the seeded subjects replaces the record, and a new producer drops the old subscription |
| NgxRxcache.NgxRxcacheService.Merged | projects/ngx-rxcache/src/lib/ngx-rxcache.service.ts:17-34 | the seeding and the same two cases for the record `find` returned |
| NgxRxcache.NgxRxcacheService.MergedLoading | projects/ngx-rxcache/src/lib/ngx-rxcache.service.ts:28-34 | with `load` and a pre-merge producer, the refresh's load is what the list ends with |
| NgxRxcache.NgxRxcacheService.MergedQuiet | projects/ngx-rxcache/src/lib/ngx-rxcache.service.ts:28-34 | otherwise the merged copy is installed with unchanged subjects, and the old subscription stays live only without a new producer |
| NgxRxcache.NgxRxcacheService.MapAbsent | projects/ngx-rxcache/src/lib/ngx-rxcache.service.ts:34 | the map by identity of a record that has left the list leaves the list as it is |
| NgxRxcache.NgxRxcacheService.Commit | projects/ngx-rxcache/src/lib/ngx-rxcache.service.ts:34 | the merged copy takes exactly the record's position |
| NgxRxcache.NgxRxcacheService.Seed | projects/ngx-rxcache/src/lib/ngx-rxcache.service.ts:17-20 | a defined initial value is stored and marks the item loaded only when the value is still undefined |
| NgxRxcache.NgxRxcacheService.AddMergedFirst | projects/ngx-rxcache/src/lib/ngx-rxcache.service.ts:15-35 | `add` with the refresh done after the map of line 34: with `load` and a producer in the merged fields, a load starts from the merged fields; otherwise it ends as `add` does without a load |
| NgxRxcache.NgxRxcacheService.MergedFirst | projects/ngx-rxcache/src/lib/ngx-rxcache.service.ts:17-34 | the same for the record `find` returned: the merged copy is installed and then refreshed |
| NgxRxcache.NgxRxcacheService.Refresh | projects/ngx-rxcache/src/lib/ngx-rxcache.service.ts:86-88 | `refreshCacheItem` on the found or created record, stated against the state before `find` |
| NgxRxcache.NgxRxcacheService.GetSubject | projects/ngx-rxcache/src/lib/ngx-rxcache.service.ts:61-67 | refreshes only an item that is neither loaded nor loading, otherwise changes nothing, and returns the record's value subject |
| NgxRxcache.NgxRxcacheService.Get | projects/ngx-rxcache/src/lib/ngx-rxcache.service.ts:69-75 | the same autoload, returning the current value |
| NgxRxcache.NgxRxcacheService.Update | projects/ngx-rxcache/src/lib/ngx-rxcache.service.ts:77-84 | the value is set, loaded without error and not loading; fields, subscription and live loads are untouched |
| NgxRxcache.NgxRxcacheService.Overwrite | projects/ngx-rxcache/src/lib/ngx-rxcache.service.ts:79-83 | `update`'s five writes: the value is set, loaded is true, loading, hasError and the error are cleared |
| NgxRxcache.NgxRxcacheService.Reload | projects/ngx-rxcache/src/lib/ngx-rxcache.service.ts:90-107 | always starts a load, and the record keeps the given producer |
| NgxRxcache.NgxRxcacheService.ReloadCacheItem | projects/ngx-rxcache/src/lib/ngx-rxcache.service.ts:92-106 | the same for the record `find` returned, with the copy installed by id |
| NgxRxcache.NgxRxcacheService.Clear | projects/ngx-rxcache/src/lib/ngx-rxcache.service.ts:112-116 | the subjects go back to those of a new item |
| NgxRxcache.NgxRxcacheService.Reset | projects/ngx-rxcache/src/lib/ngx-rxcache.service.ts:109-122 | a missing id changes nothing; an existing item returns to the new-item subjects and loses its subscription |
| NgxRxcache.NgxRxcacheService.Unsubscribe | projects/ngx-rxcache/src/lib/ngx-rxcache.service.ts:124-130 | a missing id changes nothing; an existing item loses its subscription and nothing else |
| NgxRxcache.NgxRxcacheService.Complete | projects/ngx-rxcache/src/lib/ngx-rxcache.service.ts:135-139 | all five subjects are completed and keep their values |
| NgxRxcache.NgxRxcacheService.Delete | projects/ngx-rxcache/src/lib/ngx-rxcache.service.ts:132-145 | a missing id changes nothing; an existing record is completed, its load cancelled and it is removed, with the others in order, after which the id does not exist |
| NgxRxcache.NgxRxcacheService.Remove | projects/ngx-rxcache/src/lib/ngx-rxcache.service.ts:135-143 | the record at `k` is completed, loses its live load and leaves the list, which keeps the invariant |
| NgxRxcache.NgxRxcacheService.Loading | projects/ngx-rxcache/src/lib/ngx-rxcache.service.ts:178-180 | the item's loading flag, creating the item if missing |
| NgxRxcache.NgxRxcacheService.LoadingSubject | projects/ngx-rxcache/src/lib/ngx-rxcache.service.ts:182-184 | the item's loading subject, creating the item if missing |
| NgxRxcache.NgxRxcacheService.Loaded | projects/ngx-rxcache/src/lib/ngx-rxcache.service.ts:186-188 | the item's loaded flag, creating the item if missing |
| NgxRxcache.NgxRxcacheService.LoadedSubject | projects/ngx-rxcache/src/lib/ngx-rxcache.service.ts:190-192 | the item's loaded subject, creating the item if missing |
| NgxRxcache.NgxRxcacheService.Error | projects/ngx-rxcache/src/lib/ngx-rxcache.service.ts:194-196 | the item's error, creating the item if missing |
| NgxRxcache.NgxRxcacheService.ErrorSubject | projects/ngx-rxcache/src/lib/ngx-rxcache.service.ts:198-200 | the item's error subject, creating the item if missing |
| NgxRxcache.AddNewWithLoad | projects/ngx-rxcache/src/lib/ngx-rxcache.service.ts:31-34 | `add({ id, construct, load: true })` on a new id leaves the item not loading |
| NgxRxcache.AddNewWithLoadMergedFirst | projects/ngx-rxcache/src/lib/ngx-rxcache.service.ts:15-35 | with the refresh after the merge, the same call leaves the item loading |
| NgxRxcache.AddAgainWithLoad | projects/ngx-rxcache/src/lib/ngx-rxcache.service.ts:28-34 | a second `add` with a new producer and `load` runs, and keeps, the first producer |
| NgxRxcache.AddAgainWithLoadMergedFirst | projects/ngx-rxcache/src/lib/ngx-rxcache.service.ts:15-35 | with the refresh after the merge, the record keeps the second producer |
| RxCache.Storage.RemoveItem | projects/ngx-rxcache/src/lib/rxcache.service.ts:38 | `removeItem` drops that key and no other |
| RxCache.Cleared | projects/ngx-rxcache/src/lib/rxcache.service.ts:37-39 | the entry for `id` goes exactly when it holds a non-empty string; every other key keeps its value |
| RxCache.RxCacheItem.constructor | projects/ngx-rxcache/src/lib/rxcache.service.ts:14 | `new RxCacheItem(config)` has the configuration's id, was given exactly that configuration and is not finished |
| RxCache.RxCacheItem.Configure | projects/ngx-rxcache/src/lib/rxcache.service.ts:17 | `configure(config)` records the configuration after the earlier ones and does not finish the item |
| RxCache.RxCacheItem.Finish | projects/ngx-rxcache/src/lib/rxcache.service.ts:41 | `finish()` counts one more finish and keeps the configurations |
| RxCache.RxCacheService.constructor | projects/ngx-rxcache/src/lib/rxcache.service.ts:9 | the registry starts with no items, so its ids are unique |
| RxCache.RxCacheService.Exists | projects/ngx-rxcache/src/lib/rxcache.service.ts:31-33 | true exactly when some item has the id |
| RxCache.RxCacheService.Lookup | projects/ngx-rxcache/src/lib/rxcache.service.ts:12 | `find` by id gives the item for the id exactly when it exists |
| RxCache.RxCacheService.AppendFresh | projects/ngx-rxcache/src/lib/rxcache.service.ts:15 | appending an item with a new id keeps the ids unique |
| RxCache.RxCacheService.Config | projects/ngx-rxcache/src/lib/rxcache.service.ts:11-20 | an existing item is configured again and returned with the list unchanged; a missing id gets a new item built from the configuration, appended; ids stay unique |
| RxCache.RxCacheService.Get | projects/ngx-rxcache/src/lib/rxcache.service.ts:22-29 | the existing item, or a new one built from `{ id }` and appended; the list grows by at most one |
| RxCache.RxCacheService.Delete | projects/ngx-rxcache/src/lib/rxcache.service.ts:35-44 | the storage entry is cleared as `Cleared` says; an existing item is finished exactly once and removed with the others in order; a missing id leaves the list unchanged; the id does not exist afterwards |
| RxCache.RxCacheService.RemovePreservesUnique | projects/ngx-rxcache/src/lib/rxcache.service.ts:42 | dropping one item keeps the ids unique and leaves no item with its id |
| RxCache.RxCacheService.SetGenericError | projects/ngx-rxcache/src/lib/rxcache.service.ts:46-48 | the global message is set and the global handler kept |
| RxCache.RxCacheService.SetErrorHandler | projects/ngx-rxcache/src/lib/rxcache.service.ts:50-52 | the global handler is set and the global message kept |

## Findings

| source | as written | input that shows it | evidently intended | confidence | as-written member | corrected member |
|---|---|---|---|---|---|---|
| projects/ngx-rxcache/src/lib/ngx-rxcache.service.ts:31-34 | `add` refreshes `cacheItem`, the record as it was before the merge, and only then maps the merged copy into the list | `add({ id: 'x', construct: a, load: true })` on a new id: the new record has no producer, so nothing loads, against ngx-rxcache.service.spec.ts:89-97 | refresh the merged record, so the configured producer loads | not executed | NgxRxcache.AddNewWithLoad | NgxRxcache.AddNewWithLoadMergedFirst |
| projects/ngx-rxcache/src/lib/ngx-rxcache.service.ts:31-34 | when the record already has a producer, line 32 replaces it (line 163), so the map of line 34 matches nothing and the merged `construct`, `genericError` and `errorHandler` are dropped | `add({ id: 'x', construct: a })`, then `add({ id: 'x', construct: b, load: true })`: `a` runs and stays the producer | the second call loads `b` and keeps the merged fields | not executed | NgxRxcache.AddAgainWithLoad | NgxRxcache.AddAgainWithLoadMergedFirst |

`Add` is the as-written `add`; `AddMergedFirst` is the corrected one. Each pair of scenario methods runs one input through both.

## Left out

- Asynchrony: a load's result arrives through an explicit `Settle` call. A producer emits at most once, never emits after an error, and settles once: an error after an emission is not modelled, because `Settle` takes the subscription out of the live set after its first outcome. Emission order, `delay` timing and subscriber lists are not modelled.
- The producer (`construct`) is a name. What its observable does on each subscription is the `Emission` argument of the operation that subscribes.
- `BehaviorSubject`s hold only their current value and a completed flag. Notifying their observers is not modelled.
- Numbers are unbounded integers; floating point and `NaN` are not modelled.
- Objects are lists of their own enumerable properties. Prototypes, non-enumerable properties and cyclic values are not modelled.
- Clone.Clone: an own `__proto__` property of the input (clone.ts:7-8) is dropped from the copy, as the `Object.prototype.__proto__` setter of the fresh `{}` takes it. The prototype the copy gets from it is not modelled.
- Clone.Clone: the values are immutable Dafny values, so the model cannot state that arrays, objects and dates clone to a new instance.
- The body of `RxCacheItem` (its constructor, `configure` and `finish`) is not part of this model. Items record only the configurations they were given and how often they were finished.
- `localStorage` quota and I/O errors are not modelled.
- A `construct()` that throws while it is called is not modelled (ngx-rxcache.service.ts:156 and :99). The flags are already set and the old subscription cancelled by then, and the exception leaves the record without a new subscription. A producer here always returns an observable.
- A user `errorHandler` that throws is not modelled (ngx-rxcache.service.ts:175). The exception would leave the error callback halfway, before `loaded`, `loading` and `hasError` are written. A handler here is a total function.
- Angular's dependency injection, the `clone` pipe and the demo application are not modelled.
- `models/global-config.ts` is not modelled: nothing shown imports it.
- Test expectations that the code does not meet are not encoded:
  - ngx-rxcache.service.spec.ts:45-56 expects `get$` to give undefined for a deleted or missing id. `find` creates the item instead (Find).
  - ngx-rxcache.service.spec.ts:89-177 expects `add({ load: true, construct })` to load a fresh item. Line 32 refreshes the pre-merge record, which has no producer, so no load starts (Add; see Findings).
  - rxcache.service.spec.ts calls `get` with an object, and `save` and `persist`. These are operations rxcache.service.ts does not have.
