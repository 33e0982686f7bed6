/** NgxRxcacheService (ngx-rxcache.service.ts): a list of item records, each wrapping five
    BehaviorSubjects, with get-or-create lookup and cancellable loads. */
module NgxRxcache {
  import opened Values
  import opened Models
  import Registry

  /** The service's fallback error message (line 9). */
  const GenericError: string := "An error has occoured"

  /** A BehaviorSubject: its current value, and whether `complete()` was called on it. */
  class Subject<T> {
    var value: T
    var completed: bool

    constructor (initial: T)
      ensures value == initial && !completed
    {
      value := initial;
      completed := false;
    }
  }

  /** The current values of an item's five subjects. */
  datatype Status = Status(instance: Value, loading: bool, loaded: bool, hasError: bool, error: Value)

  /** The subjects of a freshly created item (lines 42-46). */
  const Initial: Status := Status(Undefined, false, false, false, Undefined)

  /** A record's own fields besides its id, its subjects and its subscription. */
  datatype Settings = Settings(genericError: string, construct: Option<Producer>, errorHandler: Option<Handler>)

  /** The fields of a freshly created item (lines 47-49). */
  const Defaults: Settings := Settings(GenericError, None, None)

  /** How a load settles: the observable emits an item or errors. */
  datatype Outcome = Success(item: Value) | Failure(error: Value)

  /** What a producer's observable does while it is being subscribed to: settle at once
      (as `of(10)` does) or later, through `Settle`. */
  datatype Emission = Pending | Immediately(outcome: Outcome)

  /** A load starts (lines 149-152 and 92-95). */
  function Started(st: Status): Status {
    st.(loaded := false, loading := true, hasError := false, error := Undefined)
  }

  /** The success callback (lines 157-160 and 100-103). */
  function Succeeded(st: Status, item: Value): Status {
    st.(instance := item, loaded := true, loading := false)
  }

  /** The private `errorHandler` (lines 167-172). */
  function Failed(st: Status, message: Value): Status {
    st.(error := message, loaded := false, loading := false, hasError := true)
  }

  /** `update` (lines 79-83). */
  function Updated(value: Value): Status {
    Status(value, false, true, false, Undefined)
  }

  /** `add` seeds an initial value (lines 17-20). */
  function Seeded(st: Status, initialValue: Value): Status {
    if !initialValue.Undefined? && st.instance.Undefined? then st.(instance := initialValue, loaded := true) else st
  }

  /** `generateErrorMessage` (lines 174-176): the handler's message, or the record's
      generic message when the handler declines; the result is truthy exactly when the
      handler's message is or the generic message is not empty. */
  function GenerateErrorMessage(id: string, s: Settings, error: Value): (m: Value)
    requires s.errorHandler.Some?
    ensures m == s.errorHandler.value(id, error) || m == StringValue(s.genericError)
    ensures Truthy(m) <==> Truthy(s.errorHandler.value(id, error)) || s.genericError != ""
    ensures Truthy(s.errorHandler.value(id, error)) ==> m == s.errorHandler.value(id, error)
    ensures !Truthy(s.errorHandler.value(id, error)) ==> m == StringValue(s.genericError)
  {
    Or(s.errorHandler.value(id, error), StringValue(s.genericError))
  }

  /** The message a failed load publishes (line 168). It is never falsy while the
      record's generic message is not empty. */
  function ErrorMessage(id: string, s: Settings, error: Value): (m: Value)
    ensures s.errorHandler.None? ==> m == StringValue(s.genericError)
    ensures s.errorHandler.Some? ==> m == GenerateErrorMessage(id, s, error)
    ensures s.genericError != "" ==> Truthy(m)
  {
    if s.errorHandler.Some? then GenerateErrorMessage(id, s, error) else StringValue(s.genericError)
  }

  /** The subjects after a load of record `id` with fields `s` settles. */
  function Settled(st: Status, id: string, s: Settings, outcome: Outcome): Status {
    match outcome
    case Success(item) => Succeeded(st, item)
    case Failure(error) => Failed(st, ErrorMessage(id, s, error))
  }

  /** The subjects right after a load is started and subscribed to. */
  function AfterStart(st: Status, id: string, s: Settings, emission: Emission): Status {
    match emission
    case Pending => Started(st)
    case Immediately(outcome) => Settled(Started(st), id, s, outcome)
  }

  /** How a load ends depends on a record's generic message and error handler, not on its
      producer. */
  lemma AfterStartIgnoresConstruct(st: Status, id: string, s: Settings, emission: Emission, c: Option<Producer>)
    ensures AfterStart(st, id, s.(construct := c), emission) == AfterStart(st, id, s, emission)
  {
  }

  /** A successful load (lines 157-160) publishes its item as a loaded value without error. */
  lemma SuccessPublishes(st: Status, id: string, s: Settings, item: Value)
    ensures Settled(Started(st), id, s, Success(item)) == Status(item, false, true, false, Undefined)
  {
  }

  /** A failed load (lines 161 and 167-172) keeps the previous value and reports the
      error message, which is truthy whenever the record's generic message is not empty. */
  lemma FailureReports(st: Status, id: string, s: Settings, error: Value)
    ensures Settled(Started(st), id, s, Failure(error)) == Status(st.instance, false, false, true, ErrorMessage(id, s, error))
    ensures s.genericError != "" ==> Truthy(Settled(Started(st), id, s, Failure(error)).error)
  {
  }

  /** A producer that settles during `subscribe` leaves the subjects as a pending load
      followed by the same settle would. */
  lemma ImmediateIsPendingThenSettled(st: Status, id: string, s: Settings, outcome: Outcome)
    ensures AfterStart(st, id, s, Immediately(outcome)) == Settled(AfterStart(st, id, s, Pending), id, s, outcome)
  {
  }

  /** The merge of `add` (lines 21-27): each field of the configuration replaces the
      record's only when it is truthy. */
  function Merge(s: Settings, c: Config): Settings {
    Settings(
      OrString(c.genericError, s.genericError),
      if c.construct.Some? then c.construct else s.construct,
      if c.errorHandler.Some? then c.errorHandler else s.errorHandler)
  }

  /** An item record (models/rxcache-item.ts:3-14). Its fields never change: the service
      replaces a record by a spread copy `{ ...item, ... }` that shares its subjects. */
  class CacheItem {
    const id: string
    const instance: Subject<Value>
    const loaded: Subject<bool>
    const loading: Subject<bool>
    const hasError: Subject<bool>
    const error: Subject<Value>
    const genericError: string
    const construct: Option<Producer>
    const errorHandler: Option<Handler>
    const subscription: Subscription?

    /** The record `find` creates for a missing id (lines 40-51). */
    constructor Create(id: string)
      ensures this.id == id && Distinct() && fresh(Subjects())
      ensures Current() == Initial && Setup() == Defaults && subscription == null
    {
      this.id := id;
      instance := new Subject(Undefined);
      loaded := new Subject(false);
      loading := new Subject(false);
      hasError := new Subject(false);
      error := new Subject(Undefined);
      genericError := GenericError;
      construct := None;
      errorHandler := None;
      subscription := null;
    }

    /** `{ ...from, genericError, construct, errorHandler, subscription }`. */
    constructor Spread(from: CacheItem, s: Settings, subscription: Subscription?)
      ensures SharesSubjects(from) && Setup() == s && this.subscription == subscription
    {
      id := from.id;
      instance := from.instance;
      loaded := from.loaded;
      loading := from.loading;
      hasError := from.hasError;
      error := from.error;
      genericError := s.genericError;
      construct := s.construct;
      errorHandler := s.errorHandler;
      this.subscription := subscription;
    }

    ghost function Subjects(): set<object> {
      {instance, loaded, loading, hasError, error}
    }

    /** The five subjects are five different objects. */
    ghost predicate Distinct() {
      loaded != loading && loaded != hasError && loading != hasError && instance != error
    }

    /** Same id and the very same subjects: `other` is this record or a spread copy of it. */
    ghost predicate SharesSubjects(other: CacheItem) {
      id == other.id && instance == other.instance && loaded == other.loaded &&
      loading == other.loading && hasError == other.hasError && error == other.error
    }

    /** `complete()` was called on all five subjects. */
    ghost predicate Completed()
      reads Subjects()
    {
      instance.completed && loaded.completed && loading.completed && hasError.completed && error.completed
    }

    function Setup(): Settings {
      Settings(genericError, construct, errorHandler)
    }

    function Current(): Status
      reads Subjects()
    {
      Status(instance.value, loading.value, loaded.value, hasError.value, error.value)
    }
  }

  /** The Subscription of one load: a token whose callbacks write to the subjects of
      `target`, the record the load was started for. The service tracks which tokens are
      still open; once a token is unsubscribed or its load has settled its callbacks never
      run again. */
  class Subscription {
    const target: CacheItem

    constructor (target: CacheItem)
      ensures this.target == target
    {
      this.target := target;
    }
  }

  function Ids(s: seq<CacheItem>): (r: seq<string>)
    ensures |r| == |s| && forall i :: 0 <= i < |s| ==> r[i] == s[i].id
  {
    seq(|s|, i requires 0 <= i < |s| => s[i].id)
  }

  /** `s.map(item => item.id === id ? b : item)` (line 106). */
  function ReplaceId(s: seq<CacheItem>, id: string, b: CacheItem): (r: seq<CacheItem>)
    ensures |r| == |s| && forall i :: 0 <= i < |s| ==> r[i] == if s[i].id == id then b else s[i]
  {
    seq(|s|, i requires 0 <= i < |s| => if s[i].id == id then b else s[i])
  }

  /** With unique ids, the map by id of line 106 is the update of the one position that
      holds the id. */
  lemma ReplaceIdAt(s: seq<CacheItem>, id: string, b: CacheItem, k: nat)
    requires Registry.Unique(Ids(s)) && k < |s| && s[k].id == id
    ensures ReplaceId(s, id, b) == s[k := b]
  {
    forall i | 0 <= i < |s| && i != k ensures s[i].id != id {
      assert Ids(s)[i] != Ids(s)[k];
    }
  }

  /** The registry invariant over a list of records, the subscriptions issued so far and
      the ones still live: ids are unique, every record's subjects are its own, no two
      records hold the same subscription, and every live subscription is the subscription
      of the record for its id and writes to that record's subjects. So an item has at most
      one live load, the newest one. */
  ghost predicate Coherent(items: seq<CacheItem>, issued: set<Subscription>, live: set<Subscription>) {
    (forall i, j :: 0 <= i < j < |items| ==> items[i].id != items[j].id) &&
    (forall i :: 0 <= i < |items| ==> items[i].Distinct()) &&
    (forall i, j :: 0 <= i < j < |items| ==> items[i].Subjects() !! items[j].Subjects()) &&
    (forall i :: 0 <= i < |items| && items[i].subscription != null ==> items[i].subscription in issued) &&
    (forall i, j :: 0 <= i < j < |items| && items[i].subscription != null ==>
      items[i].subscription != items[j].subscription) &&
    (forall s :: s in live ==>
      exists i :: 0 <= i < |items| && items[i].subscription == s && s.target.SharesSubjects(items[i]))
  }

  lemma CoherentAppend(items: seq<CacheItem>, issued: set<Subscription>, live: set<Subscription>, r: CacheItem)
    requires Coherent(items, issued, live)
    requires r.id !in Ids(items) && r.Distinct() && r.subscription == null
    requires forall i :: 0 <= i < |items| ==> items[i].Subjects() !! r.Subjects()
    ensures Coherent(items + [r], issued, live)
  {
    var items' := items + [r];
    forall s | s in live
      ensures exists i :: 0 <= i < |items'| && items'[i].subscription == s && s.target.SharesSubjects(items'[i])
    {
      var i :| 0 <= i < |items| && items[i].subscription == s && s.target.SharesSubjects(items[i]);
      assert items'[i] == items[i];
    }
    assert forall i :: 0 <= i < |items| ==> items'[i] == items[i];
  }

  /** Replacing record `k` by a copy that shares its subjects keeps the invariant, as long
      as every subscription live afterwards is either the copy's or was live before and
      not the replaced record's. */
  lemma CoherentReplace(items: seq<CacheItem>, issued: set<Subscription>, live: set<Subscription>,
                        k: nat, c: CacheItem, issued': set<Subscription>, live': set<Subscription>)
    requires Coherent(items, issued, live) && k < |items| && issued <= issued'
    requires c.SharesSubjects(items[k]) && (c.subscription == null || c.subscription in issued')
    requires c.subscription == null || c.subscription == items[k].subscription || c.subscription !in issued
    requires forall s :: s in live' ==>
      (s in live && s != items[k].subscription) || (s == c.subscription && s.target.SharesSubjects(c))
    ensures Coherent(items[k := c], issued', live')
  {
    var items' := items[k := c];
    assert items'[k].Subjects() == items[k].Subjects();
    forall s | s in live'
      ensures exists i :: 0 <= i < |items'| && items'[i].subscription == s && s.target.SharesSubjects(items'[i])
    {
      if s in live && s != items[k].subscription {
        var i :| 0 <= i < |items| && items[i].subscription == s && s.target.SharesSubjects(items[i]);
        assert i != k && items'[i] == items[i];
      } else {
        assert items'[k].subscription == s;
      }
    }
  }

  /** Fewer live subscriptions keep the invariant. */
  lemma CoherentShrink(items: seq<CacheItem>, issued: set<Subscription>, live: set<Subscription>,
                       live': set<Subscription>)
    requires Coherent(items, issued, live) && live' <= live
    ensures Coherent(items, issued, live')
  {
  }

  /** A live subscription held by record `k` writes to that record's subjects. */
  lemma OwnLoad(items: seq<CacheItem>, issued: set<Subscription>, live: set<Subscription>, k: nat)
    requires Coherent(items, issued, live) && k < |items|
    requires items[k].subscription != null && items[k].subscription in live
    ensures items[k].subscription.target.SharesSubjects(items[k])
  {
    var s := items[k].subscription;
    var i :| 0 <= i < |items| && items[i].subscription == s && s.target.SharesSubjects(items[i]);
    assert i == k;
  }

  /** Dropping record `k` keeps the invariant when its subscription is not live afterwards. */
  lemma CoherentRemove(items: seq<CacheItem>, issued: set<Subscription>, live: set<Subscription>,
                       k: nat, live': set<Subscription>)
    requires Coherent(items, issued, live) && k < |items|
    requires live' <= live && items[k].subscription !in live'
    ensures Coherent(items[..k] + items[k + 1..], issued, live')
  {
    var items' := items[..k] + items[k + 1..];
    assert forall i :: 0 <= i < |items'| ==> items'[i] == if i < k then items[i] else items[i + 1];
    forall s | s in live'
      ensures exists i :: 0 <= i < |items'| && items'[i].subscription == s && s.target.SharesSubjects(items'[i])
    {
      var i :| 0 <= i < |items| && items[i].subscription == s && s.target.SharesSubjects(items[i]);
      if i < k {
        assert items'[i] == items[i];
      } else {
        assert i != k;
        assert items'[i - 1] == items[i];
      }
    }
  }

  /** The list `after` a call that may have appended `id` and may have replaced the record
      for `id` by a spread copy: every other record of `before` is where and what it was. */
  ghost predicate SameList(after: seq<CacheItem>, before: seq<CacheItem>, id: string) {
    |after| == |before| + (if id in Ids(before) then 0 else 1) &&
    (forall i :: 0 <= i < |before| ==> after[i].SharesSubjects(before[i])) &&
    (forall i :: 0 <= i < |before| && before[i].id != id ==> after[i] == before[i]) &&
    (id !in Ids(before) ==> after[|before|].id == id)
  }

  /** Two such calls in a row are one such call. */
  lemma SameListTrans(a: seq<CacheItem>, b: seq<CacheItem>, c: seq<CacheItem>, id: string)
    requires SameList(b, a, id) && SameList(c, b, id)
    ensures SameList(c, a, id)
  {
    if id in Ids(a) {
      var k :| 0 <= k < |a| && Ids(a)[k] == id;
      assert Ids(b)[k] == id;
    } else {
      assert Ids(b)[|a|] == id;
    }
  }

  /** `s` without the subscription `x`, if there is one. */
  function Without(s: set<Subscription>, x: Subscription?): set<Subscription> {
    if x == null then s else s - {x}
  }

  /** The service's state at one point of a call. */
  datatype Snapshot = Snapshot(items: seq<CacheItem>, issued: set<Subscription>, live: set<Subscription>)

  class NgxRxcacheService {
    var cacheItems: seq<CacheItem>
    /** Every subscription a load of this service has created. */
    ghost var issued: set<Subscription>
    /** The subscriptions not yet unsubscribed whose load has not yet settled. */
    var live: set<Subscription>

    ghost predicate Valid()
      reads this
    {
      Coherent(cacheItems, issued, live)
    }

    constructor ()
      ensures Valid() && cacheItems == [] && issued == {} && live == {}
    {
      cacheItems := [];
      issued := {};
      live := {};
    }

    function Index(id: string): Option<nat>
      reads this`cacheItems
    {
      Registry.FindIndex(Ids(cacheItems), id)
    }

    /** `exists` (lines 57-59). */
    function Exists(id: string): (b: bool)
      reads this`cacheItems
      ensures b <==> exists i :: 0 <= i < |cacheItems| && cacheItems[i].id == id
    {
      assert forall i :: 0 <= i < |cacheItems| ==> Ids(cacheItems)[i] == cacheItems[i].id;
      Index(id).Some?
    }

    /** The record for `id`. */
    ghost function Record(id: string): CacheItem
      reads this`cacheItems
      requires Exists(id)
    {
      cacheItems[Index(id).value]
    }

    /** The fields of the record `find(id)` would return. */
    ghost function SettingsFor(id: string): Settings
      reads this`cacheItems
    {
      if Exists(id) then Record(id).Setup() else Defaults
    }

    ghost function SubjectsOf(id: string): set<object>
      reads this`cacheItems
    {
      if Exists(id) then Record(id).Subjects() else {}
    }

    /** The subjects of the record `find(id)` would return. */
    ghost function StatusFor(id: string): Status
      reads this`cacheItems, SubjectsOf(id)
    {
      if Exists(id) then Record(id).Current() else Initial
    }

    ghost function SubscriptionFor(id: string): Subscription?
      reads this`cacheItems
    {
      if Exists(id) then Record(id).subscription else null
    }

    lemma RecordAt(k: nat)
      requires Valid() && k < |cacheItems|
      ensures Exists(cacheItems[k].id) && Index(cacheItems[k].id) == Some(k)
      ensures Record(cacheItems[k].id) == cacheItems[k]
    {
      RecordOf(cacheItems[k].id, k);
    }

    /** With unique ids, the record at `k` is the record for its id. */
    lemma RecordOf(id: string, k: nat)
      requires Valid() && k < |cacheItems| && cacheItems[k].id == id
      ensures Exists(id) && Index(id) == Some(k) && Record(id) == cacheItems[k]
    {
      Registry.FindIndexUnique(Ids(cacheItems), id, k);
    }

    /** The list now, compared with `before`, as `SameList` says. */
    ghost predicate SameListBut(before: seq<CacheItem>, id: string)
      reads this`cacheItems
    {
      SameList(cacheItems, before, id)
    }

    /** The registry's list, its issued subscriptions and its live ones. */
    ghost function Snap(): Snapshot
      reads this
    {
      Snapshot(cacheItems, issued, live)
    }

    /** Compared with snapshot `b`, the record for `id` exists, has fields `s`, subjects `st`
        and subscription `sub`, and no subscription was created. */
    ghost predicate Holds(b: Snapshot, id: string, s: Settings, st: Status, sub: Subscription?)
      reads this, SubjectsOf(id)
    {
      SameListBut(b.items, id) && Exists(id) &&
      Record(id).Setup() == s && Record(id).Current() == st && Record(id).subscription == sub &&
      issued == b.issued
    }

    /** Compared with snapshot `b`, a load of `id` with fields `s` was started from subjects
        `st`: the previous subscription `prior` is no longer live and a new one is the record's,
        live while the producer has not settled. */
    ghost predicate LoadStarted(b: Snapshot, id: string, s: Settings, st: Status,
                                prior: Subscription?, emission: Emission)
      reads this, SubjectsOf(id)
    {
      SameListBut(b.items, id) && Exists(id) &&
      Record(id).Setup() == s && Record(id).Current() == AfterStart(st, id, s, emission) &&
      Record(id).subscription != null && Record(id).subscription !in b.issued &&
      Record(id).subscription.target.SharesSubjects(Record(id)) &&
      Record(id).subscription.target.genericError == s.genericError &&
      Record(id).subscription.target.errorHandler == s.errorHandler &&
      issued == b.issued + {Record(id).subscription} &&
      live == Without(b.live, prior) + (if emission.Pending? then {Record(id).subscription} else {})
    }

    /** A load started after the `prior` subscription was already dropped is one started
        from the earlier snapshot too. */
    lemma LoadStartedFrom(b0: Snapshot, b1: Snapshot, id: string, s: Settings, st: Status,
                          prior: Subscription?, emission: Emission)
      requires LoadStarted(b1, id, s, st, prior, emission)
      requires b1.items == b0.items && b1.issued == b0.issued && Without(b1.live, prior) == Without(b0.live, prior)
      ensures LoadStarted(b0, id, s, st, prior, emission)
    {
    }

    /** Snapshot `b1` is `b0` after a `find` of `id`: the record was there already, or one
        for `id` was appended. */
    ghost predicate Found(b0: Snapshot, b1: Snapshot, id: string) {
      b1.issued == b0.issued && b1.live == b0.live &&
      (id in Ids(b0.items) ==> b1.items == b0.items) &&
      (id !in Ids(b0.items) ==>
        |b1.items| == |b0.items| + 1 && b1.items[..|b0.items|] == b0.items && b1.items[|b0.items|].id == id)
    }

    /** A change to the list after a `find` is, compared with the list before it, a change
        that may have appended `id`. */
    lemma SameListAfterFind(b0: Snapshot, b1: Snapshot, id: string)
      requires Found(b0, b1, id) && SameListBut(b1.items, id)
      ensures SameListBut(b0.items, id)
    {
      if id !in Ids(b0.items) {
        assert Ids(b1.items)[|b0.items|] == id;
        forall i | 0 <= i < |b0.items| ensures b1.items[i] == b0.items[i] {
          assert b1.items[..|b0.items|][i] == b0.items[i];
        }
      }
    }

    lemma HoldsAfterFind(b0: Snapshot, b1: Snapshot, id: string, s: Settings, st: Status, sub: Subscription?)
      requires Found(b0, b1, id) && Holds(b1, id, s, st, sub)
      ensures Holds(b0, id, s, st, sub)
    {
      SameListAfterFind(b0, b1, id);
    }

    lemma LoadStartedAfterFind(b0: Snapshot, b1: Snapshot, id: string, s: Settings, st: Status,
                               prior: Subscription?, emission: Emission)
      requires Found(b0, b1, id) && LoadStarted(b1, id, s, st, prior, emission)
      ensures LoadStarted(b0, id, s, st, prior, emission)
    {
      SameListAfterFind(b0, b1, id);
    }

    lemma RefreshedAfterFind(b0: Snapshot, b1: Snapshot, id: string, s: Settings, st: Status,
                             prior: Subscription?, emission: Emission)
      requires Found(b0, b1, id) && Refreshed(b1, id, s, st, prior, emission)
      ensures Refreshed(b0, id, s, st, prior, emission)
    {
      if s.construct.Some? {
        LoadStartedAfterFind(b0, b1, id, s, st, prior, emission);
      } else {
        HoldsAfterFind(b0, b1, id, s, st, prior);
      }
    }

    /** Once a load has started, the subscription it replaced is no longer live, so that
        earlier load can never settle into the subjects. */
    lemma PriorNotLive(b: Snapshot, id: string, s: Settings, st: Status, prior: Subscription?, emission: Emission)
      requires LoadStarted(b, id, s, st, prior, emission) && prior != null && prior in b.issued
      ensures prior !in live && Record(id).subscription != prior
    {
    }

    /** `find` (lines 37-55): get-or-create. An existing record is returned and nothing
        changes; for a missing id one default record is appended. */
    method Find(id: string) returns (item: CacheItem)
      requires Valid()
      modifies this
      ensures Valid() && issued == old(issued) && live == old(live) && Found(old(Snap()), Snap(), id)
      ensures Exists(id) && Record(id) == item && item.id == id && SameListBut(old(cacheItems), id)
      ensures item.Setup() == old(SettingsFor(id)) && item.Current() == old(StatusFor(id))
      ensures item.subscription == old(SubscriptionFor(id)) && item.Distinct() && item in cacheItems
      ensures old(Exists(id)) ==> cacheItems == old(cacheItems) && item == old(Record(id))
      ensures !old(Exists(id)) ==>
        cacheItems == old(cacheItems) + [item] && fresh(item) && fresh(item.Subjects()) &&
        item.Current() == Initial && item.Setup() == Defaults && item.subscription == null
    {
      var k := Index(id);
      if k.Some? {
        item := cacheItems[k.value];
        assert id in Ids(cacheItems);
        assert item.Current() == StatusFor(id);
      } else {
        ghost var items0 := cacheItems;
        assert id !in Ids(items0) && StatusFor(id) == Initial;
        item := new CacheItem.Create(id);
        CoherentAppend(cacheItems, issued, live, item);
        cacheItems := cacheItems + [item];
        assert cacheItems[..|items0|] == items0;
        RecordAt(|cacheItems| - 1);
      }
    }

    /** The success callback of a load (lines 157-160 and 100-103). */
    method Deliver(target: CacheItem, item: Value)
      requires target.Distinct()
      modifies target.Subjects()
      ensures target.Current() == Succeeded(old(target.Current()), item)
    {
      target.instance.value := item;
      target.loaded.value := true;
      target.loading.value := false;
    }

    /** The private `errorHandler` (lines 167-172), run by a failed load. */
    method ErrorHandler(target: CacheItem, error: Value)
      requires target.Distinct()
      modifies target.Subjects()
      ensures target.Current() == Failed(old(target.Current()), ErrorMessage(target.id, target.Setup(), error))
    {
      target.error.value := if target.errorHandler.Some? then GenerateErrorMessage(target.id, target.Setup(), error)
                            else StringValue(target.genericError);
      target.loaded.value := false;
      target.loading.value := false;
      target.hasError.value := true;
    }

    method Run(target: CacheItem, outcome: Outcome)
      requires target.Distinct()
      modifies target.Subjects()
      ensures target.Current() == Settled(old(target.Current()), target.id, target.Setup(), outcome)
    {
      match outcome
      case Success(item) => Deliver(target, item);
      case Failure(error) => ErrorHandler(target, error);
    }

    /** A load settles later: the observable subscribed to by `s` emits or errors. Only a
        live subscription runs its callback, and a live one always belongs to the current
        record for its id, so only the newest load of an item can reach its subjects. */
    method Settle(s: Subscription, outcome: Outcome)
      requires Valid() && s in issued
      modifies this`live, s.target.Subjects()
      ensures Valid() && live == old(live) - {s}
      ensures s !in old(live) ==> unchanged(s.target.Subjects())
      ensures s in old(live) ==> Exists(s.target.id) && Record(s.target.id).subscription == s
      ensures s in old(live) ==>
        Record(s.target.id).Current() ==
          Settled(old(Record(s.target.id).Current()), s.target.id, s.target.Setup(), outcome)
    {
      if s in live {
        ghost var i :| 0 <= i < |cacheItems| && cacheItems[i].subscription == s && s.target.SharesSubjects(cacheItems[i]);
        RecordOf(s.target.id, i);
        ghost var live0 := live;
        Run(s.target, outcome);
        live := live - {s};
        CoherentShrink(cacheItems, issued, live0, live);
        RecordOf(s.target.id, i);
      }
    }

    /** `subscription.unsubscribe()` on a record's subscription, if it has one. */
    method Cancel(sub: Subscription?)
      modifies this`live
      ensures live == Without(old(live), sub)
    {
      if sub != null {
        live := live - {sub};
      }
    }

    /** `construct().subscribe(...)` for a load started on `item`: a new subscription whose
        callbacks write to `item`'s subjects; a producer that settles at once runs them
        before `subscribe` returns, and its subscription is then over. */
    method Subscribe(item: CacheItem, emission: Emission) returns (subscription: Subscription)
      requires item.Distinct()
      modifies this`issued, this`live, item.Subjects()
      ensures fresh(subscription) && subscription.target == item
      ensures issued == old(issued) + {subscription}
      ensures live == old(live) + (if emission.Pending? then {subscription} else {})
      ensures emission.Immediately? ==>
        item.Current() == Settled(old(item.Current()), item.id, item.Setup(), emission.outcome)
      ensures emission.Pending? ==> unchanged(item.Subjects())
    {
      subscription := new Subscription(item);
      issued := issued + {subscription};
      if emission.Immediately? {
        Run(item, emission.outcome);
      } else {
        live := live + {subscription};
      }
    }

    /** The four `next` calls that start a load (lines 149-152 and 92-95). */
    method Start(item: CacheItem)
      requires item.Distinct()
      modifies item.Subjects()
      ensures item.Current() == Started(old(item.Current()))
    {
      item.loaded.value := false;
      item.loading.value := true;
      item.hasError.value := false;
      item.error.value := Undefined;
    }

    /** `refreshCacheItem` (lines 147-165). Without a `construct` nothing happens; otherwise
        the item starts loading, the previous subscription is cancelled and the record is
        replaced by a copy holding the new one. */
    method RefreshCacheItem(item: CacheItem, emission: Emission)
      requires Valid() && item in cacheItems
      modifies this, item.Subjects()
      ensures Valid()
      ensures item.construct.None? ==>
        cacheItems == old(cacheItems) && issued == old(issued) && live == old(live) &&
        unchanged(item.Subjects())
      ensures item.construct.Some? ==> item !in cacheItems
      ensures Exists(item.id) && Record(item.id).SharesSubjects(item)
      ensures Record(item.id) == item || fresh(Record(item.id))
      ensures Refreshed(old(Snap()), item.id, item.Setup(), old(item.Current()), item.subscription, emission)
    {
      if item.construct.None? {
        ghost var k :| 0 <= k < |cacheItems| && cacheItems[k] == item;
        RecordOf(item.id, k);
      } else {
        ghost var k :| 0 <= k < |cacheItems| && cacheItems[k] == item;
        var copy := Relaunch(item, item.Setup(), emission, k, false);
      }
    }

    /** A load of record `k`, `item`, restarts and a spread copy with fields `s` holding
        the new subscription takes its place: lines 149-163 with the map by identity, and
        lines 92-106 with the map by id. Only the producer may differ between `s` and the
        record's own fields. */
    method Relaunch(item: CacheItem, s: Settings, emission: Emission, ghost k: nat, byId: bool)
      returns (copy: CacheItem)
      requires Valid() && k < |cacheItems| && cacheItems[k] == item
      requires s.genericError == item.genericError && s.errorHandler == item.errorHandler
      modifies this, item.Subjects()
      ensures Valid() && item !in cacheItems && fresh(copy) && copy.Setup() == s
      ensures Exists(item.id) && Record(item.id) == copy && copy.SharesSubjects(item)
      ensures LoadStarted(old(Snap()), item.id, s, old(item.Current()), item.subscription, emission)
    {
      ghost var b := Snap();
      var subscription := Restart(item, emission);
      ghost var st := item.Current();
      assert cacheItems == b.items;
      copy := new CacheItem.Spread(item, s, subscription);
      Install(item, copy, k, b.issued, b.live, byId);
      assert copy.Current() == st && item.Current() == st;
      assert live == Without(b.live, item.subscription) + (if emission.Pending? then {subscription} else {});
      assert Record(item.id) == copy && copy.subscription == subscription;
      AfterStartIgnoresConstruct(old(item.Current()), item.id, item.Setup(), emission, s.construct);
    }

    /** Lines 149-162: the subjects start loading, the record's previous subscription is
        cancelled and a new one is taken out. */
    method Restart(item: CacheItem, emission: Emission) returns (subscription: Subscription)
      requires item.Distinct() && (item.subscription == null || item.subscription in issued)
      modifies item.Subjects(), this`issued, this`live
      ensures fresh(subscription) && subscription.target == item
      ensures issued == old(issued) + {subscription}
      ensures live ==
        Without(old(live), item.subscription) + (if emission.Pending? then {subscription} else {})
      ensures item.Current() == AfterStart(old(item.Current()), item.id, item.Setup(), emission)
    {
      ghost var live0 := live;
      Start(item);
      Cancel(item.subscription);
      assert live == Without(live0, item.subscription);
      subscription := Subscribe(item, emission);
    }

    /** Replacing record `k`, `item`, by `copy` keeps the registry invariant, given the
        invariant that held before the subscription changes. */
    lemma ReplaceAt(item: CacheItem, copy: CacheItem, k: nat, issued0: set<Subscription>, live0: set<Subscription>)
      requires k < |cacheItems| && cacheItems[k] == item
      requires Coherent(cacheItems, issued0, live0) && issued0 <= issued
      requires copy.SharesSubjects(item) && (copy.subscription == null || copy.subscription in issued)
      requires copy.subscription == null || copy.subscription == item.subscription || copy.subscription !in issued0
      requires forall s :: s in live ==>
        (s in live0 && s != item.subscription) || (s == copy.subscription && s.target.SharesSubjects(copy))
      ensures Coherent(cacheItems[k := copy], issued, live)
      ensures Registry.Replace(cacheItems, item, copy) == cacheItems[k := copy]
      ensures ReplaceId(cacheItems, item.id, copy) == cacheItems[k := copy]
    {
      CoherentReplace(cacheItems, issued0, live0, k, copy, issued, live);
      forall i | 0 <= i < |cacheItems| && i != k ensures cacheItems[i] != item {
        assert cacheItems[i].id != cacheItems[k].id;
      }
      Registry.ReplaceOnce(cacheItems, item, copy, k);
      ReplaceIdAt(cacheItems, item.id, copy, k);
    }

    /** The `map` that puts `copy` in the place of record `k`, `item`: by identity at lines
        34, 119, 128 and 163, by id at line 106. */
    method Install(item: CacheItem, copy: CacheItem, ghost k: nat, ghost issued0: set<Subscription>,
                   ghost live0: set<Subscription>, byId: bool)
      requires k < |cacheItems| && cacheItems[k] == item
      requires Coherent(cacheItems, issued0, live0) && issued0 <= issued
      requires copy.SharesSubjects(item) && (copy.subscription == null || copy.subscription in issued)
      requires copy.subscription == null || copy.subscription == item.subscription || copy.subscription !in issued0
      requires forall s :: s in live ==>
        (s in live0 && s != item.subscription) || (s == copy.subscription && s.target.SharesSubjects(copy))
      modifies this`cacheItems
      ensures Valid() && cacheItems == old(cacheItems)[k := copy]
      ensures SameListBut(old(cacheItems), item.id)
      ensures Exists(item.id) && Record(item.id) == copy
      ensures copy != item ==> item !in cacheItems
    {
      ReplaceAt(item, copy, k, issued0, live0);
      if byId {
        cacheItems := ReplaceId(cacheItems, item.id, copy);
      } else {
        cacheItems := Registry.Replace(cacheItems, item, copy);
      }
      RecordAt(k);
      assert forall i :: 0 <= i < |cacheItems| && i != k ==> cacheItems[i].id != item.id;
    }

    /** What `refreshCacheItem` does, compared with snapshot `b`, to the record for `id`
        whose fields were `s`, subjects `st` and subscription `prior`: a load starts when it
        has a `construct`, and nothing changes otherwise. */
    ghost predicate Refreshed(b: Snapshot, id: string, s: Settings, st: Status,
                              prior: Subscription?, emission: Emission)
      reads this, SubjectsOf(id)
    {
      if s.construct.Some? then LoadStarted(b, id, s, st, prior, emission)
      else Holds(b, id, s, st, prior) && live == b.live
    }

    /** What `get` and `get$` do (lines 62-65): refresh only an item that is neither loaded
        nor loading. */
    ghost predicate Autoloaded(b: Snapshot, id: string, s: Settings, st: Status,
                               prior: Subscription?, emission: Emission)
      reads this, SubjectsOf(id)
    {
      if !st.loaded && !st.loading then Refreshed(b, id, s, st, prior, emission)
      else Holds(b, id, s, st, prior) && live == b.live
    }

    /** What `add` does, compared with snapshot `b`, to the record for `id` whose fields
        were `s`, seeded subjects `st` and subscription `prior`: with `load` and a producer
        in `s`, a load starts from `s`; otherwise the merged fields replace `s` and a
        configured producer drops the subscription. */
    ghost predicate Added(b: Snapshot, id: string, config: Config, s: Settings, st: Status,
                          prior: Subscription?, emission: Emission)
      reads this, SubjectsOf(id)
    {
      if config.load && s.construct.Some? then LoadStarted(b, id, s, st, prior, emission)
      else Kept(b, id, config, s, st, prior)
    }

    /** The merged fields replace `s` and no load starts. */
    ghost predicate Kept(b: Snapshot, id: string, config: Config, s: Settings, st: Status, prior: Subscription?)
      reads this, SubjectsOf(id)
    {
      Holds(b, id, Merge(s, config), st, if config.construct.Some? then null else prior) &&
      live == if config.construct.Some? then Without(b.live, prior) else b.live
    }

    /** What `add` with the refresh moved after the merge does: with `load` and a producer
        in the merged fields, a load starts from the merged fields. */
    ghost predicate AddedMergedFirst(b: Snapshot, id: string, config: Config, s: Settings, st: Status,
                                     prior: Subscription?, emission: Emission)
      reads this, SubjectsOf(id)
    {
      if config.load && Merge(s, config).construct.Some? then LoadStarted(b, id, Merge(s, config), st, prior, emission)
      else Kept(b, id, config, s, st, prior)
    }

    lemma AddedAfterFind(b0: Snapshot, b1: Snapshot, id: string, config: Config, s: Settings, st: Status,
                         prior: Subscription?, emission: Emission)
      requires Found(b0, b1, id) && Added(b1, id, config, s, st, prior, emission)
      ensures Added(b0, id, config, s, st, prior, emission)
    {
      if config.load && s.construct.Some? {
        LoadStartedAfterFind(b0, b1, id, s, st, prior, emission);
      } else {
        HoldsAfterFind(b0, b1, id, Merge(s, config), st, if config.construct.Some? then null else prior);
      }
    }

    lemma AddedMergedFirstAfterFind(b0: Snapshot, b1: Snapshot, id: string, config: Config, s: Settings,
                                    st: Status, prior: Subscription?, emission: Emission)
      requires Found(b0, b1, id) && AddedMergedFirst(b1, id, config, s, st, prior, emission)
      ensures AddedMergedFirst(b0, id, config, s, st, prior, emission)
    {
      if config.load && Merge(s, config).construct.Some? {
        LoadStartedAfterFind(b0, b1, id, Merge(s, config), st, prior, emission);
      } else {
        HoldsAfterFind(b0, b1, id, Merge(s, config), st, if config.construct.Some? then null else prior);
      }
    }

    /** `add` (lines 15-35). The initial value seeds an item that has none; each truthy
        field of the configuration overrides the record's and a new producer drops the
        record's subscription. With `load`, the record as it was before the merge is
        refreshed: when it already had a producer the load starts, the record is replaced
        by the copy holding the new subscription and the merged copy is never installed;
        otherwise the merged copy replaces the record and no load starts, even when the
        configuration brings a producer. */
    method Add(config: Config, emission: Emission)
      requires Valid()
      modifies this, SubjectsOf(config.id)
      ensures Valid()
      ensures Added(old(Snap()), config.id, config, old(SettingsFor(config.id)),
                    Seeded(old(StatusFor(config.id)), config.initialValue), old(SubscriptionFor(config.id)), emission)
      ensures !old(Exists(config.id)) ==> fresh(Record(config.id)) && fresh(Record(config.id).Subjects())
    {
      ghost var b0 := Snap();
      var cacheItem := Find(config.id);
      ghost var b1, s, st, sub := Snap(), cacheItem.Setup(), cacheItem.Current(), cacheItem.subscription;
      Merged(cacheItem, config, emission);
      AddedAfterFind(b0, b1, config.id, config, s, Seeded(st, config.initialValue), sub, emission);
    }

    /** Lines 17-34 of `add` for the record `cacheItem` that `find` returned. */
    method Merged(cacheItem: CacheItem, config: Config, emission: Emission)
      requires Valid() && cacheItem in cacheItems
      modifies this, cacheItem.Subjects()
      ensures Valid()
      ensures Exists(cacheItem.id) && Record(cacheItem.id).SharesSubjects(cacheItem) && fresh(Record(cacheItem.id))
      ensures Added(old(Snap()), cacheItem.id, config, cacheItem.Setup(),
                    Seeded(old(cacheItem.Current()), config.initialValue), cacheItem.subscription, emission)
    {
      Seed(cacheItem, config.initialValue);
      ghost var k :| 0 <= k < |cacheItems| && cacheItems[k] == cacheItem;
      var newCacheItem := new CacheItem.Spread(cacheItem, Merge(cacheItem.Setup(), config),
                                               if config.construct.Some? then null else cacheItem.subscription);
      if config.load && cacheItem.construct.Some? {
        MergedLoading(cacheItem, newCacheItem, config, emission);
      } else {
        MergedQuiet(cacheItem, newCacheItem, config, emission, k);
      }
    }

    /** Lines 28-34 when `load` is set and the record already has a producer: the refresh
        starts a load and replaces the record, so the map of line 34 then finds nothing to
        replace and leaves the list as the refresh made it. */
    method MergedLoading(cacheItem: CacheItem, newCacheItem: CacheItem, config: Config, emission: Emission)
      requires Valid() && cacheItem in cacheItems && config.load && cacheItem.construct.Some?
      requires newCacheItem.subscription == if config.construct.Some? then null else cacheItem.subscription
      modifies this, cacheItem.Subjects()
      ensures Valid()
      ensures Exists(cacheItem.id) && Record(cacheItem.id).SharesSubjects(cacheItem) && fresh(Record(cacheItem.id))
      ensures LoadStarted(old(Snap()), cacheItem.id, cacheItem.Setup(), old(cacheItem.Current()),
                          cacheItem.subscription, emission)
    {
      ghost var b0 := Snap();
      if config.construct.Some? {
        Cancel(cacheItem.subscription);
      }
      ghost var b1 := Snap();
      assert b1.items == b0.items && b1.issued == b0.issued;
      assert Without(b1.live, cacheItem.subscription) == Without(b0.live, cacheItem.subscription);
      RefreshCacheItem(cacheItem, emission);
      LoadStartedFrom(b0, b1, cacheItem.id, cacheItem.Setup(), old(cacheItem.Current()),
                      cacheItem.subscription, emission);
      ghost var b2 := Snap();
      MapAbsent(cacheItem, newCacheItem);
      assert Snap() == b2;
    }

    /** The `map` of line 34 once `cacheItem` has left the list: it replaces nothing. */
    method MapAbsent(cacheItem: CacheItem, newCacheItem: CacheItem)
      requires cacheItem !in cacheItems
      modifies this`cacheItems
      ensures cacheItems == old(cacheItems)
    {
      Registry.ReplaceAbsent(cacheItems, cacheItem, newCacheItem);
      cacheItems := Registry.Replace(cacheItems, cacheItem, newCacheItem);
    }

    /** Lines 28-34 otherwise: a refresh, if asked for, finds no producer and does nothing,
        and the merged copy takes the record's place. */
    method MergedQuiet(cacheItem: CacheItem, newCacheItem: CacheItem, config: Config, emission: Emission,
                       ghost k: nat)
      requires Valid() && k < |cacheItems| && cacheItems[k] == cacheItem
      requires !(config.load && cacheItem.construct.Some?)
      requires newCacheItem.SharesSubjects(cacheItem) && newCacheItem.Setup() == Merge(cacheItem.Setup(), config)
      requires newCacheItem.subscription == if config.construct.Some? then null else cacheItem.subscription
      modifies this, cacheItem.Subjects()
      ensures Valid() && Exists(cacheItem.id) && Record(cacheItem.id) == newCacheItem
      ensures Holds(old(Snap()), cacheItem.id, Merge(cacheItem.Setup(), config), old(cacheItem.Current()),
                    newCacheItem.subscription)
      ensures live == if config.construct.Some? then Without(old(live), cacheItem.subscription) else old(live)
    {
      ghost var b0 := Snap();
      if config.construct.Some? {
        Cancel(cacheItem.subscription);
      }
      if config.load {
        RefreshCacheItem(cacheItem, emission);
      }
      Commit(cacheItem, newCacheItem, k, b0.issued, b0.live);
    }

    /** The `map` of line 34: `newCacheItem` takes the place of `cacheItem`. */
    method Commit(cacheItem: CacheItem, newCacheItem: CacheItem, ghost k: nat, ghost issued0: set<Subscription>,
                  ghost live0: set<Subscription>)
      requires k < |cacheItems| && cacheItems[k] == cacheItem
      requires Coherent(cacheItems, issued0, live0) && issued0 <= issued
      requires newCacheItem.SharesSubjects(cacheItem)
      requires newCacheItem.subscription == null || newCacheItem.subscription == cacheItem.subscription
      requires forall s :: s in live ==>
        (s in live0 && s != cacheItem.subscription) || (s == newCacheItem.subscription && s.target.SharesSubjects(newCacheItem))
      modifies this`cacheItems
      ensures Valid()
      ensures cacheItems == old(cacheItems)[k := newCacheItem] && SameListBut(old(cacheItems), cacheItem.id)
      ensures Exists(cacheItem.id) && Record(cacheItem.id) == newCacheItem
    {
      ReplaceAt(cacheItem, newCacheItem, k, issued0, live0);
      cacheItems := Registry.Replace(cacheItems, cacheItem, newCacheItem);
      RecordAt(k);
      assert forall i :: 0 <= i < |cacheItems| && i != k ==> cacheItems[i].id != cacheItem.id;
    }

    /** Lines 17-20 of `add`. */
    method Seed(item: CacheItem, initialValue: Value)
      requires item.Distinct()
      modifies item.Subjects()
      ensures item.Current() == Seeded(old(item.Current()), initialValue)
    {
      if !initialValue.Undefined? && item.instance.value.Undefined? {
        item.instance.value := initialValue;
        item.loaded.value := true;
      }
    }

    /** `add` with the refresh of line 32 moved after the map of line 34, so that it
        refreshes the merged record. A load asked for with `load` then starts from the
        merged fields, the configuration's producer included, and the merged fields stay
        in the list. This is the behaviour ngx-rxcache.service.spec.ts:89-177 expects. */
    method AddMergedFirst(config: Config, emission: Emission)
      requires Valid()
      modifies this, SubjectsOf(config.id)
      ensures Valid()
      ensures AddedMergedFirst(old(Snap()), config.id, config, old(SettingsFor(config.id)),
                               Seeded(old(StatusFor(config.id)), config.initialValue), old(SubscriptionFor(config.id)),
                               emission)
      ensures !old(Exists(config.id)) ==> fresh(Record(config.id)) && fresh(Record(config.id).Subjects())
    {
      ghost var b0 := Snap();
      var cacheItem := Find(config.id);
      ghost var b1, s, st, sub := Snap(), cacheItem.Setup(), cacheItem.Current(), cacheItem.subscription;
      MergedFirst(cacheItem, config, emission);
      AddedMergedFirstAfterFind(b0, b1, config.id, config, s, Seeded(st, config.initialValue), sub, emission);
    }

    /** Lines 17-34 of `add` with the refresh done last, on the merged record. */
    method MergedFirst(cacheItem: CacheItem, config: Config, emission: Emission)
      requires Valid() && cacheItem in cacheItems
      modifies this, cacheItem.Subjects()
      ensures Valid()
      ensures Exists(cacheItem.id) && Record(cacheItem.id).SharesSubjects(cacheItem) && fresh(Record(cacheItem.id))
      ensures AddedMergedFirst(old(Snap()), cacheItem.id, config, cacheItem.Setup(),
                               Seeded(old(cacheItem.Current()), config.initialValue), cacheItem.subscription, emission)
    {
      Seed(cacheItem, config.initialValue);
      ghost var k :| 0 <= k < |cacheItems| && cacheItems[k] == cacheItem;
      ghost var b0, st0 := Snap(), cacheItem.Current();
      var newCacheItem := new CacheItem.Spread(cacheItem, Merge(cacheItem.Setup(), config),
                                               if config.construct.Some? then null else cacheItem.subscription);
      MergedQuiet(cacheItem, newCacheItem, config.(load := false), emission, k);
      if config.load {
        ghost var b1 := Snap();
        RefreshCacheItem(newCacheItem, emission);
        if newCacheItem.construct.Some? {
          LoadStartedAfterMerge(b0, b1, cacheItem.id, newCacheItem.Setup(), st0,
                                cacheItem.subscription, newCacheItem.subscription, emission);
        }
      }
    }

    /** A load started from snapshot `b1`, where the list was `b0`'s with the record for
        `id` replaced and the same subscriptions were live apart from the previous load, is
        a load started from `b0`. */
    lemma LoadStartedAfterMerge(b0: Snapshot, b1: Snapshot, id: string, s: Settings, st: Status,
                                prior0: Subscription?, prior1: Subscription?, emission: Emission)
      requires LoadStarted(b1, id, s, st, prior1, emission)
      requires SameList(b1.items, b0.items, id) && b1.issued == b0.issued
      requires Without(b1.live, prior1) == Without(b0.live, prior0)
      ensures LoadStarted(b0, id, s, st, prior0, emission)
    {
      SameListTrans(b0.items, b1.items, cacheItems, id);
    }

    /** `refresh` (lines 86-88). */
    method Refresh(id: string, emission: Emission)
      requires Valid()
      modifies this, SubjectsOf(id)
      ensures Valid()
      ensures Refreshed(old(Snap()), id, old(SettingsFor(id)), old(StatusFor(id)), old(SubscriptionFor(id)), emission)
      ensures !old(Exists(id)) ==> fresh(Record(id)) && fresh(Record(id).Subjects())
    {
      ghost var b0 := Snap();
      var item := Find(id);
      ghost var b1, st := Snap(), item.Current();
      RefreshCacheItem(item, emission);
      RefreshedAfterFind(b0, b1, id, item.Setup(), st, item.subscription, emission);
    }

    /** `get$` (lines 61-67): the item's value subject, after an autoload. */
    method GetSubject(id: string, emission: Emission) returns (instance: Subject<Value>)
      requires Valid()
      modifies this, SubjectsOf(id)
      ensures Valid()
      ensures Autoloaded(old(Snap()), id, old(SettingsFor(id)), old(StatusFor(id)), old(SubscriptionFor(id)), emission)
      ensures Exists(id) && instance == Record(id).instance
      ensures !old(Exists(id)) ==> fresh(Record(id)) && fresh(Record(id).Subjects())
    {
      ghost var b0 := Snap();
      var item := Find(id);
      ghost var b1, st := Snap(), item.Current();
      if !item.loaded.value && !item.loading.value {
        RefreshCacheItem(item, emission);
        RefreshedAfterFind(b0, b1, id, item.Setup(), st, item.subscription, emission);
      } else {
        HoldsAfterFind(b0, b1, id, item.Setup(), st, item.subscription);
      }
      instance := item.instance;
    }

    /** `get` (lines 69-75): the item's current value, after an autoload. */
    method Get(id: string, emission: Emission) returns (value: Value)
      requires Valid()
      modifies this, SubjectsOf(id)
      ensures Valid()
      ensures Autoloaded(old(Snap()), id, old(SettingsFor(id)), old(StatusFor(id)), old(SubscriptionFor(id)), emission)
      ensures value == StatusFor(id).instance
      ensures !old(Exists(id)) ==> fresh(Record(id)) && fresh(Record(id).Subjects())
    {
      ghost var b0 := Snap();
      var item := Find(id);
      ghost var b1, st := Snap(), item.Current();
      if !item.loaded.value && !item.loading.value {
        RefreshCacheItem(item, emission);
        RefreshedAfterFind(b0, b1, id, item.Setup(), st, item.subscription, emission);
      } else {
        HoldsAfterFind(b0, b1, id, item.Setup(), st, item.subscription);
      }
      value := item.instance.value;
    }

    /** `update` (lines 77-84): the value is set and the item counts as loaded without
        error; its fields and any load in flight are left alone. */
    method Update(id: string, value: Value)
      requires Valid()
      modifies this, SubjectsOf(id)
      ensures Valid() && live == old(live)
      ensures Holds(old(Snap()), id, old(SettingsFor(id)), Updated(value), old(SubscriptionFor(id)))
      ensures !old(Exists(id)) ==> fresh(Record(id)) && fresh(Record(id).Subjects())
    {
      var item := Find(id);
      Overwrite(item, value);
    }

    /** The five `next` calls of `update` (lines 79-83). */
    method Overwrite(item: CacheItem, value: Value)
      requires item.Distinct()
      modifies item.Subjects()
      ensures item.Current() == Updated(value)
    {
      item.instance.value := value;
      item.hasError.value := false;
      item.error.value := Undefined;
      item.loaded.value := true;
      item.loading.value := false;
    }

    /** `reload` (lines 90-107): always starts a load from the given producer, which the
        record keeps for later refreshes. */
    method Reload(id: string, construct: Producer, emission: Emission)
      requires Valid()
      modifies this, SubjectsOf(id)
      ensures Valid()
      ensures LoadStarted(old(Snap()), id, old(SettingsFor(id)).(construct := Some(construct)),
                          old(StatusFor(id)), old(SubscriptionFor(id)), emission)
      ensures !old(Exists(id)) ==> fresh(Record(id)) && fresh(Record(id).Subjects())
    {
      var cacheItem := Find(id);
      ReloadCacheItem(cacheItem, construct, emission);
    }

    /** Lines 92-106 of `reload` for the record `cacheItem` that `find` returned. */
    method ReloadCacheItem(cacheItem: CacheItem, construct: Producer, emission: Emission)
      requires Valid() && cacheItem in cacheItems
      modifies this, cacheItem.Subjects()
      ensures Valid()
      ensures Exists(cacheItem.id) && Record(cacheItem.id).SharesSubjects(cacheItem) && fresh(Record(cacheItem.id))
      ensures LoadStarted(old(Snap()), cacheItem.id, cacheItem.Setup().(construct := Some(construct)),
                          old(cacheItem.Current()), cacheItem.subscription, emission)
    {
      ghost var k :| 0 <= k < |cacheItems| && cacheItems[k] == cacheItem;
      var copy := Relaunch(cacheItem, cacheItem.Setup().(construct := Some(construct)), emission, k, true);
    }

    /** The five `next` calls of `reset` (lines 112-116). */
    method Clear(item: CacheItem)
      requires item.Distinct()
      modifies item.Subjects()
      ensures item.Current() == Initial
    {
      item.loaded.value := false;
      item.loading.value := false;
      item.hasError.value := false;
      item.error.value := Undefined;
      item.instance.value := Undefined;
    }

    /** `reset` (lines 109-122): an existing item goes back to the state of a new one and
        loses its subscription; a missing id is not created. */
    method Reset(id: string)
      requires Valid()
      modifies this, SubjectsOf(id)
      ensures Valid() && issued == old(issued)
      ensures !old(Exists(id)) ==> cacheItems == old(cacheItems) && live == old(live)
      ensures old(Exists(id)) ==>
        Holds(old(Snap()), id, old(SettingsFor(id)), Initial, null) &&
        live == Without(old(live), old(SubscriptionFor(id)))
    {
      var k := Index(id);
      if k.Some? {
        var cacheItem := cacheItems[k.value];
        RecordAt(k.value);
        Clear(cacheItem);
        if cacheItem.subscription != null {
          ghost var live0 := live;
          Cancel(cacheItem.subscription);
          var copy := new CacheItem.Spread(cacheItem, cacheItem.Setup(), null);
          Install(cacheItem, copy, k.value, issued, live0, false);
        }
      }
    }

    /** `unsubscribe` (lines 124-130): an existing item's load is cancelled and its
        subscription dropped; nothing else changes. */
    method Unsubscribe(id: string)
      requires Valid()
      modifies this
      ensures Valid() && issued == old(issued)
      ensures !old(Exists(id)) ==> cacheItems == old(cacheItems) && live == old(live)
      ensures old(Exists(id)) ==>
        Holds(old(Snap()), id, old(SettingsFor(id)), old(StatusFor(id)), null) &&
        live == Without(old(live), old(SubscriptionFor(id)))
    {
      var k := Index(id);
      if k.Some? {
        var cacheItem := cacheItems[k.value];
        RecordAt(k.value);
        if cacheItem.subscription != null {
          ghost var live0 := live;
          Cancel(cacheItem.subscription);
          var copy := new CacheItem.Spread(cacheItem, cacheItem.Setup(), null);
          Install(cacheItem, copy, k.value, issued, live0, false);
        }
      }
    }

    /** The five `complete` calls of `delete` (lines 135-139). */
    method Complete(item: CacheItem)
      requires item.Distinct()
      modifies item.Subjects()
      ensures item.Completed() && item.Current() == old(item.Current())
    {
      item.instance.completed := true;
      item.loading.completed := true;
      item.loaded.completed := true;
      item.error.completed := true;
      item.hasError.completed := true;
    }

    /** `delete` (lines 132-145): an existing item's subjects are completed, its load is
        cancelled and its record removed, the others keeping their order; a missing id
        changes nothing. */
    method Delete(id: string)
      requires Valid()
      modifies this, SubjectsOf(id)
      ensures Valid() && issued == old(issued)
      ensures !old(Exists(id)) ==> cacheItems == old(cacheItems) && live == old(live)
      ensures old(Exists(id)) ==> !Exists(id)
      ensures old(Exists(id)) ==>
        cacheItems == old(cacheItems[..Index(id).value] + cacheItems[Index(id).value + 1..])
      ensures old(Exists(id)) ==>
        old(Record(id)).Completed() && old(Record(id)).Current() == old(Record(id).Current())
      ensures old(Exists(id)) ==> live == Without(old(live), old(SubscriptionFor(id)))
    {
      var k := Index(id);
      if k.Some? {
        RecordAt(k.value);
        Remove(cacheItems[k.value], k.value);
        assert forall i :: 0 <= i < |cacheItems| ==> cacheItems[i].id != id;
      }
    }

    /** Lines 135-143 for the record `cacheItem` at position `k`. */
    method Remove(cacheItem: CacheItem, ghost k: nat)
      requires Valid() && k < |cacheItems| && cacheItems[k] == cacheItem
      modifies this`cacheItems, this`live, cacheItem.Subjects()
      ensures Valid() && cacheItems == old(cacheItems[..k] + cacheItems[k + 1..])
      ensures cacheItem.Completed() && cacheItem.Current() == old(cacheItem.Current())
      ensures live == Without(old(live), cacheItem.subscription)
    {
      Complete(cacheItem);
      ghost var live0 := live;
      Cancel(cacheItem.subscription);
      CoherentRemove(cacheItems, issued, live0, k, live);
      Registry.FilterRemovesOne(cacheItems, item => item != cacheItem, k);
      cacheItems := Registry.Filter(cacheItems, item => item != cacheItem);
    }

    /** `loading` (lines 178-180), through `find`. */
    method Loading(id: string) returns (b: bool)
      requires Valid()
      modifies this
      ensures Valid() && live == old(live)
      ensures Holds(old(Snap()), id, old(SettingsFor(id)), old(StatusFor(id)), old(SubscriptionFor(id)))
      ensures !old(Exists(id)) ==> fresh(Record(id)) && fresh(Record(id).Subjects())
      ensures b == old(StatusFor(id)).loading
    {
      var item := Find(id);
      b := item.loading.value;
    }

    /** `loading$` (lines 182-184), through `find`. */
    method LoadingSubject(id: string) returns (subject: Subject<bool>)
      requires Valid()
      modifies this
      ensures Valid() && live == old(live)
      ensures Holds(old(Snap()), id, old(SettingsFor(id)), old(StatusFor(id)), old(SubscriptionFor(id)))
      ensures !old(Exists(id)) ==> fresh(Record(id)) && fresh(Record(id).Subjects())
      ensures subject == Record(id).loading
    {
      var item := Find(id);
      subject := item.loading;
    }

    /** `loaded` (lines 186-188), through `find`. */
    method Loaded(id: string) returns (b: bool)
      requires Valid()
      modifies this
      ensures Valid() && live == old(live)
      ensures Holds(old(Snap()), id, old(SettingsFor(id)), old(StatusFor(id)), old(SubscriptionFor(id)))
      ensures !old(Exists(id)) ==> fresh(Record(id)) && fresh(Record(id).Subjects())
      ensures b == old(StatusFor(id)).loaded
    {
      var item := Find(id);
      b := item.loaded.value;
    }

    /** `loaded$` (lines 190-192), through `find`. */
    method LoadedSubject(id: string) returns (subject: Subject<bool>)
      requires Valid()
      modifies this
      ensures Valid() && live == old(live)
      ensures Holds(old(Snap()), id, old(SettingsFor(id)), old(StatusFor(id)), old(SubscriptionFor(id)))
      ensures !old(Exists(id)) ==> fresh(Record(id)) && fresh(Record(id).Subjects())
      ensures subject == Record(id).loaded
    {
      var item := Find(id);
      subject := item.loaded;
    }

    /** `error` (lines 194-196), through `find`. */
    method Error(id: string) returns (e: Value)
      requires Valid()
      modifies this
      ensures Valid() && live == old(live)
      ensures Holds(old(Snap()), id, old(SettingsFor(id)), old(StatusFor(id)), old(SubscriptionFor(id)))
      ensures !old(Exists(id)) ==> fresh(Record(id)) && fresh(Record(id).Subjects())
      ensures e == old(StatusFor(id)).error
    {
      var item := Find(id);
      e := item.error.value;
    }

    /** `error$` (lines 198-200), through `find`. */
    method ErrorSubject(id: string) returns (subject: Subject<Value>)
      requires Valid()
      modifies this
      ensures Valid() && live == old(live)
      ensures Holds(old(Snap()), id, old(SettingsFor(id)), old(StatusFor(id)), old(SubscriptionFor(id)))
      ensures !old(Exists(id)) ==> fresh(Record(id)) && fresh(Record(id).Subjects())
      ensures subject == Record(id).error
    {
      var item := Find(id);
      subject := item.error;
    }
  }

  /** `add({ id, construct: a, load: true })` on a new id starts no load: line 32 refreshes
      the record `find` created, which has no producer yet. */
  method AddNewWithLoad() returns (loading: bool)
    ensures !loading
  {
    var svc := new NgxRxcacheService();
    svc.Add(Config("x", Some(Producer("a")), true, Undefined, None, None), Pending);
    loading := svc.Loading("x");
  }

  /** The same call with the refresh moved after the merge starts the load. */
  method AddNewWithLoadMergedFirst() returns (loading: bool)
    ensures loading
  {
    var svc := new NgxRxcacheService();
    svc.AddMergedFirst(Config("x", Some(Producer("a")), true, Undefined, None, None), Pending);
    loading := svc.Loading("x");
  }

  /** `add({ id, construct: a })` and then `add({ id, construct: b, load: true })`: the load
      runs `a`, and the record keeps `a`, because the merged record of the second call is
      never installed. */
  method AddAgainWithLoad() returns (kept: Option<Producer>)
    ensures kept == Some(Producer("a"))
  {
    var svc := new NgxRxcacheService();
    svc.Add(Config("x", Some(Producer("a")), false, Undefined, None, None), Pending);
    svc.Add(Config("x", Some(Producer("b")), true, Undefined, None, None), Pending);
    var item := svc.Find("x");
    kept := item.construct;
  }

  /** The same calls with the refresh moved after the merge keep `b`. */
  method AddAgainWithLoadMergedFirst() returns (kept: Option<Producer>)
    ensures kept == Some(Producer("b"))
  {
    var svc := new NgxRxcacheService();
    svc.AddMergedFirst(Config("x", Some(Producer("a")), false, Undefined, None, None), Pending);
    svc.AddMergedFirst(Config("x", Some(Producer("b")), true, Undefined, None, None), Pending);
    var item := svc.Find("x");
    kept := item.construct;
  }
}
