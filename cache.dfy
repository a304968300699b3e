/**
  The two-tier read-through metadata cache of src/ks.js (`getObjectMetadata`,
  `getViewMetadata`) and the entry point of the drift detector
  (`compareDataWithMetadata`).

  The memory tier is two maps, one for objects and one for views. The persistent
  tier is a key-value store whose ids are namespaced `"object_" + key` and
  `"view_" + key`. Behind both stands the host's immutable snapshot.

  `LookupObject`, `LookupView` and `Compare` specify one call each as a function
  from the state before to the result and the state after; the lemmas state the
  cache policy about them; `MetadataCache` is the stateful object whose methods
  are proved to follow them.
 */
module Cache {
  import opened Wrappers
  import opened Schema
  import opened Drift

  /** A stored value: an object definition or a view definition, with the time it was written. */
  datatype Entry =
    | ObjectEntry(obj: ObjectDef, timestamp: int)
    | ViewEntry(view: ViewDef, timestamp: int)

  /**
    What happens when a lookup reaches the persistent store: whether the store
    opens at all, whether the read succeeds, and whether the (unobserved) write
    takes effect.
   */
  datatype StoreAccess = StoreAccess(opens: bool, readSucceeds: bool, writeSucceeds: bool)

  /** Both cache tiers: the two memory maps and the persistent store. */
  datatype Tiers = Tiers(
    objects: map<string, ObjectDef>,
    views: map<string, ViewDef>,
    store: map<string, Entry>)

  /** The result of one lookup together with the tiers after it. */
  datatype Lookup<T> = Lookup(result: Option<T>, after: Tiers)

  /** The result of one comparison together with the tiers after it. */
  datatype Comparison = Comparison(result: DriftResult, after: Tiers)

  function ObjectId(key: string): string { "object_" + key }

  function ViewId(key: string): string { "view_" + key }

  /** The two namespaces never collide, and each is one-to-one. */
  lemma StoreIdsAreNamespaced(a: string, b: string)
    ensures ObjectId(a) != ViewId(b)
    ensures ObjectId(a) == ObjectId(b) ==> a == b
    ensures ViewId(a) == ViewId(b) ==> a == b
  {
    assert ObjectId(a)[0] == 'o' && ViewId(b)[0] == 'v';
    if ObjectId(a) == ObjectId(b) {
      assert a == ObjectId(a)[7..] && b == ObjectId(b)[7..];
    }
    if ViewId(a) == ViewId(b) {
      assert a == ViewId(a)[5..] && b == ViewId(b)[5..];
    }
  }

  /** Every entry under an object id holds an object, every entry under a view id a view. */
  ghost predicate WellNamespaced(store: map<string, Entry>)
  {
    && (forall k :: ObjectId(k) in store ==> store[ObjectId(k)].ObjectEntry?)
    && (forall k :: ViewId(k) in store ==> store[ViewId(k)].ViewEntry?)
  }

  /** A successful store read of `"object_" + key`. */
  function StoredObject(store: map<string, Entry>, key: string): Option<ObjectDef>
  {
    if ObjectId(key) in store && store[ObjectId(key)].ObjectEntry? then Some(store[ObjectId(key)].obj) else None
  }

  /** A successful store read of `"view_" + key`. */
  function StoredView(store: map<string, Entry>, key: string): Option<ViewDef>
  {
    if ViewId(key) in store && store[ViewId(key)].ViewEntry? then Some(store[ViewId(key)].view) else None
  }

  /** The store read as the lookup sees it: a failed read looks like a miss. */
  function ReadObject(t: Tiers, key: string, access: StoreAccess): Option<ObjectDef>
  {
    if access.readSucceeds then StoredObject(t.store, key) else None
  }

  function ReadView(t: Tiers, key: string, access: StoreAccess): Option<ViewDef>
  {
    if access.readSucceeds then StoredView(t.store, key) else None
  }

  /** `getObjectMetadata(key)`: memory, then store, then the snapshot's object list. */
  function LookupObject(t: Tiers, snapshot: Snapshot, key: string, access: StoreAccess, now: int): Lookup<ObjectDef>
  {
    if key in t.objects then Lookup(Some(t.objects[key]), t)
    else if !access.opens then Lookup(None, t)
    else match ReadObject(t, key, access)
      case Some(cached) => Lookup(Some(cached), t.(objects := t.objects[key := cached]))
      case None =>
        match FindObject(snapshot.objects, key)
        case None => Lookup(None, t)
        case Some(o) =>
          var store := if access.writeSucceeds then t.store[ObjectId(key) := ObjectEntry(o, now)] else t.store;
          Lookup(Some(o), Tiers(t.objects[key := o], t.views, store))
  }

  /** `getViewMetadata(key)`: memory, then store, then the owning scene in the snapshot. */
  function LookupView(t: Tiers, snapshot: Snapshot, key: string, access: StoreAccess, now: int): Lookup<ViewDef>
  {
    if key in t.views then Lookup(Some(t.views[key]), t)
    else if !access.opens then Lookup(None, t)
    else match ReadView(t, key, access)
      case Some(cached) => Lookup(Some(cached), t.(views := t.views[key := cached]))
      case None =>
        match FindViewInScenes(snapshot.scenes, key)
        case None => Lookup(None, t)
        case Some(v) =>
          var store := if access.writeSucceeds then t.store[ViewId(key) := ViewEntry(v, now)] else t.store;
          Lookup(Some(v), Tiers(t.objects, t.views[key := v], store))
  }

  /** `source.object` when it names an object. */
  function SourceObjectKey(view: ViewDef): Option<string>
  {
    if view.sourceObject.Some? && view.sourceObject.value != "" then view.sourceObject else None
  }

  /**
    `compareDataWithMetadata(viewKey, data)`: resolve the view, then its object,
    then compare. Each lookup reads the clock on its own, so each has its own
    timestamp.
   */
  function Compare(
    t: Tiers, snapshot: Snapshot, viewKey: string, data: Payload,
    viewAccess: StoreAccess, objectAccess: StoreAccess, viewNow: int, objectNow: int): Comparison
  {
    var v := LookupView(t, snapshot, viewKey, viewAccess, viewNow);
    if v.result.None? || SourceObjectKey(v.result.value).None? then Comparison(NoContract, v.after)
    else
      var o := LookupObject(v.after, snapshot, SourceObjectKey(v.result.value).value, objectAccess, objectNow);
      if o.result.None? || o.result.value.fields.None? then Comparison(NoContract, o.after)
      else Comparison(DriftOf(v.result.value.columns, o.result.value.fields.value, data), o.after)
  }

  // ---------------------------------------------------------------------------
  // The cache policy, for objects

  /** A memory hit returns the cached object and changes neither tier. */
  lemma ObjectMemoryHit(t: Tiers, snapshot: Snapshot, key: string, access: StoreAccess, now: int)
    requires key in t.objects
    ensures LookupObject(t, snapshot, key, access, now) == Lookup(Some(t.objects[key]), t)
  {
  }

  /**
    A lookup that returns an object leaves it in memory under its key, and the
    next lookup of that key is a memory hit that returns it and changes nothing.
   */
  lemma ObjectResultIsRemembered(t: Tiers, snapshot: Snapshot, key: string, access: StoreAccess, now: int,
                                 access': StoreAccess, now': int)
    ensures var l := LookupObject(t, snapshot, key, access, now);
      l.result.Some? ==>
        && l.after.objects == t.objects[key := l.result.value]
        && LookupObject(l.after, snapshot, key, access', now') == Lookup(l.result, l.after)
  {
  }

  /** A lookup that returns nothing changes nothing: misses are not cached. */
  lemma ObjectMissCachesNothing(t: Tiers, snapshot: Snapshot, key: string, access: StoreAccess, now: int)
    ensures var l := LookupObject(t, snapshot, key, access, now);
      l.result.None? <==>
        key !in t.objects && (!access.opens || (ReadObject(t, key, access).None? && FindObject(snapshot.objects, key).None?))
    ensures LookupObject(t, snapshot, key, access, now).result.None? ==> LookupObject(t, snapshot, key, access, now).after == t
  {
  }

  /**
    The store is written exactly when memory misses, the store opens, the read
    returns nothing, the snapshot has the object and the write takes effect; it
    is then written under `"object_" + key` with the snapshot's object, and
    nothing else in it changes.
   */
  lemma ObjectStoreWrite(t: Tiers, snapshot: Snapshot, key: string, access: StoreAccess, now: int)
    ensures LookupObject(t, snapshot, key, access, now).after.store ==
      if && key !in t.objects && access.opens && access.writeSucceeds
         && ReadObject(t, key, access).None?
         && FindObject(snapshot.objects, key).Some?
      then t.store[ObjectId(key) := ObjectEntry(FindObject(snapshot.objects, key).value, now)]
      else t.store
  {
  }

  /** Write-once: when the store already holds the object and the read succeeds, the store is untouched. */
  lemma ObjectStoreHitNeverWrites(t: Tiers, snapshot: Snapshot, key: string, access: StoreAccess, now: int)
    requires WellNamespaced(t.store)
    requires ObjectId(key) in t.store && access.readSucceeds
    ensures LookupObject(t, snapshot, key, access, now).after.store == t.store
  {
  }

  /** A lookup never changes or removes what memory already holds, and never touches the view map. */
  lemma ObjectLookupOnlyAdds(t: Tiers, snapshot: Snapshot, key: string, access: StoreAccess, now: int)
    ensures var l := LookupObject(t, snapshot, key, access, now);
      && l.after.views == t.views
      && t.objects.Keys <= l.after.objects.Keys <= t.objects.Keys + {key}
      && forall k :: k in t.objects ==> l.after.objects[k] == t.objects[k]
  {
  }

  /** An object lookup keeps the store namespaced, and touches no view id. */
  lemma ObjectLookupKeepsNamespacing(t: Tiers, snapshot: Snapshot, key: string, access: StoreAccess, now: int)
    requires WellNamespaced(t.store)
    ensures var after := LookupObject(t, snapshot, key, access, now).after.store;
      && WellNamespaced(after)
      && forall k :: ViewId(k) in t.store <==> ViewId(k) in after
  {
    var after := LookupObject(t, snapshot, key, access, now).after.store;
    forall k | ViewId(k) in t.store || ViewId(k) in after
      ensures ViewId(k) in t.store && ViewId(k) in after && after[ViewId(k)] == t.store[ViewId(k)]
    {
      StoreIdsAreNamespaced(key, k);
    }
    forall k | ObjectId(k) in after ensures after[ObjectId(k)].ObjectEntry? {
      StoreIdsAreNamespaced(key, k);
    }
  }

  // ---------------------------------------------------------------------------
  // The cache policy, for views

  /** A memory hit returns the cached view and changes neither tier. */
  lemma ViewMemoryHit(t: Tiers, snapshot: Snapshot, key: string, access: StoreAccess, now: int)
    requires key in t.views
    ensures LookupView(t, snapshot, key, access, now) == Lookup(Some(t.views[key]), t)
  {
  }

  /**
    A lookup that returns a view leaves it in memory under its key, and the
    next lookup of that key is a memory hit that returns it and changes nothing.
   */
  lemma ViewResultIsRemembered(t: Tiers, snapshot: Snapshot, key: string, access: StoreAccess, now: int,
                               access': StoreAccess, now': int)
    ensures var l := LookupView(t, snapshot, key, access, now);
      l.result.Some? ==>
        && l.after.views == t.views[key := l.result.value]
        && LookupView(l.after, snapshot, key, access', now') == Lookup(l.result, l.after)
  {
  }

  /** A lookup that returns nothing changes nothing: misses are not cached. */
  lemma ViewMissCachesNothing(t: Tiers, snapshot: Snapshot, key: string, access: StoreAccess, now: int)
    ensures var l := LookupView(t, snapshot, key, access, now);
      l.result.None? <==>
        key !in t.views && (!access.opens ||
          (ReadView(t, key, access).None? && forall i :: 0 <= i < |snapshot.scenes| ==> !HasView(snapshot.scenes[i], key)))
    ensures LookupView(t, snapshot, key, access, now).result.None? ==> LookupView(t, snapshot, key, access, now).after == t
  {
  }

  /**
    The store is written exactly when memory misses, the store opens, the read
    returns nothing, the snapshot has the view and the write takes effect; it is
    then written under `"view_" + key` with the view as returned, and nothing
    else in it changes.
   */
  lemma ViewStoreWrite(t: Tiers, snapshot: Snapshot, key: string, access: StoreAccess, now: int)
    ensures var l := LookupView(t, snapshot, key, access, now);
      l.after.store ==
        if && key !in t.views && access.opens && access.writeSucceeds
           && ReadView(t, key, access).None?
           && FindViewInScenes(snapshot.scenes, key).Some?
        then t.store[ViewId(key) := ViewEntry(l.result.value, now)]
        else t.store
  {
  }

  /** Write-once: when the store already holds the view and the read succeeds, the store is untouched. */
  lemma ViewStoreHitNeverWrites(t: Tiers, snapshot: Snapshot, key: string, access: StoreAccess, now: int)
    requires WellNamespaced(t.store)
    requires ViewId(key) in t.store && access.readSucceeds
    ensures LookupView(t, snapshot, key, access, now).after.store == t.store
  {
  }

  /**
    On a miss in both tiers, the view returned is the first view with that key
    in the first scene whose views contain it, carrying that scene's
    `{key, name, slug}`.
   */
  lemma ViewFromSnapshot(t: Tiers, snapshot: Snapshot, key: string, access: StoreAccess, now: int)
    requires key !in t.views && access.opens && ReadView(t, key, access).None?
    requires exists i :: 0 <= i < |snapshot.scenes| && HasView(snapshot.scenes[i], key)
    ensures var r := LookupView(t, snapshot, key, access, now).result;
      exists i: nat, j: nat ::
        && IsFirstViewAt(snapshot.scenes, key, i, j)
        && r == Some(snapshot.scenes[i].views.value[j].(scene := Some(SceneRef(snapshot.scenes[i].key, snapshot.scenes[i].name, snapshot.scenes[i].slug))))
  {
  }

  /** A lookup never changes or removes what memory already holds, and never touches the object map. */
  lemma ViewLookupOnlyAdds(t: Tiers, snapshot: Snapshot, key: string, access: StoreAccess, now: int)
    ensures var l := LookupView(t, snapshot, key, access, now);
      && l.after.objects == t.objects
      && t.views.Keys <= l.after.views.Keys <= t.views.Keys + {key}
      && forall k :: k in t.views ==> l.after.views[k] == t.views[k]
  {
  }

  /** A view lookup keeps the store namespaced, and touches no object id. */
  lemma ViewLookupKeepsNamespacing(t: Tiers, snapshot: Snapshot, key: string, access: StoreAccess, now: int)
    requires WellNamespaced(t.store)
    ensures var after := LookupView(t, snapshot, key, access, now).after.store;
      && WellNamespaced(after)
      && forall k :: ObjectId(k) in t.store <==> ObjectId(k) in after
  {
    var after := LookupView(t, snapshot, key, access, now).after.store;
    forall k | ObjectId(k) in t.store || ObjectId(k) in after
      ensures ObjectId(k) in t.store && ObjectId(k) in after && after[ObjectId(k)] == t.store[ObjectId(k)]
    {
      StoreIdsAreNamespaced(k, key);
    }
    forall k | ViewId(k) in after ensures after[ViewId(k)].ViewEntry? {
      StoreIdsAreNamespaced(k, key);
    }
  }

  // ---------------------------------------------------------------------------
  // The comparison

  /**
    With no view, a view without a source object, no object, or an object
    without a field list, the comparison matches with no differences, whatever
    the payload.
   */
  lemma NoContractMatches(t: Tiers, snapshot: Snapshot, viewKey: string, data: Payload,
                          viewAccess: StoreAccess, objectAccess: StoreAccess, viewNow: int, objectNow: int)
    ensures var v := LookupView(t, snapshot, viewKey, viewAccess, viewNow);
      (v.result.None? || SourceObjectKey(v.result.value).None? ||
        var o := LookupObject(v.after, snapshot, SourceObjectKey(v.result.value).value, objectAccess, objectNow);
        o.result.None? || o.result.value.fields.None?)
      ==> Compare(t, snapshot, viewKey, data, viewAccess, objectAccess, viewNow, objectNow).result == DriftResult(true, [])
  {
  }

  /** A comparison reports drift exactly when the differences list is non-empty. */
  lemma CompareMatchesIffNoDifferences(t: Tiers, snapshot: Snapshot, viewKey: string, data: Payload,
                                       viewAccess: StoreAccess, objectAccess: StoreAccess, viewNow: int, objectNow: int)
    ensures var r := Compare(t, snapshot, viewKey, data, viewAccess, objectAccess, viewNow, objectNow).result;
      r.matches <==> r.differences == []
  {
  }

  // ---------------------------------------------------------------------------
  // The cache object

  /** The metadata cache of one application session. */
  class MetadataCache {
    var objects: map<string, ObjectDef>
    var views: map<string, ViewDef>
    var store: map<string, Entry>
    const snapshot: Snapshot

    function State(): Tiers
      reads this
    {
      Tiers(objects, views, store)
    }

    ghost predicate Valid()
      reads this
    {
      WellNamespaced(store)
    }

    /** An empty memory tier in front of what earlier sessions persisted. */
    constructor (snapshot: Snapshot, persisted: map<string, Entry>)
      requires WellNamespaced(persisted)
      ensures Valid()
      ensures this.snapshot == snapshot && State() == Tiers(map[], map[], persisted)
    {
      this.snapshot := snapshot;
      objects := map[];
      views := map[];
      store := persisted;
    }

    method GetObjectMetadata(objectKey: string, access: StoreAccess, now: int) returns (r: Option<ObjectDef>)
      requires Valid()
      modifies this
      ensures Valid()
      ensures Lookup(r, State()) == LookupObject(old(State()), snapshot, objectKey, access, now)
    {
      ghost var before := State();
      ObjectLookupKeepsNamespacing(before, snapshot, objectKey, access, now);
      if objectKey in objects {
        return Some(objects[objectKey]);
      }
      if !access.opens {
        return None;
      }
      var cachedObject := None;
      if access.readSucceeds && ObjectId(objectKey) in store && store[ObjectId(objectKey)].ObjectEntry? {
        cachedObject := Some(store[ObjectId(objectKey)].obj);
      }
      if cachedObject.Some? {
        objects := objects[objectKey := cachedObject.value];
        return cachedObject;
      }
      var objectData := FindObject(snapshot.objects, objectKey);
      if objectData.Some? {
        if access.writeSucceeds {
          store := store[ObjectId(objectKey) := ObjectEntry(objectData.value, now)];
        }
        objects := objects[objectKey := objectData.value];
        return objectData;
      }
      return None;
    }

    method GetViewMetadata(viewKey: string, access: StoreAccess, now: int) returns (r: Option<ViewDef>)
      requires Valid()
      modifies this
      ensures Valid()
      ensures Lookup(r, State()) == LookupView(old(State()), snapshot, viewKey, access, now)
    {
      ghost var before := State();
      ViewLookupKeepsNamespacing(before, snapshot, viewKey, access, now);
      if viewKey in views {
        return Some(views[viewKey]);
      }
      if !access.opens {
        return None;
      }
      var cachedView := None;
      if access.readSucceeds && ViewId(viewKey) in store && store[ViewId(viewKey)].ViewEntry? {
        cachedView := Some(store[ViewId(viewKey)].view);
      }
      if cachedView.Some? {
        views := views[viewKey := cachedView.value];
        return cachedView;
      }
      var viewData := FindViewInScenes(snapshot.scenes, viewKey);
      if viewData.Some? {
        if access.writeSucceeds {
          store := store[ViewId(viewKey) := ViewEntry(viewData.value, now)];
        }
        views := views[viewKey := viewData.value];
      }
      return viewData;
    }

    method CompareDataWithMetadata(viewKey: string, data: Payload,
                                   viewAccess: StoreAccess, objectAccess: StoreAccess, viewNow: int, objectNow: int)
      returns (r: DriftResult)
      requires Valid()
      modifies this
      ensures Valid()
      ensures Comparison(r, State()) == Compare(old(State()), snapshot, viewKey, data, viewAccess, objectAccess, viewNow, objectNow)
    {
      var viewMetadata := GetViewMetadata(viewKey, viewAccess, viewNow);
      if viewMetadata.None? || viewMetadata.value.sourceObject.None? || viewMetadata.value.sourceObject.value == "" {
        return NoContract;
      }
      var objectKey := viewMetadata.value.sourceObject.value;
      var objectMetadata := GetObjectMetadata(objectKey, objectAccess, objectNow);
      if objectMetadata.None? || objectMetadata.value.fields.None? {
        return NoContract;
      }
      var sampleData := SampleOf(data);
      var expectedFields := [];
      if viewMetadata.value.columns.Some? {
        expectedFields := BuildExpectedFields(viewMetadata.value.columns.value, objectMetadata.value.fields.value);
      }
      var differences := FindDifferences(expectedFields, sampleData);
      r := DriftResult(|differences| == 0, differences);
    }
  }
}
