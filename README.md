# KnackSync metadata cache and schema-drift detector, in Dafny

This project models the core of KnackSync (`src/ks.js`). KnackSync runs inside a
Knack application. It keeps a two-tier cache of the application's schema
metadata, and it checks that the record data delivered to a rendered view still
has the shape that metadata describes.

- **Metadata cache** (`getObjectMetadata`, `getViewMetadata`). The first tier is
  two in-memory maps, one for objects and one for views. The second tier is an
  IndexedDB store with ids `"object_" + key` and `"view_" + key`. Behind both
  stands the host's loader snapshot (`Knack.loader_api`), which holds the objects
  and the scenes, each scene with its views. A lookup tries memory, then the
  store (a hit there fills memory), then the snapshot (a hit there writes the
  store and fills memory). A view taken from the snapshot is stamped with its
  owning scene's `{key, name, slug}`. A miss everywhere returns `null` and caches
  nothing.
- **Drift detector** (`compareDataWithMetadata`). It resolves the view and then
  the view's source object. It builds the expected fields from the view's
  columns. It then compares them with the own keys of a sample record, which is
  the first element when the payload is a non-empty array. The result is an
  ordered list of `missing_field` items followed by `unexpected_field` items.
  Keys starting with `_`, and the key `id`, are never unexpected.

Layout:

- `wrappers.dfy`: `Option`, standing for `null`/`undefined`.
- `schema.dfy` (module `Schema`): the metadata records and the `find`/`some`
  searches, each returning the first match.
- `drift.dfy` (module `Drift`): expected fields and the differences list. These
  are specification functions. The source's `forEach`/`push` loops are
  methods (`BuildExpectedFields`, `FindDifferences`) proved to compute them.
  Lemmas state the field-level diff semantics.
- `cache.dfy` (module `Cache`): `LookupObject`, `LookupView` and `Compare` give
  one call each as a function from the tiers before to the result and the tiers
  after. Lemmas state the cache policy about them. The class `MetadataCache`
  holds the two memory maps and the store as fields, and the snapshot as a
  constant. Its methods update those fields step by step, as the source does,
  and are proved equal to the specification functions.
- `scenarios.dfy` (module `Scenarios`): the comparison run end to end on a cold
  cache with a one-object, one-view application.

How the model reads the source:

- Every access to the persistent store gets a `StoreAccess(opens, readSucceeds,
  writeSucceeds)` parameter.
  - `opens = false` is any failure that throws inside the lookup's `try`:
    `initMetadataDb` rejecting (src/ks.js:52), or `db.transaction` or `put`
    throwing synchronously (src/ks.js:53, 73-75, 103, 135-137), for example on a
    closed connection or a value that cannot be cloned. The `catch` returns
    `null` with nothing cached, even when the snapshot has the key.
  - `readSucceeds = false` is the read's `onerror`. It resolves to `null` and is
    indistinguishable from a miss.
  - `writeSucceeds = false` is a fire-and-forget `put` that failed. Its failure
    is never observed.
- The clock (`Date.now()`) is a parameter of each lookup (`now`). A comparison
  runs two lookups that each read the clock (src/ks.js:140, 78), so `Compare`
  takes two timestamps, `viewNow` and `objectNow`.
- Three behaviours of the code worth knowing:
  - An unavailable store makes a lookup return `null` instead of falling back
    to the snapshot (src/ks.js:52, 87-90; see `ObjectMissCachesNothing`).
  - A persisted entry is guaranteed to be left alone only when the read
    succeeds. After a failed read, a snapshot hit writes the entry again with
    a new timestamp (src/ks.js:59, 67-79; see `ObjectStoreWrite` and
    `ObjectStoreHitNeverWrites`).
  - An object with `fields: []` is still compared, because the code tests only
    `!objectMetadata.fields` and an empty array is truthy (src/ks.js:171).
    Nothing is expected, and every non-exempt key of the sample is reported
    unexpected (see `EmptyFieldListReportsEveryKey`).
- JavaScript truthiness is written out where the code relies on it:
  - A `source.object` or a `column.field.key` that is the empty string counts as
    absent.
  - A payload that is an empty array is itself the sample: a present value with
    no own enumerable keys. The model ignores that `[].hasOwnProperty("length")`
    is true. `EmptyRecordLikeAbsent` shows that such a sample compares exactly
    like an absent record.

## Model

| member | source | states |
|---|---|---|
| `Schema.FindFirst` | src/ks.js:68-70 | the index returned is that of an element satisfying the predicate, with no earlier element satisfying it; `None` only when no element satisfies it |
| `Schema.FindObject` | src/ks.js:68-70 | the object returned is the first in the snapshot list with the requested key; `None` exactly when no object has that key |
| `Schema.FindField` | src/ks.js:188-190 | the field definition returned has the requested key and is the first such definition; `None` exactly when no field has that key |
| `Schema.FindViewInScenes` | src/ks.js:117-132 | `None` exactly when no scene's views contain the key; otherwise the result is the first view with that key in the first scene containing it, stamped with that scene's key, name and slug |
| `Drift.BuildExpectedFields` | src/ks.js:183-201 | the column loop computes exactly the expected field list `ExpectedFields` |
| `Drift.FindDifferences` | src/ks.js:203-225 | the two push loops compute exactly the differences list `Differences`: missing fields, then unexpected keys |
| `Drift.ExpectedFieldsAppend` | src/ks.js:185-200 | column order is kept: the expected fields of concatenated column lists are the concatenation of their expected fields |
| `Drift.ColumnContributionIsFirstDefinition` | src/ks.js:186-198 | a column adds exactly one entry, the first definition of its field key, when it references a non-empty key the object defines, and nothing otherwise |
| `Drift.ExpectedFieldsMembership` | src/ks.js:183-201 | a field is expected if and only if it is the first definition of its key in the object and some column references that key |
| `Drift.ExpectedFieldsAtMostOnePerColumn` | src/ks.js:185-200 | there are never more expected fields than columns |
| `Drift.MissingItemsMembership` | src/ks.js:204-212 | `missing_field` for f is reported if and only if f is expected and the sample lacks f's key as an own key |
| `Drift.UnexpectedItemsMembership` | src/ks.js:215-225 | `unexpected_field` for k is reported if and only if k is a sample key, not an expected key, not `_`-prefixed and not `id` |
| `Drift.DifferencesMembership` | src/ks.js:203-225 | every item of the differences list is one of those two kinds, and each kind occurs exactly under its condition |
| `Drift.DifferencesLayout` | src/ks.js:180-225 | no `missing_field` item follows an `unexpected_field` item |
| `Drift.DifferencesEmptyIff` | src/ks.js:203-229 | there are no differences if and only if every expected key is an own key of the sample and every sample key is expected or exempt |
| `Drift.AbsentSampleAllMissing` | src/ks.js:204-215 | with no sample record, the differences are exactly one `missing_field` per expected field, in order |
| `Drift.EmptyRecordLikeAbsent` | src/ks.js:175-225 | a present record with no own enumerable keys yields the same differences as an absent record (an empty array, up to its own `length` key, which the model ignores) |
| `Drift.ExemptKeysNeverReported` | src/ks.js:218 | a key starting with `_`, or `id`, never appears as `unexpected_field` |
| `Drift.ArraySampling` | src/ks.js:175-177 | for a non-empty array only the first element is compared; an empty array compares like an absent record (its own `length` key ignored) |
| `Drift.NoFieldsExpectNothing` | src/ks.js:171-201 | an object whose field list is the empty array expects no field, whatever the view's columns |
| `Drift.EmptyFieldListReportsEveryKey` | src/ks.js:171-225 | against an object with `fields: []`, an item is reported exactly when it is an `unexpected_field` for a non-exempt own key of the sample; nothing is missing |
| `Drift.MissingAndUnexpectedExample` | src/ks.js:203-225 | with fields a and b expected and the record `{a, c}`, the result is exactly one `missing_field` b and then one `unexpected_field` c |
| `Cache.StoreIdsAreNamespaced` | src/ks.js:56-76 | an object id never equals a view id, and each namespace maps distinct keys to distinct ids |
| `Cache.ObjectMemoryHit` | src/ks.js:46-48 | a memory hit returns the cached object and leaves memory and store unchanged |
| `Cache.ObjectResultIsRemembered` | src/ks.js:62-83 | whenever an object is returned, memory afterwards maps the key to exactly that object, and the next lookup of the key is a memory hit returning it with no change |
| `Cache.ObjectMissCachesNothing` | src/ks.js:50-90 | `null` is returned exactly on a memory miss when the store cannot be opened, or when the read yields nothing and the snapshot lacks the key; then nothing changes |
| `Cache.ObjectStoreWrite` | src/ks.js:62-79 | the store changes only on a memory miss with an open store, an empty or failed read, a snapshot hit and an effective write; then only `"object_" + key` changes, to the snapshot object with the timestamp |
| `Cache.ObjectStoreHitNeverWrites` | src/ks.js:62-65 | when the store holds the object and the read succeeds, the store is left unchanged |
| `Cache.ObjectLookupOnlyAdds` | src/ks.js:44-91 | an object lookup leaves the view map alone, adds at most its own key to the object map, and changes no existing entry |
| `Cache.ObjectLookupKeepsNamespacing` | src/ks.js:73-79 | after an object lookup, object ids still hold objects and view ids still hold views, and no view id is added or removed |
| `Cache.ViewMemoryHit` | src/ks.js:96-98 | a memory hit returns the cached view and leaves memory and store unchanged |
| `Cache.ViewResultIsRemembered` | src/ks.js:112-144 | whenever a view is returned, memory afterwards maps the key to exactly that view, and the next lookup of the key is a memory hit returning it with no change |
| `Cache.ViewMissCachesNothing` | src/ks.js:100-152 | `null` is returned exactly on a memory miss when the store cannot be opened, or when the read yields nothing and no scene's views contain the key; then nothing changes |
| `Cache.ViewStoreWrite` | src/ks.js:112-141 | the store changes only on a memory miss with an open store, an empty or failed read, a snapshot hit and an effective write; then only `"view_" + key` changes, to the returned scene-stamped view with the timestamp |
| `Cache.ViewStoreHitNeverWrites` | src/ks.js:112-115 | when the store holds the view and the read succeeds, the store is left unchanged |
| `Cache.ViewFromSnapshot` | src/ks.js:117-132 | on a miss in both tiers with the key in some scene, the view returned is the first view with that key in the first scene containing it, carrying that scene's key, name and slug |
| `Cache.ViewLookupOnlyAdds` | src/ks.js:94-153 | a view lookup leaves the object map alone, adds at most its own key to the view map, and changes no existing entry |
| `Cache.ViewLookupKeepsNamespacing` | src/ks.js:135-141 | after a view lookup, object ids still hold objects and view ids still hold views, and no object id is added or removed |
| `Cache.NoContractMatches` | src/ks.js:159-173 | with no view, a view without `source.object`, no object, or an object without `fields`, the comparison is `{matches: true, differences: []}` whatever the payload |
| `Cache.CompareMatchesIffNoDifferences` | src/ks.js:227-230 | every comparison has `matches` true exactly when its differences list is empty |
| `Cache.MetadataCache.constructor` | src/ks.js:8-15 | a new cache has empty memory maps in front of the persisted store, with the snapshot fixed |
| `Cache.MetadataCache.GetObjectMetadata` | src/ks.js:44-91 | the result and the new memory maps and store are exactly those `LookupObject` gives for the old state; store namespacing is kept |
| `Cache.MetadataCache.GetViewMetadata` | src/ks.js:94-153 | the result and the new memory maps and store are exactly those `LookupView` gives for the old state; store namespacing is kept |
| `Cache.MetadataCache.CompareDataWithMetadata` | src/ks.js:156-230 | the result and the new state are exactly those `Compare` gives: the view lookup stamped `viewNow`, then the object lookup stamped `objectNow`, then the drift of the payload |
| `Scenarios.ColdLookups` | src/ks.js:117-132 | on a cold cache, `view_1` resolves stamped with its scene `{scene_1, Home, home}` and `obj1` resolves to its snapshot definition |
| `Scenarios.View1Expects` | src/ks.js:183-201 | one column on `field_1` over an object defining `field_1` expects exactly that field |
| `Scenarios.ColdCompare` | src/ks.js:156-230 | on a cold cache, comparing against `view_1` compares the payload with the fields of `obj1` |
| `Scenarios.UnexpectedFieldScenario` | src/ks.js:156-230 | `{field_1, field_2}` gives `{matches: false, differences: [unexpected_field field_2]}` |
| `Scenarios.IdExemptScenario` | src/ks.js:156-230 | `{id, field_1}` gives `{matches: true, differences: []}` |

## Left out

- `initMetadataDb` (src/ks.js:18-41): opening IndexedDB, the upgrade callback and the lazily cached `db` handle are browser I/O. Their outcome enters each lookup as `StoreAccess.opens`.
- IndexedDB transactions and promises: a `get` is a map lookup, and a `put` is a map update or, when it fails, no update at all.
- `Date.now()`: the timestamp of a stored entry is a parameter, one per lookup.
- The `catch` branches (src/ks.js:87-90, 149-152, 231-234) and their console logging. Every failure that reaches a lookup's `catch` (the store failing to open, or `db.transaction` or `put` throwing) is modelled by `StoreAccess.opens = false`, which returns `null` and caches nothing, as the `catch` does. The comparison's `{matches: false, error}` result comes from two kinds of JavaScript exception. One is ill-typed metadata, such as a `columns` or `fields` value that is not an array. The other is a sample whose `hasOwnProperty` is not the inherited method: a record with an own key `hasOwnProperty`, or a null-prototype object, makes the call at src/ks.js:205 throw as soon as one field is expected. The model has no error variant. In those cases it reports differences instead. For example, the record `{hasOwnProperty: 1}` against a view expecting `field_1` gives `{false, [missing_field field_1, unexpected_field hasOwnProperty]}` where the code returns `{matches: false, error}`.
- `registerViewHandlers`, `init` and `processViewData` (src/ks.js:237-309): jQuery event subscription, start-up glue and logging.
- Concurrency: interleaved asynchronous lookups are not modelled. Each lookup runs to completion as one step.
- JavaScript object quirks: memory hits are modelled as map membership, not as truthiness of `metadataCache.objects[key]`, so inherited keys such as `constructor` are not modelled. An empty-array sample has no own enumerable keys, but `[].hasOwnProperty("length")` is true. The model ignores that, so with payload `[]` and an expected field keyed `length` it reports `missing_field` where the code reports nothing.
- Records are given by their own enumerable keys. Values play no part in the comparison and are not modelled.
- Mutation of the snapshot's view: the source assigns `viewData.scene` on the snapshot's own view object. The model returns and caches a stamped copy and keeps the snapshot immutable. Every later snapshot lookup of the same key stamps the same scene, so lookups cannot tell the two apart.
