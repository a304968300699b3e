/**
  The schema metadata of a hosted application, as the host's loader exposes it:
  objects with their field definitions, and scenes that own views. Views name
  the object they are backed by and list columns that may reference fields.

  The searches here are the `find` / `some` calls of src/ks.js: each returns the
  FIRST element that matches.
 */
module Schema {
  import opened Wrappers

  /** A field definition of an object: `{key, name, type}`. */
  datatype Field = Field(key: string, name: string, fieldType: string)

  /** An object definition. `fields` is `None` when the record carries no field list. */
  datatype ObjectDef = ObjectDef(key: string, fields: Option<seq<Field>>)

  /** A view column; `fieldKey` is `column.field.key`, `None` when the column has no field. */
  datatype Column = Column(fieldKey: Option<string>)

  /** The back-reference a view receives to the scene that owns it. */
  datatype SceneRef = SceneRef(key: string, name: string, slug: string)

  /**
    A view definition. `sourceObject` is `source.object` (`None` when the view has
    no source or the source names no object); `scene` is filled in when the view
    is taken from the snapshot.
   */
  datatype ViewDef = ViewDef(
    key: string,
    columns: Option<seq<Column>>,
    sourceObject: Option<string>,
    scene: Option<SceneRef>)

  /** A scene of the application; `views` is `None` when the scene carries no view list. */
  datatype Scene = Scene(key: string, name: string, slug: string, views: Option<seq<ViewDef>>)

  /** The host's read-only metadata: the object list and the scene list. */
  datatype Snapshot = Snapshot(objects: seq<ObjectDef>, scenes: seq<Scene>)

  /** The index of the first element of `s` that satisfies `p`, if any. */
  function FindFirst<T>(s: seq<T>, p: T -> bool): (r: Option<nat>)
    ensures r.Some? ==> r.value < |s| && p(s[r.value])
    ensures r.Some? ==> forall j :: 0 <= j < r.value ==> !p(s[j])
    ensures r.None? ==> forall j :: 0 <= j < |s| ==> !p(s[j])
  {
    if |s| == 0 then None
    else if p(s[0]) then Some(0)
    else match FindFirst(s[1..], p)
      case None => None
      case Some(i) => Some(i + 1)
  }

  /** `objects.find(obj => obj.key === key)` */
  function FindObject(objects: seq<ObjectDef>, key: string): (r: Option<ObjectDef>)
    ensures r.None? <==> forall i :: 0 <= i < |objects| ==> objects[i].key != key
    ensures r.Some? ==> exists i :: 0 <= i < |objects| && objects[i] == r.value && IsFirstObject(objects, key, i)
  {
    match FindFirst(objects, (o: ObjectDef) => o.key == key)
    case None => None
    case Some(i) =>
      assert IsFirstObject(objects, key, i);
      Some(objects[i])
  }

  /** `objects[i]` is the first object whose key is `key`. */
  predicate IsFirstObject(objects: seq<ObjectDef>, key: string, i: nat)
  {
    i < |objects| && objects[i].key == key && forall j :: 0 <= j < i ==> objects[j].key != key
  }

  /** `fields.find(f => f.key === key)` */
  function FindField(fields: seq<Field>, key: string): (r: Option<Field>)
    ensures r.None? <==> forall i :: 0 <= i < |fields| ==> fields[i].key != key
    ensures r.Some? ==> r.value.key == key
    ensures r.Some? ==> exists i :: 0 <= i < |fields| && fields[i] == r.value && IsFirstField(fields, key, i)
  {
    match FindFirst(fields, (f: Field) => f.key == key)
    case None => None
    case Some(i) =>
      assert IsFirstField(fields, key, i);
      Some(fields[i])
  }

  /** `fields[i]` is the first field definition whose key is `key`. */
  predicate IsFirstField(fields: seq<Field>, key: string, i: nat)
  {
    i < |fields| && fields[i].key == key && forall j :: 0 <= j < i ==> fields[j].key != key
  }

  /** `scene.views && scene.views.some(view => view.key === key)` */
  predicate HasView(scene: Scene, key: string)
  {
    scene.views.Some? && exists j :: 0 <= j < |scene.views.value| && scene.views.value[j].key == key
  }

  /** The view with its `scene` back-reference set to the owning scene's `{key, name, slug}`. */
  function StampScene(view: ViewDef, scene: Scene): ViewDef
  {
    view.(scene := Some(SceneRef(scene.key, scene.name, scene.slug)))
  }

  /**
    The snapshot side of a view lookup: the first scene whose views contain `key`,
    then the first view with that key in it, stamped with that scene.
   */
  function FindViewInScenes(scenes: seq<Scene>, key: string): (r: Option<ViewDef>)
    ensures r.None? <==> forall i :: 0 <= i < |scenes| ==> !HasView(scenes[i], key)
    ensures r.Some? ==> exists i: nat, j: nat :: IsFirstViewAt(scenes, key, i, j) && r.value == StampScene(scenes[i].views.value[j], scenes[i])
  {
    match FindFirst(scenes, (sc: Scene) => HasView(sc, key))
    case None => None
    case Some(i) =>
      var views := scenes[i].views.value;
      match FindFirst(views, (v: ViewDef) => v.key == key)
      case None => None
      case Some(j) =>
        assert IsFirstViewAt(scenes, key, i, j);
        Some(StampScene(views[j], scenes[i]))
  }

  /**
    `scenes[i]` is the first scene holding a view with key `key`, and
    `scenes[i].views[j]` is the first such view in it.
   */
  predicate IsFirstViewAt(scenes: seq<Scene>, key: string, i: nat, j: nat)
  {
    && i < |scenes|
    && HasView(scenes[i], key)
    && (forall i' :: 0 <= i' < i ==> !HasView(scenes[i'], key))
    && j < |scenes[i].views.value|
    && scenes[i].views.value[j].key == key
    && (forall j' :: 0 <= j' < j ==> scenes[i].views.value[j'].key != key)
  }
}
