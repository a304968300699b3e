/**
  Concrete runs of the whole comparison on a cold cache: one object `obj1` with
  the field `field_1`, and a view `view_1` backed by it with one column on
  `field_1`.
 */
module Scenarios {
  import opened Wrappers
  import opened Schema
  import opened Drift
  import opened Cache

  const NameField := Field("field_1", "Name", "text")

  const View1 := ViewDef("view_1", Some([Column(Some("field_1"))]), Some("obj1"), None)

  const App := Snapshot(
    [ObjectDef("obj1", Some([NameField]))],
    [Scene("scene_1", "Home", "home", Some([View1]))])

  const Cold := Tiers(map[], map[], map[])

  const Healthy := StoreAccess(true, true, true)

  /** The view resolves to `view_1` stamped with its scene, and `obj1` resolves too. */
  lemma ColdLookups(viewNow: int, objectNow: int)
    ensures LookupView(Cold, App, "view_1", Healthy, viewNow).result ==
      Some(View1.(scene := Some(SceneRef("scene_1", "Home", "home"))))
    ensures LookupObject(Cold, App, "obj1", Healthy, objectNow).result == Some(ObjectDef("obj1", Some([NameField])))
  {
    assert HasView(App.scenes[0], "view_1") by { assert App.scenes[0].views.value[0].key == "view_1"; }
    assert FindFirst(App.scenes, (sc: Scene) => HasView(sc, "view_1")) == Some(0);
    assert FindFirst([View1], (v: ViewDef) => v.key == "view_1") == Some(0);
    assert FindFirst(App.objects, (o: ObjectDef) => o.key == "obj1") == Some(0);
  }

  /** The view's one column on `field_1` expects exactly the field `field_1` of `obj1`. */
  lemma View1Expects()
    ensures ExpectedFields(View1.columns.value, [NameField]) == [NameField]
  {
    assert [Column(Some("field_1"))][..0] == [];
    assert FindFirst([NameField], (f: Field) => f.key == "field_1") == Some(0);
    assert ReferencedKey(Column(Some("field_1"))) == Some("field_1") by { assert "field_1"[0] == 'f'; }
  }

  /** On a cold cache, comparing against `view_1` compares with the fields of `obj1`. */
  lemma ColdCompare(data: Payload, viewNow: int, objectNow: int)
    ensures Compare(Cold, App, "view_1", data, Healthy, Healthy, viewNow, objectNow).result ==
      DriftOf(View1.columns, [NameField], data)
  {
    ColdLookups(viewNow, objectNow);
    var v := LookupView(Cold, App, "view_1", Healthy, viewNow);
    assert "obj1" !in v.after.objects;
    assert FindFirst(App.objects, (o: ObjectDef) => o.key == "obj1") == Some(0);
  }

  /** `{field_1: "x", field_2: "y"}` reports `field_2` as the one unexpected field. */
  lemma UnexpectedFieldScenario(viewNow: int, objectNow: int)
    ensures Compare(Cold, App, "view_1", Single(Some(["field_1", "field_2"])), Healthy, Healthy, viewNow, objectNow).result ==
      DriftResult(false, [UnexpectedField("field_2")])
  {
    ColdCompare(Single(Some(["field_1", "field_2"])), viewNow, objectNow);
    View1Expects();
    var expected := [NameField];
    assert MissingItems(expected, Some(["field_1", "field_2"])) == [];
    assert IsExpectedKey(expected, "field_1") by { assert expected[0].key == "field_1"; }
    assert UnexpectedItems(["field_1"], expected) == [] by { assert ["field_1"][..0] == []; }
    assert ["field_1", "field_2"][..1] == ["field_1"];
    assert !IsExpectedKey(expected, "field_2");
    assert !Exempt("field_2") by { assert "field_2"[0] != '_'; }
  }

  /** `{id: "r1", field_1: "x"}` matches: `id` is exempt. */
  lemma IdExemptScenario(viewNow: int, objectNow: int)
    ensures Compare(Cold, App, "view_1", Single(Some(["id", "field_1"])), Healthy, Healthy, viewNow, objectNow).result ==
      DriftResult(true, [])
  {
    ColdCompare(Single(Some(["id", "field_1"])), viewNow, objectNow);
    View1Expects();
    var expected := [NameField];
    DifferencesEmptyIff(expected, Some(["id", "field_1"]));
    assert IsExpectedKey(expected, "field_1") by { assert expected[0].key == "field_1"; }
  }
}
