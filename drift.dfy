/**
  The schema-drift detector of src/ks.js (`compareDataWithMetadata`, once the view
  and its object have been resolved): the expected field list is built from the
  view's columns, and a sample record of the payload is compared with it.

  The functions are the specification; `BuildExpectedFields` and
  `FindDifferences` are the `forEach`/`push` loops of the source, proved to
  compute them.
 */
module Drift {
  import opened Wrappers
  import opened Schema

  /** A sample record, given by its own enumerable keys; `None` is a null or missing record. */
  type Sample = Option<seq<string>>

  /** The data delivered with a view render: a single record, or an array of records. */
  datatype Payload = Single(record: Sample) | Rows(rows: seq<Sample>)

  /** One structural difference between the sample record and the view's fields. */
  datatype DriftItem = MissingField(field: Field) | UnexpectedField(key: string)

  /** `{matches, differences}` */
  datatype DriftResult = DriftResult(matches: bool, differences: seq<DriftItem>)

  /** The answer when there is no structural contract to check against. */
  const NoContract := DriftResult(true, [])

  /**
    The record inspected: the first element of a non-empty array, the payload
    itself otherwise. An empty array is itself the sample: a present value with
    no own enumerable keys (its own `length` key is not modelled).
   */
  function SampleOf(data: Payload): Sample
  {
    match data
    case Single(record) => record
    case Rows(rows) => if |rows| > 0 then rows[0] else Some([])
  }

  /** `column.field && column.field.key`: the referenced key, when present and non-empty. */
  function ReferencedKey(column: Column): Option<string>
  {
    if column.fieldKey.Some? && column.fieldKey.value != "" then column.fieldKey else None
  }

  /** What one column adds to the expected fields: `{key, name, type}` of its field, if the object knows it. */
  function ColumnContribution(column: Column, fields: seq<Field>): seq<Field>
  {
    match ReferencedKey(column)
    case None => []
    case Some(fieldKey) =>
      match FindField(fields, fieldKey)
      case None => []
      case Some(f) => [Field(fieldKey, f.name, f.fieldType)]
  }

  /** The expected fields of a view with these columns over an object with these fields. */
  function ExpectedFields(columns: seq<Column>, fields: seq<Field>): seq<Field>
  {
    if |columns| == 0 then []
    else ExpectedFields(columns[..|columns| - 1], fields) + ColumnContribution(columns[|columns| - 1], fields)
  }

  /** `sampleData && sampleData.hasOwnProperty(key)` */
  predicate Present(sample: Sample, key: string)
  {
    sample.Some? && key in sample.value
  }

  /** `expectedFields.some(f => f.key === key)` */
  predicate IsExpectedKey(expected: seq<Field>, key: string)
  {
    exists i :: 0 <= i < |expected| && expected[i].key == key
  }

  /** Keys never reported as unexpected: those starting with `_`, and `id`. */
  predicate Exempt(key: string)
  {
    "_" <= key || key == "id"
  }

  /** One `missing_field` per expected field absent from the sample, in order. */
  function MissingItems(expected: seq<Field>, sample: Sample): seq<DriftItem>
  {
    if |expected| == 0 then []
    else
      var f := expected[|expected| - 1];
      MissingItems(expected[..|expected| - 1], sample) + (if Present(sample, f.key) then [] else [MissingField(f)])
  }

  /** One `unexpected_field` per sample key that is neither expected nor exempt, in order. */
  function UnexpectedItems(keys: seq<string>, expected: seq<Field>): seq<DriftItem>
  {
    if |keys| == 0 then []
    else
      var k := keys[|keys| - 1];
      UnexpectedItems(keys[..|keys| - 1], expected) + (if IsExpectedKey(expected, k) || Exempt(k) then [] else [UnexpectedField(k)])
  }

  /** The differences list: all missing fields first, then all unexpected keys. */
  function Differences(expected: seq<Field>, sample: Sample): seq<DriftItem>
  {
    MissingItems(expected, sample) + (if sample.Some? then UnexpectedItems(sample.value, expected) else [])
  }

  /** The comparison of a payload with a view's columns over its object's fields. */
  function DriftOf(columns: Option<seq<Column>>, fields: seq<Field>, data: Payload): DriftResult
  {
    var expected := if columns.Some? then ExpectedFields(columns.value, fields) else [];
    var differences := Differences(expected, SampleOf(data));
    DriftResult(|differences| == 0, differences)
  }

  /** The `columns.forEach` loop that pushes one expected field per known column field. */
  method BuildExpectedFields(columns: seq<Column>, fields: seq<Field>) returns (expected: seq<Field>)
    ensures expected == ExpectedFields(columns, fields)
  {
    expected := [];
    for i := 0 to |columns|
      invariant expected == ExpectedFields(columns[..i], fields)
    {
      var column := columns[i];
      if column.fieldKey.Some? && column.fieldKey.value != "" {
        var fieldKey := column.fieldKey.value;
        var fieldMetadata := FindField(fields, fieldKey);
        if fieldMetadata.Some? {
          expected := expected + [Field(fieldKey, fieldMetadata.value.name, fieldMetadata.value.fieldType)];
        }
      }
      assert columns[..i + 1][..i] == columns[..i];
    }
    assert columns[..|columns|] == columns;
  }

  /** The two `forEach` loops that push the missing and then the unexpected items. */
  method FindDifferences(expected: seq<Field>, sample: Sample) returns (differences: seq<DriftItem>)
    ensures differences == Differences(expected, sample)
  {
    differences := [];
    for i := 0 to |expected|
      invariant differences == MissingItems(expected[..i], sample)
    {
      var field := expected[i];
      var fieldExists := sample.Some? && field.key in sample.value;
      if !fieldExists {
        differences := differences + [MissingField(field)];
      }
      assert expected[..i + 1][..i] == expected[..i];
    }
    assert expected[..|expected|] == expected;
    if sample.Some? {
      var keys := sample.value;
      ghost var missing := differences;
      for i := 0 to |keys|
        invariant differences == missing + UnexpectedItems(keys[..i], expected)
      {
        var key := keys[i];
        var fieldInMetadata := exists j :: 0 <= j < |expected| && expected[j].key == key;
        if !fieldInMetadata && !("_" <= key) && key != "id" {
          differences := differences + [UnexpectedField(key)];
        }
        assert keys[..i + 1][..i] == keys[..i];
      }
      assert keys[..|keys|] == keys;
    }
  }

  // ---------------------------------------------------------------------------
  // Expected fields

  /** Column order is kept: the fields of a concatenation are the concatenation of the fields. */
  lemma {:induction false} ExpectedFieldsAppend(a: seq<Column>, b: seq<Column>, fields: seq<Field>)
    ensures ExpectedFields(a + b, fields) == ExpectedFields(a, fields) + ExpectedFields(b, fields)
  {
    if |b| == 0 {
      assert a + b == a;
    } else {
      var b' := b[..|b| - 1];
      assert (a + b)[..|a + b| - 1] == a + b';
      assert (a + b)[|a + b| - 1] == b[|b| - 1];
      ExpectedFieldsAppend(a, b', fields);
    }
  }

  /** A column contributes exactly the first definition of its referenced field, if there is one. */
  lemma ColumnContributionIsFirstDefinition(column: Column, fields: seq<Field>)
    ensures ColumnContribution(column, fields) ==
      if ReferencedKey(column).Some? && FindField(fields, ReferencedKey(column).value).Some?
      then [FindField(fields, ReferencedKey(column).value).value]
      else []
  {
  }

  /**
    A field definition is expected exactly when it is the first definition of
    its key in the object and some column references that key.
   */
  lemma {:induction false} ExpectedFieldsMembership(columns: seq<Column>, fields: seq<Field>, f: Field)
    ensures f in ExpectedFields(columns, fields) <==>
      FindField(fields, f.key) == Some(f) &&
      exists i :: 0 <= i < |columns| && ReferencedKey(columns[i]) == Some(f.key)
  {
    if |columns| > 0 {
      var init, last := columns[..|columns| - 1], columns[|columns| - 1];
      ExpectedFieldsMembership(init, fields, f);
      ColumnContributionIsFirstDefinition(last, fields);
      if FindField(fields, f.key) == Some(f) && exists i :: 0 <= i < |columns| && ReferencedKey(columns[i]) == Some(f.key) {
        var i :| 0 <= i < |columns| && ReferencedKey(columns[i]) == Some(f.key);
        if i < |columns| - 1 {
          assert init[i] == columns[i];
        }
      }
      if f in ExpectedFields(init, fields) {
        var i :| 0 <= i < |init| && ReferencedKey(init[i]) == Some(f.key);
        assert columns[i] == init[i];
      }
    }
  }

  /** There is at most one expected field per column. */
  lemma {:induction false} ExpectedFieldsAtMostOnePerColumn(columns: seq<Column>, fields: seq<Field>)
    ensures |ExpectedFields(columns, fields)| <= |columns|
  {
    if |columns| > 0 {
      ExpectedFieldsAtMostOnePerColumn(columns[..|columns| - 1], fields);
    }
  }

  // ---------------------------------------------------------------------------
  // Differences

  /** A field is reported missing exactly when it is expected and the sample lacks its key. */
  lemma {:induction false} MissingItemsMembership(expected: seq<Field>, sample: Sample, item: DriftItem)
    ensures item in MissingItems(expected, sample) <==>
      item.MissingField? && item.field in expected && !Present(sample, item.field.key)
  {
    if |expected| > 0 {
      var init := expected[..|expected| - 1];
      MissingItemsMembership(init, sample, item);
      assert expected == init + [expected[|expected| - 1]];
    }
  }

  /** A key is reported unexpected exactly when the sample has it and it is neither expected nor exempt. */
  lemma {:induction false} UnexpectedItemsMembership(keys: seq<string>, expected: seq<Field>, item: DriftItem)
    ensures item in UnexpectedItems(keys, expected) <==>
      item.UnexpectedField? && item.key in keys && !IsExpectedKey(expected, item.key) && !Exempt(item.key)
  {
    if |keys| > 0 {
      var init := keys[..|keys| - 1];
      UnexpectedItemsMembership(init, expected, item);
      assert keys == init + [keys[|keys| - 1]];
    }
  }

  /** Every item of the differences list is one of the two kinds, described by its membership. */
  lemma DifferencesMembership(expected: seq<Field>, sample: Sample, item: DriftItem)
    ensures item in Differences(expected, sample) <==>
      (item.MissingField? && item.field in expected && !Present(sample, item.field.key)) ||
      (item.UnexpectedField? && Present(sample, item.key) && !IsExpectedKey(expected, item.key) && !Exempt(item.key))
  {
    MissingItemsMembership(expected, sample, item);
    if sample.Some? {
      UnexpectedItemsMembership(sample.value, expected, item);
    }
  }

  /** The layout: every `missing_field` item comes before every `unexpected_field` item. */
  lemma DifferencesLayout(expected: seq<Field>, sample: Sample)
    ensures var d := Differences(expected, sample);
      forall i, j :: 0 <= i < j < |d| && d[i].UnexpectedField? ==> d[j].UnexpectedField?
  {
    var m := MissingItems(expected, sample);
    var u := if sample.Some? then UnexpectedItems(sample.value, expected) else [];
    forall i | 0 <= i < |m| ensures m[i].MissingField? {
      MissingItemsMembership(expected, sample, m[i]);
    }
    forall j | 0 <= j < |u| ensures u[j].UnexpectedField? {
      UnexpectedItemsMembership(sample.value, expected, u[j]);
    }
  }

  /**
    No differences exactly when every expected key is an own key of the sample
    and every key of the sample is expected or exempt.
   */
  lemma DifferencesEmptyIff(expected: seq<Field>, sample: Sample)
    ensures Differences(expected, sample) == [] <==>
      (forall i :: 0 <= i < |expected| ==> Present(sample, expected[i].key)) &&
      (sample.Some? ==> forall k :: k in sample.value ==> IsExpectedKey(expected, k) || Exempt(k))
  {
    var d := Differences(expected, sample);
    if d == [] {
      forall i | 0 <= i < |expected| ensures Present(sample, expected[i].key) {
        DifferencesMembership(expected, sample, MissingField(expected[i]));
      }
      if sample.Some? {
        forall k | k in sample.value ensures IsExpectedKey(expected, k) || Exempt(k) {
          DifferencesMembership(expected, sample, UnexpectedField(k));
        }
      }
    } else {
      DifferencesMembership(expected, sample, d[0]);
    }
  }

  /** Without a sample record every expected field is reported missing, in order, and nothing else. */
  lemma {:induction false} AbsentSampleAllMissing(expected: seq<Field>)
    ensures |Differences(expected, None)| == |expected|
    ensures forall i :: 0 <= i < |expected| ==> Differences(expected, None)[i] == MissingField(expected[i])
  {
    if |expected| > 0 {
      AbsentSampleAllMissing(expected[..|expected| - 1]);
    }
  }

  /** A present record with no keys is compared exactly like an absent one. */
  lemma {:induction false} EmptyRecordLikeAbsent(expected: seq<Field>)
    ensures MissingItems(expected, Some([])) == MissingItems(expected, None)
    ensures Differences(expected, Some([])) == Differences(expected, None)
  {
    if |expected| > 0 {
      EmptyRecordLikeAbsent(expected[..|expected| - 1]);
    }
  }

  /** Keys starting with `_`, and `id`, are never reported as unexpected. */
  lemma ExemptKeysNeverReported(expected: seq<Field>, sample: Sample, key: string)
    requires "_" <= key || key == "id"
    ensures UnexpectedField(key) !in Differences(expected, sample)
  {
    DifferencesMembership(expected, sample, UnexpectedField(key));
  }

  /**
    Only the first element of a non-empty array is inspected, and an empty array
    is compared like an absent record.
   */
  lemma ArraySampling(columns: Option<seq<Column>>, fields: seq<Field>, rows: seq<Sample>)
    ensures |rows| > 0 ==> DriftOf(columns, fields, Rows(rows)) == DriftOf(columns, fields, Single(rows[0]))
    ensures |rows| == 0 ==> DriftOf(columns, fields, Rows(rows)) == DriftOf(columns, fields, Single(None))
  {
    var expected := if columns.Some? then ExpectedFields(columns.value, fields) else [];
    EmptyRecordLikeAbsent(expected);
  }

  /** An object whose field list is empty expects nothing, whatever the columns. */
  lemma {:induction false} NoFieldsExpectNothing(columns: seq<Column>)
    ensures ExpectedFields(columns, []) == []
  {
    if |columns| > 0 {
      NoFieldsExpectNothing(columns[..|columns| - 1]);
    }
  }

  /**
    Against an object with an empty field list, nothing is missing and every
    non-exempt key of the sample is reported unexpected.
   */
  lemma EmptyFieldListReportsEveryKey(columns: Option<seq<Column>>, data: Payload, item: DriftItem)
    ensures item in DriftOf(columns, [], data).differences <==>
      item.UnexpectedField? && Present(SampleOf(data), item.key) && !Exempt(item.key)
  {
    if columns.Some? {
      NoFieldsExpectNothing(columns.value);
    }
    DifferencesMembership([], SampleOf(data), item);
  }

  /** Fields `a` and `b` are expected, the record is `{a: 1, c: 2}`: one missing `b`, one unexpected `c`. */
  lemma MissingAndUnexpectedExample()
    ensures Differences([Field("a", "A", "text"), Field("b", "B", "text")], Some(["a", "c"])) ==
      [MissingField(Field("b", "B", "text")), UnexpectedField("c")]
  {
    var fa, fb := Field("a", "A", "text"), Field("b", "B", "text");
    var expected := [fa, fb];
    var keys := ["a", "c"];
    assert MissingItems(expected, Some(keys)) == [MissingField(fb)] by {
      assert expected[..1] == [fa] && [fa][..0] == [];
      assert Present(Some(keys), "a") by { assert keys[0] == "a"; }
      assert !Present(Some(keys), "b") by { assert "b"[0] != "a"[0] && "b"[0] != "c"[0]; }
      assert MissingItems([fa], Some(keys)) == [];
    }
    assert UnexpectedItems(keys, expected) == [UnexpectedField("c")] by {
      assert keys[..1] == ["a"] && ["a"][..0] == [];
      assert IsExpectedKey(expected, "a") by { assert expected[0].key == "a"; }
      assert !IsExpectedKey(expected, "c") by { assert "c"[0] != "a"[0] && "c"[0] != "b"[0]; }
      assert !Exempt("c") by { assert "c"[0] != '_'; }
      assert UnexpectedItems(["a"], expected) == [];
      assert UnexpectedItems(keys, expected) == UnexpectedItems(["a"], expected) + [UnexpectedField("c")];
    }
  }
}
