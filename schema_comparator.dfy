/**
 * The schema comparator: `Diff(before, after)` lists, in a fixed order, one
 * `UPDATESCHEMA` record per schema-level property that differs, each carrying
 * the single key of that property bound to the after-value.
 */
module SchemaComparator {
  import opened Wrappers
  import opened Schemas
  import opened SchemaChanges

  /** The keys the comparator checks, in the order their records are emitted. */
  const ComparedKeys: seq<string> :=
    [NameKey, ContainerFlagKey, DisplayFieldKey, SegmentFieldKey, DescriptionKey, FieldOrderKey]

  /** The value of schema `s` under property key `key`, as a change record would carry it. */
  function Attribute(s: Schema, key: string): Value {
    if key == NameKey then TextValue(s.name)
    else if key == ContainerFlagKey then Bool(s.container)
    else if key == DisplayFieldKey then TextValue(s.displayField)
    else if key == SegmentFieldKey then TextValue(s.segmentField)
    else if key == DescriptionKey then TextValue(s.description)
    else if key == FieldOrderKey then Names(FieldNames(s.fields))
    else Null
  }

  /**
   * One null-safe property check: nothing when the values agree, otherwise
   * a single record carrying the after-value (possibly `Null`).
   */
  function CompareProperty(key: string, before: Value, after: Value): (r: seq<Change>)
    ensures r == [] <==> before == after
    ensures r != [] ==> r == [UpdateOf(key, after)]
  {
    if before == after then [] else [UpdateOf(key, after)]
  }

  /**
   * The comparator. Scalar checks come first (name, container flag, display
   * field, segment field, description), then the field-order check, which
   * compares the complete ordered name sequences and reports the complete
   * after-sequence.
   */
  function Diff(before: Schema, after: Schema): (r: seq<Change>)
    ensures |r| <= |ComparedKeys|
    ensures forall c :: c in r ==> c.op == UpdateSchema && |c.props| == 1
  {
    CompareProperty(NameKey, TextValue(before.name), TextValue(after.name))
    + CompareProperty(ContainerFlagKey, Bool(before.container), Bool(after.container))
    + CompareProperty(DisplayFieldKey, TextValue(before.displayField), TextValue(after.displayField))
    + CompareProperty(SegmentFieldKey, TextValue(before.segmentField), TextValue(after.segmentField))
    + CompareProperty(DescriptionKey, TextValue(before.description), TextValue(after.description))
    + CompareProperty(FieldOrderKey, Names(FieldNames(before.fields)), Names(FieldNames(after.fields)))
  }

  /** Two schemas agree on everything the comparator looks at. */
  predicate SameSchemaLevel(a: Schema, b: Schema) {
    && a.name == b.name
    && a.container == b.container
    && a.displayField == b.displayField
    && a.segmentField == b.segmentField
    && a.description == b.description
    && FieldNames(a.fields) == FieldNames(b.fields)
  }

  /** The comparator reports nothing exactly when the schemas agree on every compared property. */
  lemma DiffEmptyIff(a: Schema, b: Schema)
    ensures Diff(a, b) == [] <==> SameSchemaLevel(a, b)
  {
  }

  /** Comparing a schema with itself, or with an identical copy, yields no records. */
  lemma DiffOfIdentical(a: Schema, b: Schema)
    requires a == b
    ensures Diff(a, b) == []
  {
    DiffEmptyIff(a, b);
  }

  /**
   * Every compared key that differs has exactly its record, with the
   * after-value; a key that does not differ has none.
   */
  lemma DiffReportsChangedKeys(a: Schema, b: Schema, key: string)
    requires key in ComparedKeys
    ensures UpdateOf(key, Attribute(b, key)) in Diff(a, b) <==> Attribute(a, key) != Attribute(b, key)
  {
    DiffComparesKeysInOrder(a, b);
    ComparedKeysDistinct();
    CompareKeysReportsChangedKeys(a, b, ComparedKeys, key);
  }

  /** Every record names one compared key that differs, bound to the after-value. */
  lemma DiffRecordsAreChanges(a: Schema, b: Schema, i: nat)
    requires i < |Diff(a, b)|
    ensures exists key :: ReportedAs(a, b, Diff(a, b)[i], key)
  {
    var c := Diff(a, b)[i];
    assert c in Diff(a, b);
    if c in CompareProperty(NameKey, TextValue(a.name), TextValue(b.name)) {
      assert ReportedAs(a, b, c, NameKey);
    } else if c in CompareProperty(ContainerFlagKey, Bool(a.container), Bool(b.container)) {
      assert ReportedAs(a, b, c, ContainerFlagKey);
    } else if c in CompareProperty(DisplayFieldKey, TextValue(a.displayField), TextValue(b.displayField)) {
      assert ReportedAs(a, b, c, DisplayFieldKey);
    } else if c in CompareProperty(SegmentFieldKey, TextValue(a.segmentField), TextValue(b.segmentField)) {
      assert ReportedAs(a, b, c, SegmentFieldKey);
    } else if c in CompareProperty(DescriptionKey, TextValue(a.description), TextValue(b.description)) {
      assert ReportedAs(a, b, c, DescriptionKey);
    } else {
      assert ReportedAs(a, b, c, FieldOrderKey);
    }
  }

  /** Record `c` is the report of a difference under compared key `key`. */
  predicate ReportedAs(a: Schema, b: Schema, c: Change, key: string) {
    key in ComparedKeys && Attribute(a, key) != Attribute(b, key) && c == UpdateOf(key, Attribute(b, key))
  }

  /** The property checks for `keys`, one after the other. */
  function CompareKeys(a: Schema, b: Schema, keys: seq<string>): seq<Change> {
    if keys == [] then []
    else CompareProperty(keys[0], Attribute(a, keys[0]), Attribute(b, keys[0])) + CompareKeys(a, b, keys[1..])
  }

  /** The value under each compared key is the matching schema property. */
  lemma AttributeOfComparedKeys(s: Schema)
    ensures Attribute(s, NameKey) == TextValue(s.name)
    ensures Attribute(s, ContainerFlagKey) == Bool(s.container)
    ensures Attribute(s, DisplayFieldKey) == TextValue(s.displayField)
    ensures Attribute(s, SegmentFieldKey) == TextValue(s.segmentField)
    ensures Attribute(s, DescriptionKey) == TextValue(s.description)
    ensures Attribute(s, FieldOrderKey) == Names(FieldNames(s.fields))
  {
  }

  /** The compared keys are pairwise different. */
  lemma ComparedKeysDistinct()
    ensures forall p, q :: 0 <= p < q < |ComparedKeys| ==> ComparedKeys[p] != ComparedKeys[q]
  {
  }

  /** `Diff` is the sequence of property checks over `ComparedKeys`, in that order. */
  lemma DiffComparesKeysInOrder(a: Schema, b: Schema)
    ensures Diff(a, b) == CompareKeys(a, b, ComparedKeys)
  {
    AttributeOfComparedKeys(a);
    AttributeOfComparedKeys(b);
    var k5 := [FieldOrderKey];
    var k4 := [DescriptionKey] + k5;
    var k3 := [SegmentFieldKey] + k4;
    var k2 := [DisplayFieldKey] + k3;
    var k1 := [ContainerFlagKey] + k2;
    assert ComparedKeys == [NameKey] + k1;
    var c1 := CompareProperty(NameKey, Attribute(a, NameKey), Attribute(b, NameKey));
    var c2 := CompareProperty(ContainerFlagKey, Attribute(a, ContainerFlagKey), Attribute(b, ContainerFlagKey));
    var c3 := CompareProperty(DisplayFieldKey, Attribute(a, DisplayFieldKey), Attribute(b, DisplayFieldKey));
    var c4 := CompareProperty(SegmentFieldKey, Attribute(a, SegmentFieldKey), Attribute(b, SegmentFieldKey));
    var c5 := CompareProperty(DescriptionKey, Attribute(a, DescriptionKey), Attribute(b, DescriptionKey));
    var c6 := CompareProperty(FieldOrderKey, Attribute(a, FieldOrderKey), Attribute(b, FieldOrderKey));
    assert Diff(a, b) == c1 + c2 + c3 + c4 + c5 + c6;
    assert CompareKeys(a, b, ComparedKeys) == c1 + (c2 + (c3 + (c4 + (c5 + (c6 + []))))) by {
      CompareKeysCons(a, b, FieldOrderKey, []);
      CompareKeysCons(a, b, DescriptionKey, k5);
      CompareKeysCons(a, b, SegmentFieldKey, k4);
      CompareKeysCons(a, b, DisplayFieldKey, k3);
      CompareKeysCons(a, b, ContainerFlagKey, k2);
      CompareKeysCons(a, b, NameKey, k1);
    }
    AppendRegroup(c1, c2, c3, c4, c5, c6);
  }

  /** Regrouping a six-part concatenation. */
  lemma AppendRegroup(c1: seq<Change>, c2: seq<Change>, c3: seq<Change>, c4: seq<Change>, c5: seq<Change>, c6: seq<Change>)
    ensures c1 + c2 + c3 + c4 + c5 + c6 == c1 + (c2 + (c3 + (c4 + (c5 + (c6 + [])))))
  {
    assert c6 + [] == c6;
  }

  /** One unfolding of `CompareKeys`. */
  lemma CompareKeysCons(a: Schema, b: Schema, key: string, rest: seq<string>)
    ensures CompareKeys(a, b, [key] + rest)
            == CompareProperty(key, Attribute(a, key), Attribute(b, key)) + CompareKeys(a, b, rest)
  {
    assert ([key] + rest)[1..] == rest;
  }

  /** Every record of a run of property checks carries exactly one of the checked keys. */
  lemma {:induction false} CompareKeysCarriesCheckedKey(a: Schema, b: Schema, keys: seq<string>, i: nat)
    requires i < |CompareKeys(a, b, keys)|
    ensures exists p :: 0 <= p < |keys| && CompareKeys(a, b, keys)[i].props.Keys == {keys[p]}
    decreases |keys|
  {
    var head := CompareProperty(keys[0], Attribute(a, keys[0]), Attribute(b, keys[0]));
    if i < |head| {
      assert CompareKeys(a, b, keys)[i].props.Keys == {keys[0]};
    } else {
      CompareKeysCarriesCheckedKey(a, b, keys[1..], i - |head|);
      var p :| 0 <= p < |keys[1..]| && CompareKeys(a, b, keys[1..])[i - |head|].props.Keys == {keys[1..][p]};
      assert CompareKeys(a, b, keys)[i].props.Keys == {keys[p + 1]};
    }
  }

  /** Over distinct keys, no two records of a run of property checks carry the same key. */
  lemma {:induction false} CompareKeysDistinct(a: Schema, b: Schema, keys: seq<string>, i: nat, j: nat)
    requires forall p, q :: 0 <= p < q < |keys| ==> keys[p] != keys[q]
    requires i < j < |CompareKeys(a, b, keys)|
    ensures CompareKeys(a, b, keys)[i].props.Keys != CompareKeys(a, b, keys)[j].props.Keys
    decreases |keys|
  {
    var head := CompareProperty(keys[0], Attribute(a, keys[0]), Attribute(b, keys[0]));
    var tail := CompareKeys(a, b, keys[1..]);
    assert CompareKeys(a, b, keys) == head + tail;
    if i < |head| {
      CompareKeysCarriesCheckedKey(a, b, keys[1..], j - |head|);
      var p :| 0 <= p < |keys[1..]| && tail[j - |head|].props.Keys == {keys[1..][p]};
      assert keys[0] != keys[p + 1];
      assert keys[0] in CompareKeys(a, b, keys)[i].props.Keys;
    } else {
      CompareKeysDistinct(a, b, keys[1..], i - |head|, j - |head|);
    }
  }

  /**
   * Over distinct keys, a run of property checks holds the record for a
   * checked key exactly when that key's values differ.
   */
  lemma {:induction false} CompareKeysReportsChangedKeys(a: Schema, b: Schema, keys: seq<string>, key: string)
    requires forall p, q :: 0 <= p < q < |keys| ==> keys[p] != keys[q]
    requires key in keys
    ensures UpdateOf(key, Attribute(b, key)) in CompareKeys(a, b, keys) <==> Attribute(a, key) != Attribute(b, key)
    decreases |keys|
  {
    var c := UpdateOf(key, Attribute(b, key));
    var head := CompareProperty(keys[0], Attribute(a, keys[0]), Attribute(b, keys[0]));
    var tail := CompareKeys(a, b, keys[1..]);
    assert CompareKeys(a, b, keys) == head + tail;
    if key == keys[0] {
      forall i | 0 <= i < |tail| ensures tail[i] != c {
        CompareKeysCarriesCheckedKey(a, b, keys[1..], i);
        var p :| 0 <= p < |keys[1..]| && tail[i].props.Keys == {keys[1..][p]};
        assert keys[0] != keys[p + 1];
      }
    } else {
      assert key in keys[1..];
      CompareKeysReportsChangedKeys(a, b, keys[1..], key);
    }
  }

  /** No key is reported twice. */
  lemma DiffKeysDistinct(a: Schema, b: Schema, i: nat, j: nat)
    requires i < j < |Diff(a, b)|
    ensures Diff(a, b)[i].props.Keys != Diff(a, b)[j].props.Keys
  {
    DiffComparesKeysInOrder(a, b);
    ComparedKeysDistinct();
    CompareKeysDistinct(a, b, ComparedKeys, i, j);
  }

  /** Changing only the name yields one record with the new name (or `Null`), or none if equal. */
  lemma DiffOnlyName(a: Schema, name: Option<string>)
    ensures Diff(a, a.(name := name)) ==
            if a.name == name then [] else [UpdateOf(NameKey, TextValue(name))]
  {
  }

  /** Changing only the container flag yields one record with the new flag, or none if equal. */
  lemma DiffOnlyContainer(a: Schema, container: bool)
    ensures Diff(a, a.(container := container)) ==
            if a.container == container then [] else [UpdateOf(ContainerFlagKey, Bool(container))]
  {
  }

  /** Changing only the display field yields one record with the new display field. */
  lemma DiffOnlyDisplayField(a: Schema, displayField: Option<string>)
    ensures Diff(a, a.(displayField := displayField)) ==
            if a.displayField == displayField then []
            else [UpdateOf(DisplayFieldKey, TextValue(displayField))]
  {
  }

  /** Changing only the segment field yields one record with the new segment field. */
  lemma DiffOnlySegmentField(a: Schema, segmentField: Option<string>)
    ensures Diff(a, a.(segmentField := segmentField)) ==
            if a.segmentField == segmentField then []
            else [UpdateOf(SegmentFieldKey, TextValue(segmentField))]
  {
  }

  /**
   * Changing only the description yields one record with the new description;
   * clearing it yields a record whose value is `Null`, never an empty list.
   */
  lemma DiffOnlyDescription(a: Schema, description: Option<string>)
    ensures Diff(a, a.(description := description)) ==
            if a.description == description then []
            else [UpdateOf(DescriptionKey, TextValue(description))]
  {
  }

  /**
   * Replacing only the fields yields at most the field-order record, carrying the
   * complete after-sequence of names; same names in the same order yield nothing.
   */
  lemma DiffOnlyFields(a: Schema, fields: seq<FieldSchema>)
    ensures Diff(a, a.(fields := fields)) ==
            if FieldNames(a.fields) == FieldNames(fields) then []
            else [UpdateOf(FieldOrderKey, Names(FieldNames(fields)))]
  {
  }
}
