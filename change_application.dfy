/**
 * What an `UPDATESCHEMA` record means for the schema it is applied to: each
 * known key in its property map overwrites that property with the carried
 * value, and a field-order value rearranges the existing fields by name.
 * With this reading, applying `Diff(a, b)` to `a` leaves nothing to report
 * against `b`.
 */
module ChangeApplication {
  import opened Wrappers
  import opened Schemas
  import opened SchemaChanges
  import opened SchemaComparator

  /** A nullable text property after a record value: `Null` clears, other kinds leave it alone. */
  function SetText(current: Option<string>, v: Value): Option<string> {
    match v
    case Str(t) => Some(t)
    case Null => None
    case _ => current
  }

  /** Writing a nullable text as a record value and applying it gives back that text, `null` included. */
  lemma SetTextOfTextValue(current: Option<string>, t: Option<string>)
    ensures SetText(current, TextValue(t)) == t
  {
  }

  /** The container flag after a record value; non-flag values leave it alone. */
  function SetFlag(current: bool, v: Value): bool {
    match v
    case Bool(f) => f
    case _ => current
  }

  /**
   * The existing fields arranged by `order`: for each name, the field of
   * `fs` with that name; names without a field are skipped, and a field whose
   * name is not in `order` is dropped.
   */
  function Reorder(fs: seq<FieldSchema>, order: seq<string>): (r: seq<FieldSchema>)
    ensures forall i :: 0 <= i < |r| ==> r[i] in fs
    ensures (forall j :: 0 <= j < |order| ==> order[j] in FieldNames(fs)) ==> FieldNames(r) == order
  {
    if order == [] then []
    else
      match FindField(fs, order[0])
      case Some(f) => [f] + Reorder(fs, order[1..])
      case None => Reorder(fs, order[1..])
  }

  /** The field sequence after a field-order value; other kinds leave it alone. */
  function SetFieldOrder(fs: seq<FieldSchema>, v: Value): seq<FieldSchema> {
    match v
    case Names(order) => Reorder(fs, order)
    case _ => fs
  }

  /** Schema `s` after one record; records of other operations do not touch schema metadata. */
  function ApplyChange(s: Schema, c: Change): Schema {
    if c.op != UpdateSchema then s
    else
      var p := c.props;
      Schema(
        if NameKey in p then SetText(s.name, p[NameKey]) else s.name,
        if DescriptionKey in p then SetText(s.description, p[DescriptionKey]) else s.description,
        if ContainerFlagKey in p then SetFlag(s.container, p[ContainerFlagKey]) else s.container,
        if DisplayFieldKey in p then SetText(s.displayField, p[DisplayFieldKey]) else s.displayField,
        if SegmentFieldKey in p then SetText(s.segmentField, p[SegmentFieldKey]) else s.segmentField,
        if FieldOrderKey in p then SetFieldOrder(s.fields, p[FieldOrderKey]) else s.fields)
  }

  /** Schema `s` after the records of `cs`, applied in emission order. */
  function ApplyChanges(s: Schema, cs: seq<Change>): Schema
    decreases |cs|
  {
    if cs == [] then s else ApplyChanges(ApplyChange(s, cs[0]), cs[1..])
  }

  /** Applying a concatenation is applying its two parts one after the other. */
  lemma {:induction false} ApplyChangesAppend(s: Schema, xs: seq<Change>, ys: seq<Change>)
    ensures ApplyChanges(s, xs + ys) == ApplyChanges(ApplyChanges(s, xs), ys)
    decreases |xs|
  {
    if xs == [] {
      assert xs + ys == ys;
    } else {
      assert (xs + ys)[1..] == xs[1..] + ys;
      ApplyChangesAppend(ApplyChange(s, xs[0]), xs[1..], ys);
    }
  }

  /** Applying a name check moves `s` to the after-name and touches nothing else. */
  lemma ApplyNameCheck(s: Schema, v: Option<string>)
    ensures ApplyChanges(s, CompareProperty(NameKey, TextValue(s.name), TextValue(v))) == s.(name := v)
  {
  }

  /** Applying a container-flag check moves `s` to the after-flag and touches nothing else. */
  lemma ApplyContainerCheck(s: Schema, v: bool)
    ensures ApplyChanges(s, CompareProperty(ContainerFlagKey, Bool(s.container), Bool(v))) == s.(container := v)
  {
  }

  /** Applying a display-field check moves `s` to the after-display field and touches nothing else. */
  lemma ApplyDisplayFieldCheck(s: Schema, v: Option<string>)
    ensures ApplyChanges(s, CompareProperty(DisplayFieldKey, TextValue(s.displayField), TextValue(v)))
            == s.(displayField := v)
  {
  }

  /** Applying a segment-field check moves `s` to the after-segment field and touches nothing else. */
  lemma ApplySegmentFieldCheck(s: Schema, v: Option<string>)
    ensures ApplyChanges(s, CompareProperty(SegmentFieldKey, TextValue(s.segmentField), TextValue(v)))
            == s.(segmentField := v)
  {
  }

  /** Applying a description check moves `s` to the after-description and touches nothing else. */
  lemma ApplyDescriptionCheck(s: Schema, v: Option<string>)
    ensures ApplyChanges(s, CompareProperty(DescriptionKey, TextValue(s.description), TextValue(v)))
            == s.(description := v)
  {
  }

  /**
   * Applying a field-order check whose after-sequence names only existing
   * fields gives that name sequence, keeps every field's content and touches
   * no metadata.
   */
  lemma ApplyFieldOrderCheck(s: Schema, order: seq<string>)
    requires forall j :: 0 <= j < |order| ==> order[j] in FieldNames(s.fields)
    ensures var r := ApplyChanges(s, CompareProperty(FieldOrderKey, Names(FieldNames(s.fields)), Names(order)));
            && r == s.(fields := r.fields)
            && FieldNames(r.fields) == order
            && forall i :: 0 <= i < |r.fields| ==> r.fields[i] in s.fields
  {
  }

  /**
   * Round trip: when every field name of `after` already exists in `before`
   * (so no field has to be added), applying `Diff(before, after)` to `before`
   * gives a schema the comparator finds equal to `after`.
   */
  lemma DiffThenApply(before: Schema, after: Schema)
    requires forall j :: 0 <= j < |after.fields| ==> after.fields[j].name in FieldNames(before.fields)
    ensures Diff(ApplyChanges(before, Diff(before, after)), after) == []
  {
    var c1 := CompareProperty(NameKey, TextValue(before.name), TextValue(after.name));
    var c2 := CompareProperty(ContainerFlagKey, Bool(before.container), Bool(after.container));
    var c3 := CompareProperty(DisplayFieldKey, TextValue(before.displayField), TextValue(after.displayField));
    var c4 := CompareProperty(SegmentFieldKey, TextValue(before.segmentField), TextValue(after.segmentField));
    var c5 := CompareProperty(DescriptionKey, TextValue(before.description), TextValue(after.description));
    var c6 := CompareProperty(FieldOrderKey, Names(FieldNames(before.fields)), Names(FieldNames(after.fields)));
    var s1 := before.(name := after.name);
    var s2 := s1.(container := after.container);
    var s3 := s2.(displayField := after.displayField);
    var s4 := s3.(segmentField := after.segmentField);
    var s5 := s4.(description := after.description);
    var s6 := ApplyChanges(s5, c6);
    assert ApplyChanges(before, c1) == s1 by {
      ApplyNameCheck(before, after.name);
    }
    assert ApplyChanges(before, c1 + c2) == s2 by {
      ApplyChangesAppend(before, c1, c2);
      ApplyContainerCheck(s1, after.container);
    }
    assert ApplyChanges(before, c1 + c2 + c3) == s3 by {
      ApplyChangesAppend(before, c1 + c2, c3);
      ApplyDisplayFieldCheck(s2, after.displayField);
    }
    assert ApplyChanges(before, c1 + c2 + c3 + c4) == s4 by {
      ApplyChangesAppend(before, c1 + c2 + c3, c4);
      ApplySegmentFieldCheck(s3, after.segmentField);
    }
    assert ApplyChanges(before, c1 + c2 + c3 + c4 + c5) == s5 by {
      ApplyChangesAppend(before, c1 + c2 + c3 + c4, c5);
      ApplyDescriptionCheck(s4, after.description);
    }
    assert ApplyChanges(before, Diff(before, after)) == s6 by {
      assert Diff(before, after) == c1 + c2 + c3 + c4 + c5 + c6;
      ApplyChangesAppend(before, c1 + c2 + c3 + c4 + c5, c6);
    }
    assert SameSchemaLevel(s6, after) by {
      ApplyFieldOrderCheck(s5, FieldNames(after.fields));
    }
    DiffEmptyIff(s6, after);
  }
}
