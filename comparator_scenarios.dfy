/**
 * The comparator's documented cases, each on the minimal valid schema with
 * the properties the case sets. Each lemma states the complete result, which
 * includes what the case checks (size, operation kind, key and value).
 */
module ComparatorScenarios {
  import opened Wrappers
  import opened Schemas
  import opened SchemaChanges
  import opened SchemaComparator

  /** Two minimal schemas: no records. */
  lemma EmptySchema()
    ensures Diff(MinimalValidSchema(), MinimalValidSchema()) == []
  {
    DiffOfIdentical(MinimalValidSchema(), MinimalValidSchema());
  }

  /**
   * Fields `first, second` against `second, first`: exactly one `UPDATESCHEMA`
   * record whose field order is the full after-sequence, pre-existing fields included.
   */
  lemma SchemaFieldReorder()
    ensures var a := AddField(AddField(MinimalValidSchema(), HtmlFieldSchema("first")), HtmlFieldSchema("second"));
            var b := AddField(AddField(MinimalValidSchema(), HtmlFieldSchema("second")), HtmlFieldSchema("first"));
            var r := Diff(a, b);
            && |r| == 1
            && r[0].op == UpdateSchema
            && r[0].props == map[FieldOrderKey := Names(["displayFieldName", "segmentFieldName", "second", "first"])]
  {
    var m := MinimalValidSchema();
    var a := AddField(AddField(m, HtmlFieldSchema("first")), HtmlFieldSchema("second"));
    var b := AddField(AddField(m, HtmlFieldSchema("second")), HtmlFieldSchema("first"));
    assert b == a.(fields := b.fields);
    DiffOnlyFields(a, b.fields);
    assert FieldNames(b.fields) == ["displayFieldName", "segmentFieldName", "second", "first"];
    assert FieldNames(a.fields)[2] != FieldNames(b.fields)[2];
  }

  /** Fields `first, second` on both sides: no records. */
  lemma SchemaFieldNoReorder()
    ensures var a := AddField(AddField(MinimalValidSchema(), HtmlFieldSchema("first")), HtmlFieldSchema("second"));
            var b := AddField(AddField(MinimalValidSchema(), HtmlFieldSchema("first")), HtmlFieldSchema("second"));
            Diff(a, b) == []
  {
    var a := AddField(AddField(MinimalValidSchema(), HtmlFieldSchema("first")), HtmlFieldSchema("second"));
    DiffOfIdentical(a, a);
  }

  /** Segment field `segmentFieldName` against `displayFieldName`: the first record is `UPDATESCHEMA`. */
  lemma SegmentFieldUpdated()
    ensures var a := MinimalValidSchema().(segmentField := Some("segmentFieldName"));
            var b := MinimalValidSchema().(segmentField := Some("displayFieldName"));
            var r := Diff(a, b);
            && r == [UpdateOf(SegmentFieldKey, Str("displayFieldName"))]
            && r[0].op == UpdateSchema
  {
    var a := MinimalValidSchema().(segmentField := Some("segmentFieldName"));
    DiffOnlySegmentField(a, Some("displayFieldName"));
  }

  /** Display field `displayFieldName` against `segmentFieldName`: the first record is `UPDATESCHEMA`. */
  lemma DisplayFieldUpdated()
    ensures var a := MinimalValidSchema().(displayField := Some("displayFieldName"));
            var b := MinimalValidSchema().(displayField := Some("segmentFieldName"));
            var r := Diff(a, b);
            && r == [UpdateOf(DisplayFieldKey, Str("segmentFieldName"))]
            && r[0].op == UpdateSchema
  {
    var a := MinimalValidSchema().(displayField := Some("displayFieldName"));
    DiffOnlyDisplayField(a, Some("segmentFieldName"));
  }

  /** Container flag true against false: one `UPDATESCHEMA` record with `containerFlag = false`. */
  lemma ContainerFlagUpdated()
    ensures Diff(MinimalValidSchema().(container := true), MinimalValidSchema().(container := false))
            == [Change(UpdateSchema, map[ContainerFlagKey := Bool(false)])]
  {
    DiffOnlyContainer(MinimalValidSchema().(container := true), false);
  }

  /** Equal container flags, both true or both false: no records. */
  lemma ContainerFlagSame(flag: bool)
    ensures Diff(MinimalValidSchema().(container := flag), MinimalValidSchema().(container := flag)) == []
  {
    DiffOfIdentical(MinimalValidSchema().(container := flag), MinimalValidSchema().(container := flag));
  }

  /** Equal descriptions: no records. */
  lemma SameDescription()
    ensures Diff(MinimalValidSchema().(description := Some("test123")),
                 MinimalValidSchema().(description := Some("test123"))) == []
  {
    DiffOfIdentical(MinimalValidSchema().(description := Some("test123")),
                    MinimalValidSchema().(description := Some("test123")));
  }

  /** Description changed: one `UPDATESCHEMA` record with the new description. */
  lemma DescriptionUpdated()
    ensures Diff(MinimalValidSchema().(description := Some("test123")),
                 MinimalValidSchema().(description := Some("test123-changed")))
            == [Change(UpdateSchema, map[DescriptionKey := Str("test123-changed")])]
  {
    DiffOnlyDescription(MinimalValidSchema().(description := Some("test123")), Some("test123-changed"));
  }

  /** Description cleared: one `UPDATESCHEMA` record whose description is `Null`. */
  lemma DescriptionUpdatedToNull()
    ensures Diff(MinimalValidSchema().(description := Some("test123")),
                 MinimalValidSchema().(description := None))
            == [Change(UpdateSchema, map[DescriptionKey := Null])]
  {
    DiffOnlyDescription(MinimalValidSchema().(description := Some("test123")), None);
  }

  /** Equal names: no records. */
  lemma SameName()
    ensures Diff(MinimalValidSchema().(name := Some("test123")),
                 MinimalValidSchema().(name := Some("test123"))) == []
  {
    DiffOfIdentical(MinimalValidSchema().(name := Some("test123")), MinimalValidSchema().(name := Some("test123")));
  }

  /** Name changed: one `UPDATESCHEMA` record with the new name. */
  lemma NameUpdated()
    ensures Diff(MinimalValidSchema().(name := Some("test123")),
                 MinimalValidSchema().(name := Some("test123-changed")))
            == [Change(UpdateSchema, map[NameKey := Str("test123-changed")])]
  {
    DiffOnlyName(MinimalValidSchema().(name := Some("test123")), Some("test123-changed"));
  }
}
