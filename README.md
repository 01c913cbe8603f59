# Schema comparator model

This project models the schema comparator of Gentics Mesh, `SchemaComparator.diff(before, after)`.
It compares two schema snapshots and returns an ordered list of change records (`SchemaChangeModel`).
Each record has an operation kind and a property map.
The comparator's own implementation is not part of this model.
Its behaviour is pinned down by the assertions of
`core/src/test/java/com/gentics/mesh/core/data/fieldhandler/schema/SchemaComparatorSchemaTest.java`,
and the model follows them.

Files:

- `wrappers.dfy` — `Option`, standing for Java's nullable references.
- `schema.dfy` (module `Schemas`) — a field definition, the schema snapshot, the field-name sequence, lookup by name, and the minimal valid schema the tests start from.
- `schema_change.dfy` (module `SchemaChanges`) — operation kinds, property values (`Null` is an explicit "cleared"), change records and the stable property keys.
- `schema_comparator.dfy` (module `SchemaComparator`) — `Diff` and its properties.
  `Diff` emits one `UPDATESCHEMA` record per differing schema-level property, in the fixed order name, container flag, display field, segment field, description.
  Each record holds one key bound to the after-value.
  It then compares the complete ordered field-name sequences and, if they differ, emits one `UPDATESCHEMA` record whose `fieldOrder` is the complete after-sequence.
- `change_application.dfy` (module `ChangeApplication`) — the meaning of an `UPDATESCHEMA` record: each key overwrites its property, and a field order arranges the existing fields by name, dropping any field whose name it does not list.
  This reading is the partner of `Diff`: when `b` introduces no field name that `a` lacks, applying `Diff(a, b)` to `a` yields a schema that `Diff` finds equal to `b`.
- `comparator_scenarios.dfy` (module `ComparatorScenarios`) — each documented test case, stated as the complete result of `Diff`.

The schema setters used to build inputs (`addField`, `setDescription`, `setContainer`, ...) become datatype updates.
A second `diff` call after further setters is a call on new values.

Where the test class is silent:

- The scalar checks run in the fixed order name, container flag, display field, segment field, description, followed by the field-order check.
  `SchemaComparatorSchemaTest.java` never has two differences at once, so it does not fix the order.
- The schema name is nullable here, like the other text properties.
  A Java `String` may be `null`, and the comparison is null-safe.
- Each differing property gets its own `UPDATESCHEMA` record; several keys never share one record.
  The test class never has two differences at once, so it does not show whether the comparator batches them.
- The string values of `NAME_KEY`, `DESCRIPTION_KEY`, `CONTAINER_FLAG_KEY`, `FIELD_ORDER_KEY` and `CONTAINER_FIELD_KEY` are not shown: the test class only imports these constants (`SchemaComparatorSchemaTest.java:4-8`).
  The model uses `name`, `description`, `containerFlag`, `fieldOrder` and `containerField`.

## Model

| member | source | states |
|---|---|---|
| Schemas.FieldNames | core/src/test/java/com/gentics/mesh/core/data/fieldhandler/schema/SchemaComparatorSchemaTest.java:50-51 | the field-order value is the name of every field, position by position, with the same length as the field sequence |
| Schemas.MinimalValidSchema | core/src/test/java/com/gentics/mesh/core/data/fieldhandler/schema/SchemaComparatorSchemaTest.java:33 | the minimal schema has fields `displayFieldName, segmentFieldName` in that order, uses them as display and segment field, has no description and is not a container |
| Schemas.AddField | core/src/test/java/com/gentics/mesh/core/data/fieldhandler/schema/SchemaComparatorSchemaTest.java:42-43 | adding a field keeps every existing field unchanged and in place, puts the new field last, and changes no metadata |
| SchemaChanges.TextValueInjective | core/src/test/java/com/gentics/mesh/core/data/fieldhandler/schema/SchemaComparatorSchemaTest.java:150-159 | two nullable texts give the same record value exactly when they are equal, so a cleared description is reported rather than taken as unchanged |
| SchemaComparator.Diff | core/src/test/java/com/gentics/mesh/core/data/fieldhandler/schema/SchemaComparatorSchemaTest.java:35 | every record is an `UPDATESCHEMA` record with a single-key property map, and there are at most six records |
| SchemaComparator.DiffComparesKeysInOrder | core/src/test/java/com/gentics/mesh/core/data/fieldhandler/schema/SchemaComparatorSchemaTest.java:35 | the result is the run of property checks over the keys name, container flag, display field, segment field, description, field order, in that order |
| SchemaComparator.DiffEmptyIff | core/src/test/java/com/gentics/mesh/core/data/fieldhandler/schema/SchemaComparatorSchemaTest.java:55-65 | the result is empty if and only if name, container flag, display field, segment field, description and the ordered field names all agree |
| SchemaComparator.DiffOfIdentical | core/src/test/java/com/gentics/mesh/core/data/fieldhandler/schema/SchemaComparatorSchemaTest.java:31-37 | comparing a schema with an identical one yields an empty list, for every schema |
| SchemaComparator.DiffReportsChangedKeys | core/src/test/java/com/gentics/mesh/core/data/fieldhandler/schema/SchemaComparatorSchemaTest.java:139-148 | for each compared key, the record binding it to the after-value is present if and only if the key's value differs |
| SchemaComparator.DiffRecordsAreChanges | core/src/test/java/com/gentics/mesh/core/data/fieldhandler/schema/SchemaComparatorSchemaTest.java:49-51 | every record binds one compared key whose value differs to the after-value; nothing else is emitted |
| SchemaComparator.DiffKeysDistinct | core/src/test/java/com/gentics/mesh/core/data/fieldhandler/schema/SchemaComparatorSchemaTest.java:109-111 | no property key is reported by two records |
| SchemaComparator.DiffOnlyName | core/src/test/java/com/gentics/mesh/core/data/fieldhandler/schema/SchemaComparatorSchemaTest.java:161-180 | changing only the name yields exactly `[UPDATESCHEMA{name: new name}]`, and an equal name yields `[]` |
| SchemaComparator.DiffOnlyContainer | core/src/test/java/com/gentics/mesh/core/data/fieldhandler/schema/SchemaComparatorSchemaTest.java:103-127 | changing only the container flag yields exactly `[UPDATESCHEMA{containerFlag: new flag}]`, and an equal flag yields `[]` |
| SchemaComparator.DiffOnlyDisplayField | core/src/test/java/com/gentics/mesh/core/data/fieldhandler/schema/SchemaComparatorSchemaTest.java:85-101 | changing only the display field yields exactly one `UPDATESCHEMA` record with the new display field, and an equal one yields `[]` |
| SchemaComparator.DiffOnlySegmentField | core/src/test/java/com/gentics/mesh/core/data/fieldhandler/schema/SchemaComparatorSchemaTest.java:67-83 | changing only the segment field yields exactly one `UPDATESCHEMA` record with the new segment field, and an equal one yields `[]` |
| SchemaComparator.DiffOnlyDescription | core/src/test/java/com/gentics/mesh/core/data/fieldhandler/schema/SchemaComparatorSchemaTest.java:129-159 | changing only the description yields exactly `[UPDATESCHEMA{description: new value}]`; clearing it yields a record whose value is `Null`; an equal one yields `[]` |
| SchemaComparator.DiffOnlyFields | core/src/test/java/com/gentics/mesh/core/data/fieldhandler/schema/SchemaComparatorSchemaTest.java:39-65 | replacing only the fields yields `[]` when the ordered names agree, and otherwise exactly one `UPDATESCHEMA` record whose `fieldOrder` is the complete after-sequence of names |
| ComparatorScenarios.EmptySchema | core/src/test/java/com/gentics/mesh/core/data/fieldhandler/schema/SchemaComparatorSchemaTest.java:31-37 | two minimal schemas yield an empty list (the same comparison as at :67-73 and :95-101) |
| ComparatorScenarios.SchemaFieldReorder | core/src/test/java/com/gentics/mesh/core/data/fieldhandler/schema/SchemaComparatorSchemaTest.java:39-52 | `first, second` against `second, first` yields exactly one `UPDATESCHEMA` record, with `fieldOrder = [displayFieldName, segmentFieldName, second, first]` and no other key |
| ComparatorScenarios.SchemaFieldNoReorder | core/src/test/java/com/gentics/mesh/core/data/fieldhandler/schema/SchemaComparatorSchemaTest.java:54-65 | the same fields in the same order yield an empty list |
| ComparatorScenarios.SegmentFieldUpdated | core/src/test/java/com/gentics/mesh/core/data/fieldhandler/schema/SchemaComparatorSchemaTest.java:75-83 | a changed segment field yields exactly one record, and the first record is `UPDATESCHEMA` |
| ComparatorScenarios.DisplayFieldUpdated | core/src/test/java/com/gentics/mesh/core/data/fieldhandler/schema/SchemaComparatorSchemaTest.java:85-93 | a changed display field yields exactly one record, and the first record is `UPDATESCHEMA` |
| ComparatorScenarios.ContainerFlagUpdated | core/src/test/java/com/gentics/mesh/core/data/fieldhandler/schema/SchemaComparatorSchemaTest.java:103-112 | container true against false yields exactly `[UPDATESCHEMA{containerFlag: false}]` |
| ComparatorScenarios.ContainerFlagSame | core/src/test/java/com/gentics/mesh/core/data/fieldhandler/schema/SchemaComparatorSchemaTest.java:114-127 | equal container flags, both true or both false, yield an empty list |
| ComparatorScenarios.SameDescription | core/src/test/java/com/gentics/mesh/core/data/fieldhandler/schema/SchemaComparatorSchemaTest.java:129-137 | equal descriptions yield an empty list |
| ComparatorScenarios.DescriptionUpdated | core/src/test/java/com/gentics/mesh/core/data/fieldhandler/schema/SchemaComparatorSchemaTest.java:139-148 | a changed description yields exactly `[UPDATESCHEMA{description: "test123-changed"}]` |
| ComparatorScenarios.DescriptionUpdatedToNull | core/src/test/java/com/gentics/mesh/core/data/fieldhandler/schema/SchemaComparatorSchemaTest.java:150-159 | a cleared description yields exactly `[UPDATESCHEMA{description: null}]`, not an empty list |
| ComparatorScenarios.SameName | core/src/test/java/com/gentics/mesh/core/data/fieldhandler/schema/SchemaComparatorSchemaTest.java:161-169 | equal names yield an empty list |
| ComparatorScenarios.NameUpdated | core/src/test/java/com/gentics/mesh/core/data/fieldhandler/schema/SchemaComparatorSchemaTest.java:171-180 | a changed name yields exactly `[UPDATESCHEMA{name: "test123-changed"}]` |
| ChangeApplication.SetTextOfTextValue | core/src/test/java/com/gentics/mesh/core/data/fieldhandler/schema/SchemaComparatorSchemaTest.java:150-159 | a text record value, `null` included, written back into a schema restores exactly that value |
| ChangeApplication.ApplyNameCheck | core/src/test/java/com/gentics/mesh/core/data/fieldhandler/schema/SchemaComparatorSchemaTest.java:171-180 | applying the name check's result sets the name to the after-name and changes nothing else |
| ChangeApplication.ApplyContainerCheck | core/src/test/java/com/gentics/mesh/core/data/fieldhandler/schema/SchemaComparatorSchemaTest.java:103-112 | applying the container-flag check's result sets the flag to the after-flag and changes nothing else |
| ChangeApplication.ApplyDisplayFieldCheck | core/src/test/java/com/gentics/mesh/core/data/fieldhandler/schema/SchemaComparatorSchemaTest.java:85-93 | applying the display-field check's result sets the display field to the after-value and changes nothing else |
| ChangeApplication.ApplySegmentFieldCheck | core/src/test/java/com/gentics/mesh/core/data/fieldhandler/schema/SchemaComparatorSchemaTest.java:75-83 | applying the segment-field check's result sets the segment field to the after-value and changes nothing else |
| ChangeApplication.ApplyDescriptionCheck | core/src/test/java/com/gentics/mesh/core/data/fieldhandler/schema/SchemaComparatorSchemaTest.java:139-159 | applying the description check's result sets the description to the after-value, clearing it when that is null, and changes nothing else |
| ChangeApplication.Reorder | core/src/test/java/com/gentics/mesh/core/data/fieldhandler/schema/SchemaComparatorSchemaTest.java:50-51 | arranging fields by a field-order value keeps every field's content, and when every name in the order exists the resulting names are exactly that order (fields it does not list are dropped) |
| ChangeApplication.ApplyFieldOrderCheck | core/src/test/java/com/gentics/mesh/core/data/fieldhandler/schema/SchemaComparatorSchemaTest.java:48-51 | when every name in the after-sequence is an existing field, applying the field-order check's result gives the after-sequence of names, keeps field contents, and leaves all metadata alone |
| ChangeApplication.DiffThenApply | core/src/test/java/com/gentics/mesh/core/data/fieldhandler/schema/SchemaComparatorSchemaTest.java:103-180 | when the after-schema adds no field, applying `Diff(a, b)` to `a` gives a schema that `Diff` finds equal to `b`: the records carry after-values and together describe every difference |

## Left out

- Diff: emits only schema-level records. Field-level `ADDFIELD`, `REMOVEFIELD` and `UPDATEFIELD` records, and the per-field comparison of type, required flag and constraints, are not modelled. No assertion of the test class exercises them. So `Diff` is empty when two schemas differ only in field contents, where the comparator would report field updates.
- DiffEmptyIff: states emptiness of the schema-level result only, for the reason given for `Diff`.
- DiffThenApply: requires that the after-schema introduces no new field name, because adding a field needs an `ADDFIELD` record, which is not modelled.
  A field removed in the after-schema is dropped by the `fieldOrder` record in this reading; the comparator would also report it with a `REMOVEFIELD` record, which is not modelled.
- The `containerField` key is declared but never produced: no assertion uses it.
- The test class does not name the keys for the display field and the segment field. The model uses `displayField` and `segmentField`.
- `FieldUtil` is not part of this model. The model uses stand-ins for its three constructors: `MinimalValidSchema` for `createMinimalValidSchema`, and `StringFieldSchema` and `HtmlFieldSchema` for `createStringFieldSchema` and `createHtmlFieldSchema`. The field stand-ins fix only the name and the kind; `required = false` is a chosen value. The minimal schema's field names come from the expected order at `SchemaComparatorSchemaTest.java:51`. Its display and segment fields are chosen to match those two field names. Its name `test` is a chosen value that no case depends on. Its fields are modelled as plain string fields.
- The Spring wiring of the comparator and the database-backed test base class are test infrastructure.
- Determinism of the result order holds by construction, since `Diff` is a function; there is no separate lemma.
- Concurrency: the comparator is stateless, so there is nothing to model.
