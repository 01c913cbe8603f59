/**
 * The change record the comparator emits: an operation kind and a property
 * map from well-known keys to values.
 */
module SchemaChanges {
  import opened Wrappers

  /**
   * Operation kinds of a change record (`UPDATESCHEMA`, `ADDFIELD`, `REMOVEFIELD`,
   * `UPDATEFIELD`). The comparator modelled here emits only `UpdateSchema`; the
   * field-level kinds are listed so that applying a record can say they leave
   * schema metadata alone.
   */
  datatype Operation = UpdateSchema | AddFieldOp | RemoveFieldOp | UpdateFieldOp

  /** A property value; `Null` is an explicit "cleared". */
  datatype Value = Str(text: string) | Null | Bool(flag: bool) | Names(names: seq<string>)

  /** One change record: `{ operation, properties }`. */
  datatype Change = Change(op: Operation, props: map<string, Value>)

  // The stable property keys of a schema-level change record.
  const NameKey: string := "name"
  const DescriptionKey: string := "description"
  const ContainerFlagKey: string := "containerFlag"
  const DisplayFieldKey: string := "displayField"
  const SegmentFieldKey: string := "segmentField"
  const FieldOrderKey: string := "fieldOrder"
  const ContainerFieldKey: string := "containerField"

  /** A nullable text property as a record value: `null` becomes `Null`. */
  function TextValue(t: Option<string>): (v: Value)
    ensures v.Null? <==> t.None?
    ensures t.Some? ==> v == Str(t.value)
  {
    match t
    case None => Null
    case Some(s) => Str(s)
  }

  /**
   * The null-safe comparison of text properties: two nullable texts give the
   * same record value exactly when they are equal, so `null` is distinct from
   * every text and "cleared" is never mistaken for "unchanged".
   */
  lemma TextValueInjective(x: Option<string>, y: Option<string>)
    ensures TextValue(x) == TextValue(y) <==> x == y
  {
  }

  /** An `UPDATESCHEMA` record whose map holds the single key `key`, bound to `value`. */
  function UpdateOf(key: string, value: Value): (c: Change)
    ensures c.op == UpdateSchema && c.props.Keys == {key} && c.props[key] == value
  {
    Change(UpdateSchema, map[key := value])
  }
}
