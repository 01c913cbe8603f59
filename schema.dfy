/**
 * The schema snapshot the comparator reads: top-level metadata plus an
 * ordered sequence of field definitions. Fields are identified by name.
 */
module Schemas {
  import opened Wrappers

  /**
   * The field kinds the comparator's cases build (string and HTML fields). Kinds
   * are opaque to the schema-level comparison, so the other kinds are not listed.
   */
  datatype FieldType = StringField | HtmlField

  /** One field definition. Its position is its index in the owning schema's field sequence. */
  datatype FieldSchema = FieldSchema(name: string, kind: FieldType, required: bool)

  /** A schema snapshot. Text properties are nullable (`None`), the container flag is not. */
  datatype Schema = Schema(
    name: Option<string>,
    description: Option<string>,
    container: bool,
    displayField: Option<string>,
    segmentField: Option<string>,
    fields: seq<FieldSchema>)

  /** The names of `fs`, in field order. */
  function FieldNames(fs: seq<FieldSchema>): (r: seq<string>)
    ensures |r| == |fs|
    ensures forall i :: 0 <= i < |fs| ==> r[i] == fs[i].name
  {
    if fs == [] then [] else [fs[0].name] + FieldNames(fs[1..])
  }

  /** The first field of `fs` called `name`, if there is one: lookup by name, not by position. */
  function FindField(fs: seq<FieldSchema>, name: string): (r: Option<FieldSchema>)
    ensures r.Some? <==> name in FieldNames(fs)
    ensures r.Some? ==> r.value in fs && r.value.name == name
  {
    if fs == [] then None
    else if fs[0].name == name then Some(fs[0])
    else FindField(fs[1..], name)
  }

  /** A string field with default settings. */
  function StringFieldSchema(name: string): FieldSchema {
    FieldSchema(name, StringField, false)
  }

  /** An HTML field with default settings. */
  function HtmlFieldSchema(name: string): FieldSchema {
    FieldSchema(name, HtmlField, false)
  }

  /** Appends a field at the end of the schema's field sequence (`Schema.addField`). */
  function AddField(s: Schema, f: FieldSchema): (r: Schema)
    ensures |r.fields| == |s.fields| + 1
    ensures r.fields[..|s.fields|] == s.fields && r.fields[|s.fields|] == f
    ensures FieldNames(r.fields) == FieldNames(s.fields) + [f.name]
    ensures r == s.(fields := r.fields)
  {
    s.(fields := s.fields + [f])
  }

  /**
   * The smallest valid schema the comparator's tests start from: two string
   * fields, the first used as display field and the second as segment field.
   */
  function MinimalValidSchema(): (s: Schema)
    ensures FieldNames(s.fields) == ["displayFieldName", "segmentFieldName"]
    ensures s.displayField == Some("displayFieldName") && s.segmentField == Some("segmentFieldName")
    ensures s.description == None && !s.container
  {
    Schema(Some("test"), None, false, Some("displayFieldName"), Some("segmentFieldName"),
           [StringFieldSchema("displayFieldName"), StringFieldSchema("segmentFieldName")])
  }
}
