/**
 * Copy-on-write edits of a list of records, as the events and testimonials
 * dialogs make them: `updated[index] = { ...updated[index], [field]: value }`
 * on a copy of the list.
 */
module Records {
  import opened Json

  /** The own properties `{ ...v }` copies: an object's fields; `null`, booleans and numbers spread to nothing. */
  function Spread(v: Json): (r: Doc)
    ensures v.JObj? ==> r == v.fields
    ensures v.JNull? || v.JBool? || v.JNum? ==> r == map[]
  {
    if v.JObj? then v.fields else map[]
  }

  /** The list with record `index` replaced by a copy whose `field` is `value`. */
  function SetField(records: seq<Json>, index: int, field: string, value: Json): (r: seq<Json>)
    requires 0 <= index < |records|
    ensures |r| == |records|
    ensures forall i :: 0 <= i < |records| && i != index ==> r[i] == records[i]
    ensures r[index].JObj? && r[index].fields.Keys == Spread(records[index]).Keys + {field}
    ensures r[index].fields[field] == value
    ensures forall k :: k in Spread(records[index]) && k != field ==> r[index].fields[k] == Spread(records[index])[k]
  {
    records[index := JObj(WithKey(Spread(records[index]), field, value))]
  }

  /** A second edit of the same field overrides the first. */
  lemma SetFieldTwice(records: seq<Json>, index: int, field: string, v1: Json, v2: Json)
    requires 0 <= index < |records|
    ensures SetField(SetField(records, index, field, v1), index, field, v2) == SetField(records, index, field, v2)
  {
    var once := SetField(records, index, field, v1);
    assert Spread(once[index])[field := v2] == Spread(records[index])[field := v2];
  }

  /** Edits of different records, or different fields, can be made in either order. */
  lemma SetFieldCommutes(records: seq<Json>, i: int, f: string, v: Json, j: int, g: string, w: Json)
    requires 0 <= i < |records| && 0 <= j < |records|
    requires i != j || f != g
    ensures SetField(SetField(records, i, f, v), j, g, w) == SetField(SetField(records, j, g, w), i, f, v)
  {
    if i == j {
      assert Spread(records[i])[f := v][g := w] == Spread(records[i])[g := w][f := v];
    }
  }

  /** Writing back the value a record already holds changes nothing. */
  lemma SetFieldSame(records: seq<Json>, index: int, field: string)
    requires 0 <= index < |records| && records[index].JObj? && field in records[index].fields
    ensures SetField(records, index, field, records[index].fields[field]) == records
  {
    var rec := records[index].fields;
    assert rec[field := rec[field]] == rec;
  }
}
