/**
 * The generic list editor used for talks, teaching, publications, writing and
 * links. Its records are objects shared with the caller: the dialog's list is
 * a copy of the caller's array, but the records in it are the caller's own.
 */
module ArrayEditDialog {
  import opened Json
  import opened JsString
  import opened Seqs
  import opened ListText

  /** The three kinds of input a field is edited with. */
  datatype FieldType = Text | Textarea | Array

  datatype Field = Field(name: string, caption: string, kind: FieldType)

  /** The empty value a new record gets for a field: `[]` for an array field, `''` otherwise. */
  function DefaultValue(kind: FieldType): (v: Json)
    ensures kind == Array ==> v == JArr([])
    ensures kind != Array ==> v == JStr("")
  {
    if kind == Array then JArr([]) else JStr("")
  }

  /** No later field has the same name as `fields[j]`. */
  predicate LastWithName(fields: seq<Field>, j: int)
    requires 0 <= j < |fields|
  {
    forall k :: j < k < |fields| ==> fields[k].name != fields[j].name
  }

  /** The names of the configured fields. */
  function Names(fields: seq<Field>): (names: set<string>)
    ensures forall j :: 0 <= j < |fields| ==> fields[j].name in names
  {
    if fields == [] then {} else Names(fields[..|fields| - 1]) + {fields[|fields| - 1].name}
  }

  /** A new record has no key besides the configured field names. */
  lemma {:induction false} NamesOnly(fields: seq<Field>, n: string)
    requires n in Names(fields)
    ensures exists j :: 0 <= j < |fields| && fields[j].name == n
  {
    var init := fields[..|fields| - 1];
    if n in Names(init) {
      NamesOnly(init, n);
      var j :| 0 <= j < |init| && init[j].name == n;
      assert fields[j] == init[j];
    } else {
      assert fields[|fields| - 1].name == n;
    }
  }

  /**
   * The record `handleAdd` builds, field by field: one key per configured
   * field name, holding the empty value of the last field with that name.
   */
  function NewItem(fields: seq<Field>): (r: Doc)
    ensures r.Keys == Names(fields)
    ensures forall j :: 0 <= j < |fields| && LastWithName(fields, j) ==>
      r[fields[j].name] == DefaultValue(fields[j].kind)
  {
    if fields == [] then map[]
    else
      var init := fields[..|fields| - 1];
      var last := fields[|fields| - 1];
      var item := NewItem(init)[last.name := DefaultValue(last.kind)];
      forall j | 0 <= j < |fields| && LastWithName(fields, j)
        ensures item[fields[j].name] == DefaultValue(fields[j].kind)
      {
        if j < |init| {
          assert LastWithName(init, j);
          assert fields[j] == init[j];
        }
      }
      item
  }

  /** One step of `handleAdd`'s loop: the next field's empty value is assigned. */
  lemma NewItemStep(fields: seq<Field>, k: int)
    requires 0 <= k < |fields|
    ensures NewItem(fields[..k + 1]) == NewItem(fields[..k])[fields[k].name := DefaultValue(fields[k].kind)]
  {
    assert fields[..k + 1][..k] == fields[..k];
  }

  /** A record object: a JavaScript object whose properties the dialog assigns in place. */
  class Record {
    var entries: Doc

    constructor(entries0: Doc)
      ensures entries == entries0
    {
      entries := entries0;
    }
  }

  /** The text an array field is shown as: its lines joined, or empty if it is not an array. */
  function ArrayFieldText(v: Json): (t: string)
    ensures !v.JArr? ==> t == []
  {
    if v.JArr? then JoinValues(v.items, "\n") else []
  }

  /** The value `handleArrayChange` stores for the text typed into an array field. */
  function ArrayFieldValue(text: string): (v: Json)
    ensures v.JArr? && AllStrings(v.items)
  {
    var lines := ParseLines(text);
    JArr(Strs(lines))
  }

  /** Lines without blank entries or breaks are shown so that reading the text back gives them again. */
  lemma ArrayFieldRoundTrip(lines: seq<string>)
    requires forall i :: 0 <= i < |lines| ==> CleanLine(lines[i])
    ensures ArrayFieldValue(ArrayFieldText(JArr(Strs(lines)))) == JArr(Strs(lines))
  {
    JoinStrs(lines, "\n");
    LinesRoundTrip(lines);
  }

  /** Re-reading what an array field shows after an edit changes nothing. */
  lemma ArrayFieldStable(text: string)
    ensures ArrayFieldValue(ArrayFieldText(ArrayFieldValue(text))) == ArrayFieldValue(text)
  {
    ArrayFieldRoundTrip(ParseLines(text));
  }

  /** The dialog's state: the configured fields and the list being edited. */
  class Dialog {
    const fields: seq<Field>
    var items: seq<Record>

    /** What the list holds, record by record, as JSON objects. */
    function Contents(): (r: seq<Json>)
      reads this, items
      ensures |r| == |items|
      ensures forall i :: 0 <= i < |items| ==> r[i] == JObj(items[i].entries)
    {
      seq(|items|, i requires 0 <= i < |items| reads this, items => JObj(items[i].entries))
    }

    /** `useState(data)`: the list starts as the caller's array, records shared. */
    constructor(fields0: seq<Field>, data: seq<Record>)
      ensures fields == fields0 && items == data
    {
      fields := fields0;
      items := data;
    }

    /** Append a fresh record holding the empty value of every field; existing records are untouched. */
    method HandleAdd()
      modifies this
      ensures |items| == |old(items)| + 1
      ensures items[..|old(items)|] == old(items)
      ensures fresh(items[|old(items)|])
      ensures items[|old(items)|].entries == NewItem(fields)
      ensures Contents() == old(Contents()) + [JObj(NewItem(fields))]
    {
      var newItem := new Record(map[]);
      for k := 0 to |fields|
        invariant items == old(items)
        invariant newItem.entries == NewItem(fields[..k])
      {
        NewItemStep(fields, k);
        newItem.entries := newItem.entries[fields[k].name := DefaultValue(fields[k].kind)];
      }
      assert fields[..|fields|] == fields;
      ghost var before := Contents();
      items := items + [newItem];
      assert Contents() == before + [JObj(NewItem(fields))];
    }

    /** Drop the record at `index`; later records shift down, an index out of range changes nothing. */
    method HandleRemove(index: int)
      modifies this
      ensures items == RemoveAt(old(items), index)
      ensures 0 <= index < |old(items)| ==> items == old(items)[..index] + old(items)[index + 1..]
      ensures !(0 <= index < |old(items)|) ==> items == old(items)
    {
      RemoveAtShifts(items, index);
      items := RemoveAt(items, index);
    }

    /**
     * Set one property of the record at `index`, in place: the list is
     * copied, but the record assigned into is the shared one, so every holder
     * of that record sees the change.
     */
    method HandleChange(index: int, field: string, value: Json)
      requires 0 <= index < |items|
      modifies items[index]
      ensures items == old(items)
      ensures items[index].entries == old(items[index].entries)[field := value]
    {
      items[index].entries := items[index].entries[field := value];
    }

    /** Store the non-blank lines of `text`, untrimmed, in the record at `index`, in place. */
    method HandleArrayChange(index: int, field: string, text: string)
      requires 0 <= index < |items|
      modifies items[index]
      ensures items == old(items)
      ensures items[index].entries == old(items[index].entries)[field := ArrayFieldValue(text)]
    {
      HandleChange(index, field, ArrayFieldValue(text));
    }

    /**
     * The intended edit: the record at `index` is replaced by an updated
     * copy, so no record the caller holds is changed.
     */
    method HandleChangeCopy(index: int, field: string, value: Json)
      requires 0 <= index < |items|
      modifies this
      ensures |items| == |old(items)|
      ensures fresh(items[index])
      ensures items[index].entries == old(items[index].entries)[field := value]
      ensures forall i :: 0 <= i < |items| && i != index ==> items[i] == old(items[i])
    {
      var copy := new Record(items[index].entries[field := value]);
      items := items[index := copy];
    }

    /** `HandleArrayChange` through a copy of the record. */
    method HandleArrayChangeCopy(index: int, field: string, text: string)
      requires 0 <= index < |items|
      modifies this
      ensures |items| == |old(items)|
      ensures fresh(items[index])
      ensures items[index].entries == old(items[index].entries)[field := ArrayFieldValue(text)]
      ensures forall i :: 0 <= i < |items| && i != index ==> items[i] == old(items[i])
    {
      HandleChangeCopy(index, field, ArrayFieldValue(text));
    }

    /** Hand the current list to the caller's save callback, unchanged. */
    method HandleSave() returns (saved: seq<Record>)
      ensures saved == items
    {
      saved := items;
    }
  }

  /**
   * The caller's save callback: `{ ...profileData, [key]: data }`, so exactly
   * one top-level key of the document takes the list.
   */
  function SaveSection(doc: Doc, key: string, data: seq<Json>): (r: Doc)
    ensures r.Keys == doc.Keys + {key}
    ensures r[key] == JArr(data)
    ensures forall k :: k in doc && k != key ==> r[k] == doc[k]
  {
    WithKey(doc, key, JArr(data))
  }

  /**
   * An edit typed into the dialog and then cancelled, as written: the
   * caller's record has changed although nothing was saved.
   */
  method CancelledEditReachesCaller(fields: seq<Field>, data: seq<Record>, index: int, field: string, value: Json)
    returns (dialog: Dialog)
    requires 0 <= index < |data|
    requires field !in data[index].entries || data[index].entries[field] != value
    modifies data[index]
    ensures data[index].entries != old(data[index].entries)
    ensures data[index].entries == old(data[index].entries)[field := value]
  {
    dialog := new Dialog(fields, data);
    dialog.HandleChange(index, field, value);
  }

  /**
   * The same cancelled edit with the copying handler: the dialog shows the
   * change and the caller's records are untouched (the method may modify none of them).
   */
  method CancelledEditStaysLocal(fields: seq<Field>, data: seq<Record>, index: int, field: string, value: Json)
    returns (dialog: Dialog)
    requires 0 <= index < |data|
    ensures fresh(dialog) && |dialog.items| == |data|
    ensures dialog.Contents()[index] == JObj(data[index].entries[field := value])
    ensures forall i :: 0 <= i < |data| && i != index ==> dialog.Contents()[i] == JObj(data[i].entries)
  {
    dialog := new Dialog(fields, data);
    dialog.HandleChangeCopy(index, field, value);
  }
}
