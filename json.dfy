/**
 * The profile document: a JSON object whose top-level keys (`hero`,
 * `experiences`, `specialEvents`, ...) each hold one section of the site.
 * Numbers are integers here; the site stores only small whole numbers
 * (ratings, years are strings).
 */
module Json {
  import opened Wrappers
  import opened JsString
  import opened Seqs
  import JsNumber

  datatype Json =
    | JNull
    | JBool(b: bool)
    | JNum(n: int)
    | JStr(s: string)
    | JArr(items: seq<Json>)
    | JObj(fields: map<string, Json>)

  /** A JSON object: the whole document, or one record of a list section. */
  type Doc = map<string, Json>

  /** JavaScript truthiness of a present value (a missing key is `undefined`, falsy). */
  predicate Truthy(v: Json) {
    match v
    case JNull => false
    case JBool(b) => b
    case JNum(n) => n != 0
    case JStr(s) => s != []
    case _ => true
  }

  /** `{ ...doc, [key]: value }`: one key set, every other key kept. */
  function WithKey(doc: Doc, key: string, value: Json): (r: Doc)
    ensures r.Keys == doc.Keys + {key}
    ensures r[key] == value
    ensures forall k :: k in doc && k != key ==> r[k] == doc[k]
  {
    doc[key := value]
  }

  /** Writing back the value a key already holds leaves the document as it was. */
  lemma WithKeySame(doc: Doc, key: string)
    requires key in doc
    ensures WithKey(doc, key, doc[key]) == doc
  {
    assert doc[key := doc[key]] == doc;
  }

  /**
   * `doc[key] || []` used as a list: the empty list when the key is missing or
   * falsy, the elements when it holds an array, and `None` when it holds a
   * truthy value that is not an array (the source then fails on `.map`).
   */
  function ListOrEmpty(doc: Doc, key: string): (r: Option<seq<Json>>)
    ensures r == None <==> key in doc && Truthy(doc[key]) && !doc[key].JArr?
    ensures key !in doc || !Truthy(doc[key]) ==> r == Some([])
    ensures key in doc && doc[key].JArr? ==> r == Some(doc[key].items)
  {
    if key !in doc || !Truthy(doc[key]) then Some([])
    else if doc[key].JArr? then Some(doc[key].items)
    else None
  }

  /** The text `Array.prototype.join` writes for one element. */
  function ElementString(v: Json): string {
    match v
    case JNull => ""
    case JBool(b) => if b then "true" else "false"
    case JNum(n) => JsNumber.NumberToString(n)
    case JStr(s) => s
    case JArr(items) => Join(seq(|items|, i requires 0 <= i < |items| => ElementString(items[i])), ",")
    case JObj(_) => "[object Object]"
  }

  /** `values.join(sep)`. */
  function JoinValues(values: seq<Json>, sep: string): string {
    Join(Map(values, ElementString), sep)
  }

  function StrOf(s: string): Json { JStr(s) }

  /** A list of strings as JSON strings. */
  function Strs(xs: seq<string>): (r: seq<Json>)
    ensures |r| == |xs| && forall i :: 0 <= i < |xs| ==> r[i] == JStr(xs[i])
  {
    Map(xs, StrOf)
  }

  /** The strings of a list whose every element is a string. */
  predicate AllStrings(values: seq<Json>) {
    forall i :: 0 <= i < |values| ==> values[i].JStr?
  }

  function StringsOf(values: seq<Json>): (r: seq<string>)
    requires AllStrings(values)
    ensures Strs(r) == values
  {
    var r := seq(|values|, i requires 0 <= i < |values| => values[i].s);
    assert Strs(r) == values;
    r
  }

  /** Joining JSON strings writes exactly the strings joined. */
  lemma JoinStrs(xs: seq<string>, sep: string)
    ensures JoinValues(Strs(xs), sep) == Join(xs, sep)
  {
    assert Map(Strs(xs), ElementString) == xs;
  }
}
