/** The Python values an agent's decoded JSON reply can hold, and the few
    built-ins the schedulers apply to them. */
module JsonData {
  import opened Text
  import PyDict

  datatype Json =
    | JNull
    | JBool(b: bool)
    | JInt(i: int)
    | JStr(s: string)
    | JArr(items: seq<Json>)
    | JObj(fields: PyDict.Dict<string, Json>)

  /** Python `bool(v)`: `None`, `False`, `0` and empty containers are false. */
  predicate Truthy(v: Json)
  {
    match v
    case JNull => false
    case JBool(b) => b
    case JInt(i) => i != 0
    case JStr(s) => s != []
    case JArr(items) => items != []
    case JObj(fields) => fields != []
  }

  /** `type(v).__name__` */
  function TypeName(v: Json): string
  {
    match v
    case JNull => "NoneType"
    case JBool(_) => "bool"
    case JInt(_) => "int"
    case JStr(_) => "str"
    case JArr(_) => "list"
    case JObj(_) => "dict"
  }

  /** The type names tell dicts, strings and lists apart from every other value. */
  lemma TypeNameSpec(v: Json)
    ensures TypeName(v) == "dict" <==> v.JObj?
    ensures TypeName(v) == "str" <==> v.JStr?
    ensures TypeName(v) == "list" <==> v.JArr?
  {
  }

  /** The message of the `AttributeError` raised by `v.<attr>` on a value of the wrong type. */
  function NoAttributeMessage(v: Json, attr: string): string
  {
    "'" + TypeName(v) + "' object has no attribute '" + attr + "'"
  }

  /** `repr(v)`, with strings quoted by single quotes and not escaped. */
  function Repr(v: Json): string
    decreases v, 1
  {
    match v
    case JNull => "None"
    case JBool(b) => if b then "True" else "False"
    case JInt(i) => IntToString(i)
    case JStr(s) => "'" + s + "'"
    case JArr(items) => "[" + ReprItems(v, items) + "]"
    case JObj(fields) => "{" + ReprFields(v, fields) + "}"
  }

  function ReprItems(ghost parent: Json, items: seq<Json>): string
    requires forall k :: 0 <= k < |items| ==> items[k] < parent
    decreases parent, 0, |items|
  {
    if items == [] then ""
    else if |items| == 1 then Repr(items[0])
    else Repr(items[0]) + ", " + ReprItems(parent, items[1..])
  }

  function ReprFields(ghost parent: Json, fields: PyDict.Dict<string, Json>): string
    requires forall k :: 0 <= k < |fields| ==> fields[k].1 < parent
    decreases parent, 0, |fields|
  {
    if fields == [] then ""
    else
      var one := "'" + fields[0].0 + "': " + Repr(fields[0].1);
      if |fields| == 1 then one else one + ", " + ReprFields(parent, fields[1..])
  }

  /** `str(v)`: a string is itself, anything else its `repr`. */
  function Str(v: Json): string
  {
    if v.JStr? then v.s else Repr(v)
  }
}
