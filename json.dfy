/** The values `json.loads` produces, and Python's `in` test applied to them. */
module JsonValues {
  import opened Wrappers
  import opened PyText

  /**
   * None, bool, a number (int or float; kept abstract as a real), str, list or dict.
   * A dict keeps one value per key, as `json.loads` does with repeated keys.
   */
  datatype Json =
    | Null
    | Bool(boolean: bool)
    | Num(number: real)
    | Str(text: string)
    | Arr(elems: seq<Json>)
    | Obj(fields: map<string, Json>)

  /**
   * Python's `key in value`: a substring test on a str, an element comparison on a
   * list, a key lookup on a dict. On None, a bool or a number Python raises
   * TypeError, which is `None` here.
   */
  function Contains(value: Json, key: string): (r: Option<bool>)
    ensures r.None? <==> value.Null? || value.Bool? || value.Num?
    ensures value.Obj? ==> r == Some(key in value.fields)
  {
    match value
    case Str(text) => Some(IsSubstring(key, text))
    case Arr(elems) => Some(Str(key) in elems)
    case Obj(fields) => Some(key in fields)
    case _ => None
  }
}
