/** JSON-like values: the shapes of the parameter mappings, filter values and
    request bodies that the tier-config automation hands to the Connect API. */
module Json {

  datatype Value =
    | Null
    | Bool(b: bool)
    | Int(i: int)
    | Str(s: string)
    | Arr(items: seq<Value>)
    | Obj(fields: map<string, Value>)
}
