/** The JSON-shaped values the representation functions return: Python
    ints, strings, lists and dicts. Dict key order is not modelled. */
module Json {

  datatype Value =
    | Number(n: int)
    | Text(s: string)
    | List(items: seq<Value>)
    | Object(fields: map<string, Value>)
}
