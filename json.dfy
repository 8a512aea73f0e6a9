/** The JSON values that flow through the system: scraped dataset items,
    parsed model output and the runner's report. Numbers are kept as
    integers; floating-point JSON numbers are not modelled. */
module Json {

  datatype Value =
    | Null
    | Bool(b: bool)
    | Number(n: int)
    | Str(s: string)
    | Array(elems: seq<Value>)
    | Object(fields: map<string, Value>)
}
