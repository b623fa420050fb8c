/** JSON documents as values. Encoding and decoding text are not modelled:
    a document on disk is either the value it decodes to or a text that
    fails to decode, with the decoder's complaint. */
module JsonValues {

  datatype Value =
    | Str(s: string)
    | Null
    | Int(i: int)
    | Bool(b: bool)
    | Obj(fields: map<string, Value>)
    | Arr(items: seq<Value>)

  datatype Document = Parsed(value: Value) | Unparsable(reason: string)
}
