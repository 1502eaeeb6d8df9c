/** Values that cross the controller/host boundary, and the requests that carry them.

    The serializer (`ser.encode`) and the transport that ships a request are not part
    of this model: an encoded value is an opaque, injective tag, and a request is the
    pair of code string and argument list handed to the transport. */
module Wire {

  datatype Option<+T> = None | Some(value: T)

  /** One positional argument of a remote evaluation. */
  datatype Arg =
    | Encoded(text: string)  // `ser.encode(text)`
    | Bytes(raw: string)     // a Python byte literal written in the source, e.g. b'callRemote'
    | Int(n: int)            // an integer passed through unchanged (a channel number)

  /** One remote evaluation as handed to the transport. */
  datatype Request =
    | Eval(code: string, args: seq<Arg>)  // `eval_lua(code, *args)`
    | Api(name: string, args: seq<Arg>)   // the module-level `method(name, *args)` of the `peripheral.` API
}
