/** The NeoVM stack items that scripts, signing preimages and staged calls are made of. */
module Values {
  import opened Bytes

  datatype Option<+T> = None | Some(value: T)

  /** A script hash, in the byte order the wire carries. */
  type Hash160 = h: seq<Byte> | |h| == 20 witness seq(20, _ => 0)

  datatype Value =
    | Null
    | Bool(b: bool)
    | Int(n: int)
    | ByteString(bytes: seq<Byte>)
    | Buffer(content: seq<Byte>)
    | Array(items: seq<Value>)
    | Struct(fields: seq<Value>)
    | Map(entries: seq<(Value, Value)>)

  /** The signed 256-bit domain of a NeoVM integer. */
  predicate InVmRange(n: int) {
    Fits(n, 32)
  }
}
