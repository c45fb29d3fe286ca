/** Typed parameters, the input of both encoders, and the stack items they denote. */
module Parameters {
  import opened Bytes
  import opened Values

  /**
   A typed parameter.  Texts are given by their UTF-8 bytes, binary data by the decoded bytes,
   and a Hash160 by its 20 little-endian bytes.
   */
  datatype Item =
    | AnyNull
    | Boolean(b: bool)
    | Integer(n: int)
    | ByteArray(bytes: seq<Byte>)
    | Text(utf8: seq<Byte>)
    | Hash(le: Hash160)
    | ArrayOf(items: seq<Item>)
    | StructOf(fields: seq<Item>)

  /** The stack item a typed parameter denotes; the three byte-string kinds are not told apart. */
  function Meaning(item: Item): Value
    decreases item, 1
  {
    match item
    case AnyNull => Null
    case Boolean(b) => Bool(b)
    case Integer(n) => Int(n)
    case ByteArray(bytes) => ByteString(bytes)
    case Text(utf8) => ByteString(utf8)
    case Hash(le) => ByteString(le)
    case ArrayOf(items) => Array(Meanings(items))
    case StructOf(fields) => Struct(Meanings(fields))
  }

  function Meanings(items: seq<Item>): (vs: seq<Value>)
    ensures |vs| == |items|
    decreases items, 0
  {
    if items == [] then [] else Meanings(items[..|items| - 1]) + [Meaning(items[|items| - 1])]
  }

  /** Element `k` of the denoted sequence is what `items[k]` denotes. */
  lemma {:induction false} MeaningsAt(items: seq<Item>, k: nat)
    requires k < |items|
    ensures Meanings(items)[k] == Meaning(items[k])
  {
    if k < |items| - 1 {
      MeaningsAt(items[..|items| - 1], k);
    }
  }

  lemma MeaningsFront(items: seq<Item>)
    requires items != []
    ensures Meanings(items) == [Meaning(items[0])] + Meanings(items[1..])
  {
    MeaningsAt(items, 0);
    forall k | 0 <= k < |items| - 1 ensures Meanings(items)[k + 1] == Meanings(items[1..])[k] {
      MeaningsAt(items, k + 1);
      MeaningsAt(items[1..], k);
    }
  }
}
