/**
 The canonical value serialization that is signed, and the signing preimage built from it.

 Serialization fails, as the source raises, on integers outside the VM range and on lengths that
 the variable-length integer cannot carry.
 */
module Preimage {
  import opened Bytes
  import opened Values
  import opened Parameters

  const TAG_NULL: Byte := 0x00
  const TAG_BOOLEAN: Byte := 0x20
  const TAG_INTEGER: Byte := 0x21
  const TAG_BYTES: Byte := 0x28
  const TAG_ARRAY: Byte := 0x40
  const TAG_STRUCT: Byte := 0x41

  /** Neo's variable-length integer. */
  function VarInt(n: nat): Option<seq<Byte>> {
    if n < 0xFD then Some([n])
    else if n <= 0xFFFF then Some([0xFD] + ToLe(n, 2))
    else if n < Pow256(4) then Some([0xFE] + ToLe(n, 4))
    else None
  }

  /** The size search of the integer encoder: no byte for zero, otherwise the first width that fits. */
  method MinimalSize(n: int) returns (size: nat)
    requires InVmRange(n)
    ensures size == Width(n)
  {
    size := if n == 0 then 0 else 1;
    FitsMonotone(n, Width(n), Width(n) + 32);
    while size > 0 && !Fits(n, size)
      invariant n == 0 ==> size == 0
      invariant n != 0 ==> size > 0
      invariant size <= Width(n)
      decreases 32 - size
    {
      WidthWithin(n, 32);
      size := size + 1;
    }
  }

  lemma WidthWithin(n: int, w: nat)
    requires Fits(n, w)
    ensures Width(n) <= w
  {
  }

  function WithLength(tag: Byte, n: nat, body: seq<Byte>): Option<seq<Byte>> {
    match VarInt(n)
    case Some(length) => Some([tag] + length + body)
    case None => None
  }

  function SerializeValue(item: Item): Option<seq<Byte>>
    decreases item, 1
  {
    match item
    case AnyNull => Some([TAG_NULL])
    case Boolean(b) => Some([TAG_BOOLEAN, if b then 1 else 0])
    case Integer(n) => if InVmRange(n) then WithLength(TAG_INTEGER, |Minimal(n)|, Minimal(n)) else None
    case ByteArray(bytes) => WithLength(TAG_BYTES, |bytes|, bytes)
    case Text(utf8) => WithLength(TAG_BYTES, |utf8|, utf8)
    case Hash(le) => WithLength(TAG_BYTES, |le|, le)
    case ArrayOf(items) =>
      (match SerializeAll(items) case Some(body) => WithLength(TAG_ARRAY, |items|, body) case None => None)
    case StructOf(fields) =>
      (match SerializeAll(fields) case Some(body) => WithLength(TAG_STRUCT, |fields|, body) case None => None)
  }

  function SerializeAll(items: seq<Item>): Option<seq<Byte>>
    decreases items, 0
  {
    if items == [] then Some([])
    else
      match (SerializeValue(items[0]), SerializeAll(items[1..]))
      case (Some(first), Some(others)) => Some(first + others)
      case _ => None
  }

  // ---------------------------------------------------------------------------
  // The left inverse
  // ---------------------------------------------------------------------------

  function ParseVarInt(s: seq<Byte>): (r: Option<(nat, seq<Byte>)>)
    ensures r.Some? ==> |r.value.1| < |s|
  {
    if s == [] then None
    else if s[0] < 0xFD then Some((s[0], s[1..]))
    else if s[0] == 0xFD && |s| >= 3 then Some((FromLe(s[1..3]), s[3..]))
    else if s[0] == 0xFE && |s| >= 5 then Some((FromLe(s[1..5]), s[5..]))
    else None
  }

  /** Reads one value off the front of `s`; the second component is what follows it. */
  function Parse(s: seq<Byte>): (r: Option<(Value, seq<Byte>)>)
    ensures r.Some? ==> |r.value.1| < |s|
    decreases |s|, 0, 0
  {
    if s == [] then None
    else if s[0] == TAG_NULL then Some((Null, s[1..]))
    else if s[0] == TAG_BOOLEAN then (if |s| < 2 then None else Some((Bool(s[1] != 0), s[2..])))
    else
      match ParseVarInt(s[1..])
      case None => None
      case Some((n, rest)) =>
        if s[0] == TAG_ARRAY || s[0] == TAG_STRUCT then
          match ParseMany(rest, n)
          case None => None
          case Some((vs, after)) => Some((if s[0] == TAG_ARRAY then Array(vs) else Struct(vs), after))
        else if |rest| < n then None
        else if s[0] == TAG_INTEGER then Some((Int(FromSigned(rest[..n])), rest[n..]))
        else if s[0] == TAG_BYTES then Some((ByteString(rest[..n]), rest[n..]))
        else None
  }

  function ParseMany(s: seq<Byte>, n: nat): (r: Option<(seq<Value>, seq<Byte>)>)
    ensures r.Some? ==> |r.value.1| <= |s|
    decreases |s|, 1, n
  {
    if n == 0 then Some(([], s))
    else
      match Parse(s)
      case None => None
      case Some((v, rest)) =>
        match ParseMany(rest, n - 1)
        case None => None
        case Some((vs, after)) => Some(([v] + vs, after))
  }

  lemma VarIntParses(n: nat, rest: seq<Byte>)
    requires VarInt(n).Some?
    ensures ParseVarInt(VarInt(n).value + rest) == Some((n, rest))
  {
    var s := VarInt(n).value + rest;
    if n < 0xFD {
      assert s[1..] == rest;
    } else if n <= 0xFFFF {
      LeRoundTrip(n, 2);
      assert s[1..3] == ToLe(n, 2) && s[3..] == rest;
    } else {
      LeRoundTrip(n, 4);
      assert s[1..5] == ToLe(n, 4) && s[5..] == rest;
    }
  }

  lemma WithLengthParses(tag: Byte, n: nat, body: seq<Byte>, rest: seq<Byte>)
    requires WithLength(tag, n, body).Some?
    ensures var s := WithLength(tag, n, body).value + rest;
            && s != [] && s[0] == tag
            && ParseVarInt(s[1..]) == Some((n, body + rest))
  {
    var s := WithLength(tag, n, body).value + rest;
    VarIntParses(n, body + rest);
    assert s[1..] == VarInt(n).value + (body + rest);
  }

  lemma FlatParses(tag: Byte, body: seq<Byte>, rest: seq<Byte>)
    requires tag == TAG_INTEGER || tag == TAG_BYTES
    requires WithLength(tag, |body|, body).Some?
    ensures Parse(WithLength(tag, |body|, body).value + rest)
         == Some((if tag == TAG_INTEGER then Int(FromSigned(body)) else ByteString(body), rest))
  {
    WithLengthParses(tag, |body|, body, rest);
    assert (body + rest)[..|body|] == body && (body + rest)[|body|..] == rest;
  }

  /**
   Parsing inverts serialization, whatever follows: the encoding is prefix-free and loses
   nothing but the distinction between the byte-string kinds.
   */
  lemma {:induction false} SerializeParses(item: Item, rest: seq<Byte>)
    requires SerializeValue(item).Some?
    ensures Parse(SerializeValue(item).value + rest) == Some((Meaning(item), rest))
    decreases item, 1
  {
    var s := SerializeValue(item).value + rest;
    match item
    case AnyNull => assert s[1..] == rest;
    case Boolean(b) => assert s[2..] == rest;
    case Integer(n) =>
      FlatParses(TAG_INTEGER, Minimal(n), rest);
      SignedRoundTrip(n, Width(n));
    case ByteArray(bytes) => FlatParses(TAG_BYTES, bytes, rest);
    case Text(utf8) => FlatParses(TAG_BYTES, utf8, rest);
    case Hash(le) => FlatParses(TAG_BYTES, le, rest);
    case ArrayOf(items) =>
      SerializeAllParses(items, rest);
      WithLengthParses(TAG_ARRAY, |items|, SerializeAll(items).value, rest);
    case StructOf(fields) =>
      SerializeAllParses(fields, rest);
      WithLengthParses(TAG_STRUCT, |fields|, SerializeAll(fields).value, rest);
  }

  lemma ParseManyStep(s: seq<Byte>, n: nat, v: Value, rest: seq<Byte>)
    requires n > 0 && Parse(s) == Some((v, rest)) && ParseMany(rest, n - 1).Some?
    ensures var (vs, after) := ParseMany(rest, n - 1).value;
            ParseMany(s, n) == Some(([v] + vs, after))
  {
  }

  lemma {:induction false} SerializeAllParses(items: seq<Item>, rest: seq<Byte>)
    requires SerializeAll(items).Some?
    ensures ParseMany(SerializeAll(items).value + rest, |items|) == Some((Meanings(items), rest))
    decreases items, 0
  {
    if items == [] {
      assert SerializeAll(items).value + rest == rest;
    } else {
      var first, others := SerializeValue(items[0]).value, SerializeAll(items[1..]).value;
      SerializeParses(items[0], others + rest);
      SerializeAllParses(items[1..], rest);
      ConcatAssociates(first, others, rest);
      MeaningsFront(items);
      ParseManyStep(first + (others + rest), |items|, Meaning(items[0]), others + rest);
    }
  }

  /** No serialization is a prefix of another one, unless they are of the same value. */
  lemma SerializationIsPrefixFree(a: Item, b: Item, restA: seq<Byte>, restB: seq<Byte>)
    requires SerializeValue(a).Some? && SerializeValue(b).Some?
    requires SerializeValue(a).value + restA == SerializeValue(b).value + restB
    ensures Meaning(a) == Meaning(b) && restA == restB
  {
    SerializeParses(a, restA);
    SerializeParses(b, restB);
  }

  // ---------------------------------------------------------------------------
  // The signing preimage
  // ---------------------------------------------------------------------------

  /** "NeoSmartAccount/UserOperation" followed by the version byte 2. */
  const DOMAIN: seq<Byte> := [
    0x4E, 0x65, 0x6F, 0x53, 0x6D, 0x61, 0x72, 0x74, 0x41, 0x63, 0x63, 0x6F, 0x75, 0x6E, 0x74, 0x2F,
    0x55, 0x73, 0x65, 0x72, 0x4F, 0x70, 0x65, 0x72, 0x61, 0x74, 0x69, 0x6F, 0x6E, 0x02]

  datatype SigningContext = SigningContext(
    network: int, core: Hash160, account: Hash160, authorityEpoch: int, configurationNonce: int)

  predicate ValidContext(c: SigningContext) {
    && 0 <= c.network < Pow256(4)
    && 0 <= c.authorityEpoch < Pow256(8)
    && 0 <= c.configurationNonce < Pow256(8)
  }

  /** The operation as it is signed: the signature field is replaced by the empty byte string. */
  function Unsigned(operation: seq<Item>): Item
    requires |operation| == 6
  {
    ArrayOf(operation[..5] + [ByteArray([])])
  }

  function SigningPreimage(c: SigningContext, operation: Item): Option<seq<Byte>> {
    if !ValidContext(c) || !operation.ArrayOf? || |operation.items| != 6 then None
    else
      match SerializeValue(Unsigned(operation.items))
      case None => None
      case Some(body) =>
        Some(DOMAIN + (ToLe(c.network, 4) + (c.core + (c.account
          + (ToLe(c.authorityEpoch, 8) + (ToLe(c.configurationNonce, 8) + body))))))
  }

  /** Equal concatenations with equally long heads have equal heads and equal tails. */
  lemma SplitEqual(a: seq<Byte>, x: seq<Byte>, b: seq<Byte>, y: seq<Byte>)
    requires |a| == |b| && a + x == b + y
    ensures a == b && x == y
  {
    assert a == (a + x)[..|a|] && x == (a + x)[|a|..];
    assert b == (b + y)[..|b|] && y == (b + y)[|b|..];
  }

  lemma LeInjective(v: nat, w: nat, n: nat)
    requires v < Pow256(n) && w < Pow256(n) && ToLe(v, n) == ToLe(w, n)
    ensures v == w
  {
    LeRoundTrip(v, n);
    LeRoundTrip(w, n);
  }

  /**
   The preimage is injective: one signature can only ever mean one network, core, account,
   epoch, configuration nonce and one value for each of the five signed operation fields.
   */
  lemma PreimageIsInjective(c: SigningContext, op: Item, d: SigningContext, other: Item)
    requires SigningPreimage(c, op).Some? && SigningPreimage(c, op) == SigningPreimage(d, other)
    ensures c == d
    ensures forall k | 0 <= k < 5 :: Meaning(op.items[k]) == Meaning(other.items[k])
  {
    var x, y := SerializeValue(Unsigned(op.items)).value, SerializeValue(Unsigned(other.items)).value;
    var x5, y5 := ToLe(c.configurationNonce, 8) + x, ToLe(d.configurationNonce, 8) + y;
    var x4, y4 := ToLe(c.authorityEpoch, 8) + x5, ToLe(d.authorityEpoch, 8) + y5;
    var x3, y3 := c.account + x4, d.account + y4;
    var x2, y2 := c.core + x3, d.core + y3;
    SplitEqual(DOMAIN, ToLe(c.network, 4) + x2, DOMAIN, ToLe(d.network, 4) + y2);
    SplitEqual(ToLe(c.network, 4), x2, ToLe(d.network, 4), y2);
    SplitEqual(c.core, x3, d.core, y3);
    SplitEqual(c.account, x4, d.account, y4);
    SplitEqual(ToLe(c.authorityEpoch, 8), x5, ToLe(d.authorityEpoch, 8), y5);
    SplitEqual(ToLe(c.configurationNonce, 8), x, ToLe(d.configurationNonce, 8), y);
    LeInjective(c.network, d.network, 4);
    LeInjective(c.authorityEpoch, d.authorityEpoch, 8);
    LeInjective(c.configurationNonce, d.configurationNonce, 8);
    SerializationIsPrefixFree(Unsigned(op.items), Unsigned(other.items), [], []);
    assert x + [] == x && y + [] == y;
    forall k | 0 <= k < 5 ensures Meaning(op.items[k]) == Meaning(other.items[k]) {
      MeaningsAt(Unsigned(op.items).items, k);
      MeaningsAt(Unsigned(other.items).items, k);
    }
  }

  // ---------------------------------------------------------------------------
  // The layout, byte by byte
  // ---------------------------------------------------------------------------

  /** Cutting a segment of known length out of a concatenation. */
  lemma Segment(before: seq<Byte>, s: seq<Byte>, after: seq<Byte>)
    ensures (before + (s + after))[|before|..|before| + |s|] == s
    ensures (before + (s + after))[|before| + |s|..] == after
    ensures before + (s + after) == (before + s) + after
  {
  }

  /** A 32-bit word of four bytes, the least significant one first. */
  function Word(a: nat, b: nat, c: nat, d: nat): nat {
    a + 0x100 * b + 0x1_0000 * c + 0x100_0000 * d
  }

  lemma FourBytes(s: seq<Byte>)
    requires |s| == 4
    ensures FromLe(s) == Word(s[0], s[1], s[2], s[3])
  {
    assert s[1..][1..] == s[2..] && s[2..][1..] == s[3..] && s[3..][1..] == [];
    assert FromLe(s[3..]) == s[3];
    assert FromLe(s[2..]) == s[2] + 256 * FromLe(s[3..]);
    assert FromLe(s[1..]) == s[1] + 256 * FromLe(s[2..]);
    assert FromLe(s) == s[0] + 256 * FromLe(s[1..]);
  }

  /** The domain as text: 29 ASCII characters and the version byte. */
  lemma DomainIsText()
    ensures |DOMAIN| == 30 && DOMAIN[29] == 2
    ensures forall k | 0 <= k < 29 :: DOMAIN[k] == "NeoSmartAccount/UserOperation"[k] as int
  {
  }

  /**
   Where every field is, counted in bytes from the front: domain, network, core, account, authority epoch,
   configuration nonce, and from byte 90 on the array of the first five operation fields and an empty byte
   string in place of the signature.
   */
  lemma PreimageLayout(c: SigningContext, op: Item)
    requires SigningPreimage(c, op).Some?
    ensures op.ArrayOf? && |op.items| == 6
    ensures var bytes := SigningPreimage(c, op).value;
            && |bytes| >= 90
            && (forall k | 0 <= k < 29 :: bytes[k] == "NeoSmartAccount/UserOperation"[k] as int) && bytes[29] == 2
            && c.network == Word(bytes[30], bytes[31], bytes[32], bytes[33])
            && bytes[34..54] == c.core && bytes[54..74] == c.account
            && FromLe(bytes[74..82]) == c.authorityEpoch && FromLe(bytes[82..90]) == c.configurationNonce
            && Parse(bytes[90..]) == Some((Array(Meanings(op.items[..5]) + [ByteString([])]), []))
  {
    hide Parse, SerializeValue, ToLe;
    var bytes, body := SigningPreimage(c, op).value, SerializeValue(Unsigned(op.items)).value;
    var (network, epoch, nonce) := (ToLe(c.network, 4), ToLe(c.authorityEpoch, 8), ToLe(c.configurationNonce, 8));
    DomainIsText();
    LeRoundTrip(c.network, 4);
    FourBytes(network);
    LeRoundTrip(c.authorityEpoch, 8);
    LeRoundTrip(c.configurationNonce, 8);
    var b1 := DOMAIN + network;
    var b2 := b1 + c.core;
    var b3 := b2 + c.account;
    var b4 := b3 + epoch;
    Segment(DOMAIN, network, c.core + (c.account + (epoch + (nonce + body))));
    Segment(b1, c.core, c.account + (epoch + (nonce + body)));
    Segment(b2, c.account, epoch + (nonce + body));
    Segment(b3, epoch, nonce + body);
    Segment(b4, nonce, body);
    assert bytes[..30] == DOMAIN;
    assert bytes[30..34] == network && forall k | 0 <= k < 4 :: bytes[30 + k] == bytes[30..34][k];
    assert forall k | 0 <= k < 30 :: bytes[k] == bytes[..30][k];
    SerializeParses(Unsigned(op.items), []);
    assert body + [] == body;
    UnsignedMeaning(op.items);
  }

  lemma UnsignedMeaning(items: seq<Item>)
    requires |items| == 6
    ensures Meaning(Unsigned(items)) == Array(Meanings(items[..5]) + [ByteString([])])
  {
    MeaningsAppend(items[..5], ByteArray([]));
  }

  lemma MeaningsAppend(items: seq<Item>, item: Item)
    ensures Meanings(items + [item]) == Meanings(items) + [Meaning(item)]
  {
    assert (items + [item])[..|items|] == items;
  }

  /** What can be serialized: integers of the VM's range and lengths below 2^32. */
  predicate Encodable(item: Item)
    decreases item
  {
    match item
    case AnyNull => true
    case Boolean(_) => true
    case Integer(n) => -0x8000_0000_0000_0000_0000_0000_0000_0000_0000_0000_0000_0000_0000_0000_0000_0000 <= n
                       < 0x8000_0000_0000_0000_0000_0000_0000_0000_0000_0000_0000_0000_0000_0000_0000_0000
    case ByteArray(bytes) => |bytes| < 0x1_0000_0000
    case Text(utf8) => |utf8| < 0x1_0000_0000
    case Hash(_) => true
    case ArrayOf(items) => |items| < 0x1_0000_0000 && forall x | x in items :: Encodable(x)
    case StructOf(fields) => |fields| < 0x1_0000_0000 && forall x | x in fields :: Encodable(x)
  }

  lemma {:induction false} SerializesExactly(item: Item)
    ensures SerializeValue(item).Some? <==> Encodable(item)
    decreases item, 1
  {
    LengthsExactly();
    match item
    case Integer(n) =>
      VmRangeExactly(n);
      if InVmRange(n) {
        WidthWithin(n, 32);
      }
    case ArrayOf(items) => SerializeAllExactly(items);
    case StructOf(fields) => SerializeAllExactly(fields);
    case _ =>
  }

  lemma {:induction false} SerializeAllExactly(items: seq<Item>)
    ensures SerializeAll(items).Some? <==> forall x | x in items :: Encodable(x)
    decreases items, 0
  {
    if items != [] {
      SerializesExactly(items[0]);
      SerializeAllExactly(items[1..]);
      assert items == [items[0]] + items[1..];
    }
  }

  lemma VmRangeExactly(n: int)
    ensures InVmRange(n) <==>
              -0x8000_0000_0000_0000_0000_0000_0000_0000_0000_0000_0000_0000_0000_0000_0000_0000 <= n
              < 0x8000_0000_0000_0000_0000_0000_0000_0000_0000_0000_0000_0000_0000_0000_0000_0000
  {
    assert Pow256(8) == 0x1_0000_0000_0000_0000 by { WidthsExactly(); }
    assert Pow256(16) == 0x1_0000_0000_0000_0000 * 0x1_0000_0000_0000_0000;
    assert Pow256(31) == 0x100_0000_0000_0000_0000_0000_0000_0000_0000_0000_0000_0000_0000_0000_0000_0000;
  }

  lemma LengthsExactly()
    ensures forall n: nat :: VarInt(n).Some? <==> n < 0x1_0000_0000
  {
    assert Pow256(4) == 256 * (256 * (256 * (256 * Pow256(0))));
  }

  /** A preimage exists exactly for six fields of which the first five can be serialized, and 32- and 64-bit numbers. */
  lemma PreimageExactly(c: SigningContext, op: Item)
    ensures SigningPreimage(c, op).Some? <==>
              && 0 <= c.network < 0x1_0000_0000
              && 0 <= c.authorityEpoch < 0x1_0000_0000_0000_0000 && 0 <= c.configurationNonce < 0x1_0000_0000_0000_0000
              && op.ArrayOf? && |op.items| == 6 && forall k | 0 <= k < 5 :: Encodable(op.items[k])
  {
    hide SerializeValue, ToLe;
    WidthsExactly();
    if op.ArrayOf? && |op.items| == 6 {
      SerializesExactly(Unsigned(op.items));
      assert forall k | 0 <= k < 5 :: Unsigned(op.items).items[k] == op.items[k];
      assert forall x | x in Unsigned(op.items).items :: x == ByteArray([]) || exists k :: 0 <= k < 5 && x == op.items[k];
    }
  }

  lemma WidthsExactly()
    ensures Pow256(4) == 0x1_0000_0000 && Pow256(8) == 0x1_0000_0000_0000_0000
  {
    assert Pow256(4) == 256 * (256 * (256 * (256 * Pow256(0))));
    assert Pow256(8) == 256 * (256 * (256 * (256 * Pow256(4))));
  }

  /** A tag, the length `n` in one, three or five bytes, and the body. */
  predicate Framed(bytes: seq<Byte>, tag: Byte, n: nat, body: seq<Byte>) {
    bytes == [tag]
      + (if n < 0xFD then [n]
         else if n < 0x1_0000 then [0xFD, n % 0x100, n / 0x100]
         else if n < 0x1_0000_0000 then [0xFE, n % 0x100, n / 0x100 % 0x100, n / 0x1_0000 % 0x100, n / 0x100_0000]
         else [])
      + body
  }

  lemma LittleEndian(n: nat)
    ensures n < 0x1_0000 ==> ToLe(n, 2) == [n % 0x100, n / 0x100]
    ensures n < 0x1_0000_0000 ==> ToLe(n, 4) == [n % 0x100, n / 0x100 % 0x100, n / 0x1_0000 % 0x100, n / 0x100_0000]
  {
    if n < 0x1_0000_0000 {
      var (b, c, d) := (n / 0x100, n / 0x1_0000, n / 0x100_0000);
      assert b / 0x100 == c && c / 0x100 == d && d / 0x100 == 0 && d % 0x100 == d;
      assert ToLe(d, 1) == [d] + ToLe(0, 0);
      assert ToLe(c, 2) == [c % 0x100] + ToLe(d, 1);
      assert ToLe(b, 3) == [b % 0x100] + ToLe(c, 2);
      assert ToLe(n, 4) == [n % 0x100] + ToLe(b, 3);
      assert n < 0x1_0000 ==> ToLe(b, 1) == [b % 0x100] + ToLe(c, 0) && ToLe(n, 2) == [n % 0x100] + ToLe(b, 1);
    }
  }

  lemma WithLengthIsFramed(tag: Byte, n: nat, body: seq<Byte>)
    ensures WithLength(tag, n, body).Some? <==> n < 0x1_0000_0000
    ensures WithLength(tag, n, body).Some? ==> Framed(WithLength(tag, n, body).value, tag, n, body)
  {
    hide ToLe;
    LittleEndian(n);
    WidthsExactly();
    if n < 0x1_0000_0000 && n >= 0xFD {
      assert [0xFD] + [n % 0x100, n / 0x100] == [0xFD, n % 0x100, n / 0x100];
      assert [0xFE] + [n % 0x100, n / 0x100 % 0x100, n / 0x1_0000 % 0x100, n / 0x100_0000]
          == [0xFE, n % 0x100, n / 0x100 % 0x100, n / 0x1_0000 % 0x100, n / 0x100_0000];
    }
  }

  /** Serializations in bytes, for every value: its tag, its length where it has one, and its content. */
  lemma SerializationLayout(item: Item)
    requires SerializeValue(item).Some?
    ensures var bytes := SerializeValue(item).value;
            match item
            case AnyNull => bytes == [0x00]
            case Boolean(b) => bytes == [0x20, if b then 1 else 0]
            case Integer(n) =>
              exists w: nat, body | Framed(bytes, 0x21, w, body) :: |body| == w <= 32 && FromSigned(body) == n && (w > 0 ==> !Fits(n, w - 1))
            case ByteArray(x) => Framed(bytes, 0x28, |x|, x)
            case Text(x) => Framed(bytes, 0x28, |x|, x)
            case Hash(x) => Framed(bytes, 0x28, 20, x)
            case ArrayOf(items) => SerializeAll(items).Some? && Framed(bytes, 0x40, |items|, SerializeAll(items).value)
            case StructOf(fields) => SerializeAll(fields).Some? && Framed(bytes, 0x41, |fields|, SerializeAll(fields).value)
  {
    hide WithLength, Framed, Minimal, SerializeAll;
    match item
    case AnyNull =>
    case Boolean(b) =>
    case Integer(n) =>
      IntegerLayout(n);
      WithLengthIsFramed(0x21, |Minimal(n)|, Minimal(n));
      assert Framed(SerializeValue(item).value, 0x21, |Minimal(n)|, Minimal(n));
    case ByteArray(x) => WithLengthIsFramed(0x28, |x|, x);
    case Text(x) => WithLengthIsFramed(0x28, |x|, x);
    case Hash(x) => WithLengthIsFramed(0x28, |x|, x);
    case ArrayOf(items) => WithLengthIsFramed(0x40, |items|, SerializeAll(items).value);
    case StructOf(fields) => WithLengthIsFramed(0x41, |fields|, SerializeAll(fields).value);
  }

  lemma IntegerLayout(n: int)
    requires InVmRange(n)
    ensures |Minimal(n)| <= 32 && FromSigned(Minimal(n)) == n && (|Minimal(n)| > 0 ==> !Fits(n, |Minimal(n)| - 1))
  {
    WidthWithin(n, 32);
    SignedRoundTrip(n, Width(n));
  }

  /** Elements are serialized in their order. */
  lemma {:induction false} LastSerializesLast(items: seq<Item>, last: Item)
    ensures SerializeAll(items + [last]).Some? <==> SerializeAll(items).Some? && SerializeValue(last).Some?
    ensures SerializeAll(items + [last]).Some? ==> SerializeAll(items + [last]).value == SerializeAll(items).value + SerializeValue(last).value
  {
    hide SerializeValue;
    if items == [] {
      assert items + [last] == [last] && [last][1..] == [];
    } else {
      assert (items + [last])[1..] == items[1..] + [last] && (items + [last])[0] == items[0];
      LastSerializesLast(items[1..], last);
    }
  }

  lemma SmallIntegers()
    ensures Minimal(0) == [] && Minimal(128) == [0x80, 0x00] && Minimal(-1) == [0xFF]
  {
    assert Pow256(1) == 256 * Pow256(0) && Pow256(2) == 256 * Pow256(1);
    assert Fits(0, 0) && Fits(-1, 1) && !Fits(-1, 0) && Fits(128, 2) && !Fits(128, 1) && !Fits(128, 0);
    assert Width(0) == 0 && Width(-1) == 1 && Width(128) == 2;
  }

  lemma ShortInBytes(tag: Byte, n: nat, body: seq<Byte>)
    requires n < 0xFD
    ensures WithLength(tag, n, body) == Some([tag, n] + body)
  {
    assert [tag] + [n] + body == [tag, n] + body;
  }

  lemma ItemsInBytes()
    ensures SerializeValue(AnyNull) == Some([0x00]) && SerializeValue(Boolean(true)) == Some([0x20, 1])
    ensures SerializeValue(Integer(0)) == Some([0x21, 0] + []) && SerializeValue(Integer(128)) == Some([0x21, 2] + [0x80, 0x00])
    ensures SerializeValue(Integer(-1)) == Some([0x21, 1] + [0xFF])
    ensures SerializeValue(ByteArray([7, 8])) == Some([0x28, 2] + [7, 8]) && SerializeValue(StructOf([])) == Some([0x41, 0] + [])
  {
    hide Minimal, WithLength;
    SmallIntegers();
    assert InVmRange(0) && InVmRange(-1) && InVmRange(128) by { VmRangeExactly(0); VmRangeExactly(-1); VmRangeExactly(128); }
    ShortInBytes(0x21, 0, []);
    ShortInBytes(0x21, 2, [0x80, 0x00]);
    ShortInBytes(0x21, 1, [0xFF]);
    ShortInBytes(0x28, 2, [7, 8]);
    ShortInBytes(0x41, 0, []);
    assert SerializeAll([]) == Some([]);
  }

  lemma FrontSerializes(items: seq<Item>, k: nat, first: seq<Byte>, rest: seq<Byte>, whole: seq<Byte>)
    requires k < |items| && SerializeValue(items[k]) == Some(first) && SerializeAll(items[k + 1..]) == Some(rest) && whole == first + rest
    ensures SerializeAll(items[k..]) == Some(whole)
  {
    hide SerializeValue;
    assert items[k..][1..] == items[k + 1..];
  }

  lemma ArrayInBytes(items: seq<Item>, body: seq<Byte>)
    requires SerializeAll(items) == Some(body) && |items| < 0xFD
    ensures SerializeValue(ArrayOf(items)) == Some([0x40, |items|] + body)
  {
    hide SerializeAll;
    ShortInBytes(0x40, |items|, body);
  }

  /** Serializations in bytes: every kind with its tag, a length in front of what has one, integers least significant byte first. */
  lemma SerializationInBytes()
    ensures SerializeValue(AnyNull) == Some([0x00]) && SerializeValue(Boolean(true)) == Some([0x20, 1])
    ensures SerializeValue(Integer(0)) == Some([0x21, 0] + []) && SerializeValue(Integer(128)) == Some([0x21, 2] + [0x80, 0x00])
    ensures SerializeValue(Integer(-1)) == Some([0x21, 1] + [0xFF])
    ensures SerializeValue(ByteArray([7, 8])) == Some([0x28, 2] + [7, 8]) && SerializeValue(StructOf([])) == Some([0x41, 0] + [])
    ensures SerializeValue(ArrayOf([Boolean(true), AnyNull])) == Some([0x40, 2] + [0x20, 1, 0x00])
  {
    hide SerializeValue;
    ItemsInBytes();
    var items := [Boolean(true), AnyNull];
    assert items[2..] == [] && SerializeAll([]) == Some([]);
    FrontSerializes(items, 1, [0x00], [], [0x00]);
    FrontSerializes(items, 0, [0x20, 1], [0x00], [0x20, 1, 0x00]);
    assert items[0..] == items;
    ArrayInBytes(items, [0x20, 1, 0x00]);
  }
}
