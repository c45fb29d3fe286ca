/**
 NeoVM byte scripts, as far as the wallet's verification phase looks at them: the encoding of
 one instruction, its decoder, and the inverse laws between the two.

 An instruction is its opcode and its operand.  The length prefix of PUSHDATA1/2/4 is not part
 of the operand: the opcode and the operand determine it.
 */
module Script {
  import opened Bytes
  import opened Values

  const PUSHINT8: Byte := 0x00
  const PUSHINT256: Byte := 0x05
  const PUSHT: Byte := 0x08
  const PUSHF: Byte := 0x09
  const PUSHNULL: Byte := 0x0B
  const PUSHDATA1: Byte := 0x0C
  const PUSHDATA2: Byte := 0x0D
  const PUSHDATA4: Byte := 0x0E
  const PUSHM1: Byte := 0x0F
  const PUSH0: Byte := 0x10
  const PUSH2: Byte := 0x12
  const PUSH15: Byte := 0x1F
  const PUSH16: Byte := 0x20
  const SYSCALL: Byte := 0x41
  const PACKMAP: Byte := 0xBE
  const PACKSTRUCT: Byte := 0xBF
  const PACK: Byte := 0xC0
  const NEWARRAY0: Byte := 0xC2
  const NEWSTRUCT0: Byte := 0xC5
  const NEWMAP: Byte := 0xC8
  const CONVERT: Byte := 0xDB

  datatype Instruction = Instruction(op: Byte, operand: seq<Byte>)

  /** Opcodes that only put data on the stack: constants, compound constructors, CONVERT. */
  predicate IsDataOp(op: Byte) {
    || op <= PUSHINT256 || op == PUSHT || op == PUSHF || op == PUSHNULL
    || PUSHDATA1 <= op <= PUSH16
    || op == PACKMAP || op == PACKSTRUCT || op == PACK
    || op == NEWARRAY0 || op == NEWSTRUCT0 || op == NEWMAP
    || op == CONVERT
  }

  predicate IsKnownOp(op: Byte) {
    IsDataOp(op) || op == SYSCALL
  }

  /** Bytes of explicit length prefix before the operand. */
  function PrefixWidth(op: Byte): nat {
    if op == PUSHDATA1 then 1 else if op == PUSHDATA2 then 2 else if op == PUSHDATA4 then 4 else 0
  }

  /** Operand size of an opcode without a length prefix. */
  function OperandWidth(op: Byte): nat {
    if op <= PUSHINT256 then [1, 2, 4, 8, 16, 32][op]
    else if op == CONVERT then 1
    else if op == SYSCALL then 4
    else 0
  }

  predicate Valid(i: Instruction) {
    && IsKnownOp(i.op)
    && if PrefixWidth(i.op) == 0 then |i.operand| == OperandWidth(i.op)
       else |i.operand| < Pow256(PrefixWidth(i.op))
  }

  predicate AllValid(code: seq<Instruction>) {
    forall i | i in code :: Valid(i)
  }

  /** Data instructions only. */
  predicate AllData(code: seq<Instruction>) {
    forall i | i in code :: Valid(i) && IsDataOp(i.op)
  }

  function Assemble(i: Instruction): (s: seq<Byte>)
    ensures |s| == Size(i) > 0
  {
    [i.op] + ToLe(|i.operand|, PrefixWidth(i.op)) + i.operand
  }

  function Size(i: Instruction): nat {
    1 + PrefixWidth(i.op) + |i.operand|
  }

  function AssembleAll(code: seq<Instruction>): seq<Byte> {
    if code == [] then [] else Assemble(code[0]) + AssembleAll(code[1..])
  }

  /** The data opcodes in bytes, with what follows each: a fixed operand, or a length of this many bytes. */
  lemma DataOpcodesExactly(op: Byte)
    ensures IsDataOp(op) <==>
              || op in {0x00, 0x01, 0x02, 0x03, 0x04, 0x05, 0x08, 0x09, 0x0B, 0x0C, 0x0D, 0x0E} || 0x0F <= op <= 0x20
              || op in {0xBE, 0xBF, 0xC0, 0xC2, 0xC5, 0xC8, 0xDB}
    ensures PrefixWidth(op) == if op == 0x0C then 1 else if op == 0x0D then 2 else if op == 0x0E then 4 else 0
    ensures IsDataOp(op) && PrefixWidth(op) == 0 ==>
              OperandWidth(op) == if op == 0x00 || op == 0xDB then 1 else if op == 0x01 then 2 else if op == 0x02 then 4
                                  else if op == 0x03 then 8 else if op == 0x04 then 16 else if op == 0x05 then 32 else 0
  {
  }

  // ---------------------------------------------------------------------------
  // Decoding
  // ---------------------------------------------------------------------------

  /** The instruction at the front of `s`, or None for an unknown opcode or a truncated operand. */
  function Decode(s: seq<Byte>): Option<Instruction> {
    if s == [] || !IsKnownOp(s[0]) then None
    else
      var w := PrefixWidth(s[0]);
      if |s| < 1 + w then None
      else
        var n := if w == 0 then OperandWidth(s[0]) else FromLe(s[1..1 + w]);
        if |s| < 1 + w + n then None else Some(Instruction(s[0], s[1 + w..1 + w + n]))
  }

  function DecodeAll(s: seq<Byte>): Option<seq<Instruction>> {
    if s == [] then Some([])
    else match Decode(s)
      case None => None
      case Some(i) =>
        if |s| < Size(i) then None
        else match DecodeAll(s[Size(i)..])
          case None => None
          case Some(rest) => Some([i] + rest)
  }

  /** Decoding yields a valid instruction whose encoding is exactly the bytes consumed. */
  lemma DecodeIsExact(s: seq<Byte>)
    requires Decode(s).Some?
    ensures var i := Decode(s).value; Valid(i) && Size(i) <= |s| && s[..Size(i)] == Assemble(i)
  {
    var i, w := Decode(s).value, PrefixWidth(s[0]);
    assert s[..Size(i)] == [s[0]] + s[1..1 + w] + i.operand;
    if w > 0 {
      FromLeBound(s[1..1 + w]);
      LeRoundTripBytes(s[1..1 + w]);
    }
  }

  lemma AssembleDecodes(i: Instruction, rest: seq<Byte>)
    requires Valid(i)
    ensures Decode(Assemble(i) + rest) == Some(i)
  {
    var s, w := Assemble(i) + rest, PrefixWidth(i.op);
    assert s[1..1 + w] == ToLe(|i.operand|, w);
    assert s[1 + w..1 + w + |i.operand|] == i.operand;
    if w > 0 {
      LeRoundTrip(|i.operand|, w);
    }
  }

  /** The decoder and the assembler are inverse to each other. */
  lemma {:induction false} DecodeAllIsExact(s: seq<Byte>)
    requires DecodeAll(s).Some?
    ensures AllValid(DecodeAll(s).value) && AssembleAll(DecodeAll(s).value) == s
    decreases |s|
  {
    hide Decode, Assemble;
    if s != [] {
      DecodeIsExact(s);
      var i := Decode(s).value;
      DecodeAllIsExact(s[Size(i)..]);
      assert s == s[..Size(i)] + s[Size(i)..];
      assert DecodeAll(s).value[1..] == DecodeAll(s[Size(i)..]).value;
    }
  }

  lemma {:induction false} AssembleAllDecodes(code: seq<Instruction>)
    requires AllValid(code)
    ensures DecodeAll(AssembleAll(code)) == Some(code)
  {
    if code != [] {
      var i, rest := code[0], AssembleAll(code[1..]);
      AssembleDecodes(i, rest);
      AssembleAllDecodes(code[1..]);
      DecodeStep(i, rest);
      assert [i] + code[1..] == code;
    }
  }

  lemma DecodeStep(i: Instruction, rest: seq<Byte>)
    requires Decode(Assemble(i) + rest) == Some(i) && DecodeAll(rest).Some?
    ensures DecodeAll(Assemble(i) + rest) == Some([i] + DecodeAll(rest).value)
  {
    var s := Assemble(i) + rest;
    assert s[Size(i)..] == rest;
  }

  lemma ConsAssembles(i: Instruction, code: seq<Instruction>)
    ensures AssembleAll([i] + code) == Assemble(i) + AssembleAll(code)
  {
    assert ([i] + code)[1..] == code;
  }

  lemma {:induction false} AssembleAllConcat(a: seq<Instruction>, b: seq<Instruction>)
    ensures AssembleAll(a + b) == AssembleAll(a) + AssembleAll(b)
  {
    hide Assemble;
    if a == [] {
      assert a + b == b;
    } else {
      AssembleAllConcat(a[1..], b);
      assert (a + b)[0] == a[0] && (a + b)[1..] == a[1..] + b;
      ConcatAssociates(Assemble(a[0]), AssembleAll(a[1..]), AssembleAll(b));
    }
  }
}
