/**
 The value-to-script compiler: typed parameters become push instructions.  Its results are byte
 strings or an error, as in the source; the theorems relate those bytes to the stack machine and
 to the recogniser.
 */
module Compiler {
  import opened Bytes
  import opened Values
  import opened Parameters
  import opened Script
  import opened StackMachine
  import opened Recogniser
  import opened ScriptTheorems

  function PushBytes(value: seq<Byte>): Option<seq<Byte>> {
    if |value| > 65535 then None
    else if |value| < 256 then Some([PUSHDATA1, |value|] + value)
    else Some([PUSHDATA2] + ToLe(|value|, 2) + value)
  }

  function PushInteger(value: int): Option<seq<Byte>> {
    if !Fits(value, 32) then None
    else if -1 <= value <= 16 then Some([16 + value])
    else if Fits(value, 1) then Some([0] + ToSigned(value, 1))
    else if Fits(value, 2) then Some([1] + ToSigned(value, 2))
    else if Fits(value, 4) then Some([2] + ToSigned(value, 4))
    else if Fits(value, 8) then Some([3] + ToSigned(value, 8))
    else if Fits(value, 16) then Some([4] + ToSigned(value, 16))
    else Some([5] + ToSigned(value, 32))
  }

  function EncodeValue(item: Item): Option<seq<Byte>>
    decreases item, 1
  {
    match item
    case AnyNull => Some([PUSHNULL])
    case Boolean(b) => Some([if b then PUSHT else PUSHF])
    case Integer(n) => PushInteger(n)
    case ByteArray(bytes) => PushBytes(bytes)
    case Text(utf8) => PushBytes(utf8)
    case Hash(le) => PushBytes(le)
    case ArrayOf(items) =>
      if items == [] then Some([NEWARRAY0])
      else
        (match (EncodeReversed(items), PushInteger(|items|))
         case (Some(body), Some(count)) => Some(body + count + [PACK])
         case _ => None)
    case StructOf(_) => None
  }

  /** The encodings of `items`, last item first. */
  function EncodeReversed(items: seq<Item>): Option<seq<Byte>>
    decreases items, 0
  {
    if items == [] then Some([])
    else
      match (EncodeValue(items[|items| - 1]), EncodeReversed(items[..|items| - 1]))
      case (Some(last), Some(others)) => Some(last + others)
      case _ => None
  }

  /** The values the compiler is defined on. */
  predicate InDomain(item: Item) {
    match item
    case Integer(n) => InVmRange(n)
    case ByteArray(bytes) => |bytes| <= 65535
    case Text(utf8) => |utf8| <= 65535
    case ArrayOf(items) => InVmRange(|items|) && forall i | i in items :: InDomain(i)
    case StructOf(_) => false
    case _ => true
  }

  /** Encodings in bytes: one byte for constants and integers from -1 to 16, little-endian operands, items last to first. */
  lemma EncodingsInBytes()
    ensures EncodeValue(AnyNull) == Some([0x0B]) && EncodeValue(Boolean(true)) == Some([0x08]) && EncodeValue(Boolean(false)) == Some([0x09])
    ensures EncodeValue(ByteArray([7, 8])) == Some([0x0C, 2] + [7, 8])
    ensures forall n | -1 <= n <= 16 :: EncodeValue(Integer(n)) == Some([0x10 + n])
    ensures EncodeValue(Integer(128)) == Some([0x01] + [0x80, 0x00])
    ensures EncodeValue(ArrayOf([])) == Some([0xC2])
    ensures EncodeValue(ArrayOf([AnyNull, Boolean(true)])) == Some([0x08, 0x0B, 0x12, 0xC0])
  {
    SmallFits();
    var items := [AnyNull, Boolean(true)];
    assert EncodeReversed([]) == Some([]);
    LastEncodes([AnyNull], [0x0B], [], [0x0B]);
    LastEncodes(items, [0x08], [0x0B], [0x08, 0x0B]);
    assert PushInteger(2) == Some([0x12]);
    assert [0x08, 0x0B] + [0x12] + [PACK] == [0x08, 0x0B, 0x12, 0xC0];
  }

  lemma LastEncodes(items: seq<Item>, last: seq<Byte>, others: seq<Byte>, whole: seq<Byte>)
    requires items != [] && EncodeValue(items[|items| - 1]) == Some(last) && EncodeReversed(items[..|items| - 1]) == Some(others)
    requires whole == last + others
    ensures EncodeReversed(items) == Some(whole)
  {
    hide EncodeValue;
  }

  lemma SmallFits()
    ensures forall n | -128 <= n <= 128 :: Fits(n, 32)
    ensures !Fits(128, 1) && Fits(128, 2) && ToSigned(128, 2) == [0x80, 0x00]
  {
    assert Pow256(31) >= 256 by { assert Pow256(31) == 256 * Pow256(30) && Pow256(30) >= 1; }
    assert Pow256(1) == 256 * Pow256(0);
    assert ToLe(128, 2) == [128] + ToLe(0, 1) && ToLe(0, 1) == [0];
  }

  /** The widths that an integer push can have. */
  predicate IsPushWidth(w: nat) {
    w in {1, 2, 4, 8, 16, 32}
  }

  /** An integer beyond the constants is pushed with the narrowest operand that holds it. */
  lemma PushIntegerIsShortest(value: int, w: nat)
    requires IsPushWidth(w) && Fits(value, w) && !(-1 <= value <= 16)
    ensures PushInteger(value).Some? && 2 <= |PushInteger(value).value| <= 1 + w
  {
    hide ToSigned;
    if w < 32 {
      FitsMonotone(value, w, 32);
    }
  }

  // ---------------------------------------------------------------------------
  // Correctness
  // ---------------------------------------------------------------------------

  /** `code` is data instructions whose only effect is to push `v`. */
  ghost predicate Pushes(code: seq<Instruction>, v: Value) {
    && AllData(code)
    && forall m: Machine | m.Running? :: Execute(code, m) == Push(m, v)
  }

  /** `s` is the encoding of data instructions whose only effect is to push `v`. */
  ghost predicate EncodesPush(s: seq<Byte>, v: Value) {
    exists code :: Pushes(code, v) && AssembleAll(code) == s
  }

  lemma SingleInstruction(i: Instruction, v: Value)
    requires Valid(i) && IsDataOp(i.op)
    requires forall m: Machine | m.Running? :: Step(i, m) == Push(m, v)
    ensures EncodesPush(Assemble(i), v)
  {
    var code := [i];
    forall m: Machine | m.Running? ensures Execute(code, m) == Push(m, v) {
      assert code == [i] + [];
      ExecuteCons(i, [], m);
    }
    assert AssembleAll(code) == Assemble(i) by {
      assert code[1..] == [] && AssembleAll(code) == Assemble(i) + [];
    }
    assert Pushes(code, v);
  }

  lemma PushBytesCorrect(value: seq<Byte>)
    ensures PushBytes(value).Some? <==> |value| <= 65535
    ensures PushBytes(value).Some? ==> EncodesPush(PushBytes(value).value, ByteString(value))
  {
    if |value| < 256 {
      var i := Instruction(PUSHDATA1, value);
      PushAssembles(value);
      SingleInstruction(i, ByteString(value));
    } else if |value| <= 65535 {
      SingleInstruction(Instruction(PUSHDATA2, value), ByteString(value));
    }
  }

  lemma WideInteger(value: int, code: Byte, size: nat)
    requires code <= PUSHINT256 && size == OperandWidth(code) && Fits(value, size)
    ensures EncodesPush([code] + ToSigned(value, size), Int(value))
  {
    hide ToSigned, FromSigned, Fits, EncodesPush;
    var i := Instruction(code, ToSigned(value, size));
    SignedRoundTrip(value, size);
    SingleInstruction(i, Int(value));
    assert Assemble(i) == [code] + ToSigned(value, size);
  }

  lemma PushIntegerCorrect(value: int)
    ensures PushInteger(value).Some? <==> InVmRange(value)
    ensures PushInteger(value).Some? ==> EncodesPush(PushInteger(value).value, Int(value))
  {
    if !Fits(value, 32) {
    } else if -1 <= value <= 16 {
      var i := Instruction(16 + value, []);
      assert Assemble(i) == [16 + value];
      SingleInstruction(i, Int(value));
    } else if Fits(value, 1) { WideInteger(value, 0, 1); }
    else if Fits(value, 2) { WideInteger(value, 1, 2); }
    else if Fits(value, 4) { WideInteger(value, 2, 4); }
    else if Fits(value, 8) { WideInteger(value, 3, 8); }
    else if Fits(value, 16) { WideInteger(value, 4, 16); }
    else { WideInteger(value, 5, 32); }
  }

  /** `code` pushes all of `vs`, the first of them ending on top. */
  ghost predicate PushesAll(code: seq<Instruction>, vs: seq<Value>) {
    && AllData(code)
    && forall m: Machine | m.Running? :: Execute(code, m) == m.(stack := vs + m.stack)
  }

  ghost predicate EncodesPushAll(s: seq<Byte>, vs: seq<Value>) {
    exists code :: PushesAll(code, vs) && AssembleAll(code) == s
  }

  /**
   Compiler correctness: the compiler succeeds exactly on its domain, and the bytes are accepted
   as data pushes whose only effect is to leave the denoted value on the stack.
   */
  lemma {:induction false} EncodeValueCorrect(item: Item)
    ensures EncodeValue(item).Some? <==> InDomain(item)
    ensures EncodeValue(item).Some? ==> EncodesPush(EncodeValue(item).value, Meaning(item))
    decreases item, 1
  {
    match item
    case AnyNull =>
      assert Assemble(Instruction(PUSHNULL, [])) == [PUSHNULL];
      SingleInstruction(Instruction(PUSHNULL, []), Null);
    case Boolean(b) =>
      var op := if b then PUSHT else PUSHF;
      assert Assemble(Instruction(op, [])) == [op];
      SingleInstruction(Instruction(op, []), Bool(b));
    case Integer(n) => PushIntegerCorrect(n);
    case ByteArray(bytes) => PushBytesCorrect(bytes);
    case Text(utf8) => PushBytesCorrect(utf8);
    case Hash(le) => PushBytesCorrect(le);
    case ArrayOf(items) =>
      if items == [] {
        assert Assemble(Instruction(NEWARRAY0, [])) == [NEWARRAY0];
        SingleInstruction(Instruction(NEWARRAY0, []), Array([]));
        assert InVmRange(0);
      } else {
        EncodeReversedCorrect(items);
        PushIntegerCorrect(|items|);
        if EncodeReversed(items).Some? && PushInteger(|items|).Some? {
          PackItems(EncodeReversed(items).value, PushInteger(|items|).value, Meanings(items));
        }
      }
    case StructOf(_) =>
  }

  lemma {:induction false} EncodeReversedCorrect(items: seq<Item>)
    ensures EncodeReversed(items).Some? <==> forall i | i in items :: InDomain(i)
    ensures EncodeReversed(items).Some? ==> EncodesPushAll(EncodeReversed(items).value, Meanings(items))
    decreases items, 0
  {
    if items == [] {
      assert PushesAll([], []) by {
        forall m: Machine | m.Running? ensures Execute([], m) == m.(stack := [] + m.stack) {
          assert [] + m.stack == m.stack;
        }
      }
    } else {
      var last, others := items[|items| - 1], items[..|items| - 1];
      EncodeValueCorrect(last);
      EncodeReversedCorrect(others);
      assert items == others + [last];
      if EncodeValue(last).Some? && EncodeReversed(others).Some? {
        PushThenPushAll(EncodeValue(last).value, Meaning(last), EncodeReversed(others).value, Meanings(others));
      }
    }
  }

  lemma PushThenPushAll(s: seq<Byte>, v: Value, t: seq<Byte>, vs: seq<Value>)
    requires EncodesPush(s, v) && EncodesPushAll(t, vs)
    ensures EncodesPushAll(s + t, vs + [v])
  {
    var a :| Pushes(a, v) && AssembleAll(a) == s;
    var b :| PushesAll(b, vs) && AssembleAll(b) == t;
    AssembleAllConcat(a, b);
    forall m: Machine | m.Running? ensures Execute(a + b, m) == m.(stack := (vs + [v]) + m.stack) {
      RunsInTurn(a, b, m, Push(m, v), m.(stack := vs + ([v] + m.stack)));
      ConcatAssociates(vs, [v], m.stack);
    }
    assert PushesAll(a + b, vs + [v]);
  }

  lemma RunsInTurn(a: seq<Instruction>, b: seq<Instruction>, m: Machine, n: Machine, r: Machine)
    requires AllData(a) && AllData(b)
    requires Execute(a, m) == n && Execute(b, n) == r
    ensures Execute(a + b, m) == r
  {
    ExecuteConcat(a, b, m);
  }

  lemma PackRuns(vs: seq<Value>, m: Machine)
    requires m.Running?
    ensures Execute([Instruction(PACK, [])], m.(stack := [Int(|vs|)] + (vs + m.stack))) == Push(m, Array(vs))
  {
    var all := vs + m.stack;
    assert ([Int(|vs|)] + all)[1..] == all && all[..|vs|] == vs && all[|vs|..] == m.stack;
    assert [Instruction(PACK, [])] == [Instruction(PACK, [])] + [];
    ExecuteCons(Instruction(PACK, []), [], m.(stack := [Int(|vs|)] + all));
  }

  lemma PushesAllAt(code: seq<Instruction>, vs: seq<Value>, m: Machine)
    requires PushesAll(code, vs) && m.Running?
    ensures AllData(code) && Execute(code, m) == m.(stack := vs + m.stack)
  {
  }

  lemma PushesAt(code: seq<Instruction>, v: Value, m: Machine)
    requires Pushes(code, v) && m.Running?
    ensures AllData(code) && Execute(code, m) == Push(m, v)
  {
  }

  lemma PackAllRuns(a: seq<Instruction>, b: seq<Instruction>, vs: seq<Value>, m: Machine)
    requires m.Running? && AllData(a) && AllData(b)
    requires Execute(a, m) == m.(stack := vs + m.stack)
    requires Execute(b, m.(stack := vs + m.stack)) == Push(m.(stack := vs + m.stack), Int(|vs|))
    ensures Execute((a + b) + [Instruction(PACK, [])], m) == Push(m, Array(vs))
  {
    hide Execute;
    var full := m.(stack := vs + m.stack);
    RunsInTurn(a, b, m, full, Push(full, Int(|vs|)));
    PackRuns(vs, m);
    RunsInTurn(a + b, [Instruction(PACK, [])], m, Push(full, Int(|vs|)), Push(m, Array(vs)));
  }

  lemma PackedIsData(a: seq<Instruction>, b: seq<Instruction>)
    requires AllData(a) && AllData(b)
    ensures AllData((a + b) + [Instruction(PACK, [])])
  {
  }

  lemma PackCode(a: seq<Instruction>, b: seq<Instruction>, vs: seq<Value>)
    requires PushesAll(a, vs) && Pushes(b, Int(|vs|))
    ensures Pushes((a + b) + [Instruction(PACK, [])], Array(vs))
  {
    PackedIsData(a, b);
    hide Execute, PushesAll;
    forall m: Machine | m.Running?
      ensures Execute((a + b) + [Instruction(PACK, [])], m) == Push(m, Array(vs))
    {
      PushesAllAt(a, vs, m);
      PushesAt(b, Int(|vs|), m.(stack := vs + m.stack));
      PackAllRuns(a, b, vs, m);
    }
  }

  lemma AssemblePacked(a: seq<Instruction>, b: seq<Instruction>)
    ensures AssembleAll((a + b) + [Instruction(PACK, [])]) == AssembleAll(a) + AssembleAll(b) + [PACK]
  {
    var p := [Instruction(PACK, [])];
    AssembleAllConcat(a, b);
    AssembleAllConcat(a + b, p);
    assert p[1..] == [];
  }

  /** Pushing all elements, their number, and PACK builds the array. */
  lemma PackItems(body: seq<Byte>, count: seq<Byte>, vs: seq<Value>)
    requires EncodesPushAll(body, vs) && EncodesPush(count, Int(|vs|))
    ensures EncodesPush(body + count + [PACK], Array(vs))
  {
    hide PushesAll, Pushes, AssembleAll;
    var a :| PushesAll(a, vs) && AssembleAll(a) == body;
    var b :| Pushes(b, Int(|vs|)) && AssembleAll(b) == count;
    PackCode(a, b, vs);
    AssemblePacked(a, b);
  }

  /** Data instructions followed by the tail are a call script. */
  lemma PushesThenTail(code: seq<Instruction>, account: Hash160, flags: Byte, name: seq<Byte>, core: Hash160)
    requires AllData(code) && |name| < 256 && PUSH0 <= flags <= PUSH15
    ensures var script := AssembleAll(code) + TailBytes(account, flags, name, core);
            IsCallScript(script, code, flags, account, name, core) && SingleCallOf(script, account, name, core)
  {
    hide AssembleAll, TailBytes, Tail;
    TailAssembles(account, flags, name, core);
    assert IsCallScript(AssembleAll(code) + TailBytes(account, flags, name, core), code, flags, account, name, core);
  }

  /**
   Completeness of the recogniser for compiled operations: the encoding of any value in the domain
   followed by the call tail is accepted for the account, and executing it makes exactly the call
   `name(account, value)` on the core.
   */
  lemma CompiledOperationIsBoundAndRuns(op: Item, account: Hash160, flags: Byte, name: seq<Byte>, core: Hash160)
    requires InDomain(op) && |name| < 256 && PUSH0 <= flags <= PUSH15
    ensures EncodeValue(op).Some?
    ensures var script := EncodeValue(op).value + TailBytes(account, flags, name, core);
            && SingleCallOf(script, account, name, core)
            && RunScript(script)
               == Running([], [ContractCall(core, name, flags as int - 16, [ByteString(account), Meaning(op)])])
  {
    hide Execute, EncodeValue, AssembleAll, Meaning, RunScript, TailBytes, Tail, SingleCallOf, IsCallScript, Pushes;
    EncodeValueCorrect(op);
    var code :| Pushes(code, Meaning(op)) && AssembleAll(code) == EncodeValue(op).value;
    var script := EncodeValue(op).value + TailBytes(account, flags, name, core);
    PushesAt(code, Meaning(op), Running([], []));
    PushesThenTail(code, account, flags, name, core);
    CallScriptRuns(script, code, flags, account, name, core);
  }
}
