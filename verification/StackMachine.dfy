/**
 A NeoVM stack machine for the instructions a bound script may contain: constant pushes, the
 compound constructors, CONVERT, and SYSCALL System.Contract.Call.

 The head of `stack` is the top of the evaluation stack.  `calls` lists the contract calls made.
 The reply of a call is not pushed: in every bound script the call is the last instruction.
 */
module StackMachine {
  import opened Bytes
  import opened Values
  import opened Script

  datatype ContractCall = ContractCall(target: seq<Byte>, name: seq<Byte>, flags: int, args: seq<Value>)

  datatype Machine =
    | Running(stack: seq<Value>, calls: seq<ContractCall>)
    | Fault

  const TYPE_BOOLEAN: Byte := 0x20
  const TYPE_INTEGER: Byte := 0x21
  const TYPE_BYTESTRING: Byte := 0x28
  const TYPE_BUFFER: Byte := 0x30
  const TYPE_ARRAY: Byte := 0x40
  const TYPE_STRUCT: Byte := 0x41
  const TYPE_MAP: Byte := 0x48
  const TYPE_POINTER: Byte := 0x10
  const TYPE_INTEROP: Byte := 0x60

  function AsBytes(v: Value): Option<seq<Byte>> {
    match v
    case ByteString(b) => Some(b)
    case Buffer(b) => Some(b)
    case Int(n) => Some(Minimal(n))
    case Bool(b) => Some([if b then 1 else 0])
    case _ => None
  }

  function AsInteger(v: Value): Option<int> {
    match v
    case Int(n) => Some(n)
    case Bool(b) => Some(if b then 1 else 0)
    case ByteString(b) => if |b| <= 32 then Some(FromSigned(b)) else None
    case Buffer(b) => if |b| <= 32 then Some(FromSigned(b)) else None
    case _ => None
  }

  function AsBoolean(v: Value): Option<bool> {
    match v
    case Null => Some(false)
    case Bool(b) => Some(b)
    case Int(n) => Some(n != 0)
    case ByteString(b) => if |b| <= 32 then Some(exists i | 0 <= i < |b| :: b[i] != 0) else None
    case _ => Some(true)
  }

  predicate IsPrimitive(v: Value) {
    v.Bool? || v.Int? || v.ByteString?
  }

  predicate IsTypeCode(t: Byte) {
    t in {TYPE_POINTER, TYPE_BOOLEAN, TYPE_INTEGER, TYPE_BYTESTRING, TYPE_BUFFER, TYPE_ARRAY, TYPE_STRUCT, TYPE_MAP, TYPE_INTEROP}
  }

  function TypeOf(v: Value): Byte
    requires !v.Null?
  {
    match v
    case Bool(_) => TYPE_BOOLEAN
    case Int(_) => TYPE_INTEGER
    case ByteString(_) => TYPE_BYTESTRING
    case Buffer(_) => TYPE_BUFFER
    case Array(_) => TYPE_ARRAY
    case Struct(_) => TYPE_STRUCT
    case Map(_) => TYPE_MAP
  }

  /** Conversion between the types that have an integer or a byte-string form. */
  function ConvertFlat(v: Value, t: Byte): Option<Value> {
    if t == TYPE_INTEGER then
      match AsInteger(v)
      case Some(n) => Some(Int(n))
      case None => None
    else
      match AsBytes(v)
      case Some(b) => if t == TYPE_BYTESTRING then Some(ByteString(b)) else if t == TYPE_BUFFER then Some(Buffer(b)) else None
      case None => None
  }

  /** CONVERT: null keeps being null, every other value converts as the NeoVM type table says. */
  function ConvertTo(v: Value, t: Byte): Option<Value> {
    if v.Null? then (if IsTypeCode(t) then Some(Null) else None)
    else if t == TypeOf(v) then Some(v)
    else if t == TYPE_BOOLEAN then
      match AsBoolean(v)
      case Some(b) => Some(Bool(b))
      case None => None
    else if v.Array? && t == TYPE_STRUCT then Some(Struct(v.items))
    else if v.Struct? && t == TYPE_ARRAY then Some(Array(v.fields))
    else ConvertFlat(v, t)
  }

  /** Insertion into a map, keeping the place of a key that is already there. */
  function PutEntry(entries: seq<(Value, Value)>, k: Value, v: Value): seq<(Value, Value)> {
    if entries == [] then [(k, v)]
    else if entries[0].0 == k then [(k, v)] + entries[1..]
    else [entries[0]] + PutEntry(entries[1..], k, v)
  }

  /** The map that PACKMAP builds from `n` key/value pairs popped off `stack`, or None on a bad key. */
  function PopEntries(stack: seq<Value>, n: nat, sofar: seq<(Value, Value)>): Option<seq<(Value, Value)>>
    requires 2 * n <= |stack|
    decreases n
  {
    if n == 0 then Some(sofar)
    else if !IsPrimitive(stack[0]) then None
    else PopEntries(stack[2..], n - 1, PutEntry(sofar, stack[0], stack[1]))
  }

  /** The count operand of a compound constructor: the popped top of the stack. */
  function Count(stack: seq<Value>): Option<nat> {
    if stack == [] then None
    else match AsInteger(stack[0])
      case Some(n) => if n >= 0 then Some(n) else None
      case None => None
  }

  function Push(m: Machine, v: Value): Machine
    requires m.Running?
  {
    m.(stack := [v] + m.stack)
  }

  function PackStep(op: Byte, m: Machine): Machine
    requires m.Running?
  {
    match Count(m.stack)
    case None => Fault
    case Some(n) =>
      var below := m.stack[1..];
      if op == PACKMAP then
        if |below| < 2 * n then Fault
        else match PopEntries(below, n, [])
          case None => Fault
          case Some(entries) => m.(stack := [Map(entries)] + below[2 * n..])
      else if |below| < n then Fault
      else
        m.(stack := [if op == PACK then Array(below[..n]) else Struct(below[..n])] + below[n..])
  }

  function CallStep(m: Machine): Machine
    requires m.Running?
  {
    if |m.stack| < 4 then Fault
    else
      var target, name, flags := AsBytes(m.stack[0]), AsBytes(m.stack[1]), AsInteger(m.stack[2]);
      var args := m.stack[3];
      if target.None? || |target.value| != 20 || name.None? then Fault
      else if flags.None? || !(0 <= flags.value <= 15) then Fault
      else if !args.Array? && !args.Struct? then Fault
      else
        var items := if args.Array? then args.items else args.fields;
        Running(m.stack[4..], m.calls + [ContractCall(target.value, name.value, flags.value, items)])
  }

  function Step(i: Instruction, m: Machine): Machine
    requires Valid(i)
  {
    if m.Fault? then Fault
    else if i.op <= PUSHINT256 then Push(m, Int(FromSigned(i.operand)))
    else if i.op == PUSHT then Push(m, Bool(true))
    else if i.op == PUSHF then Push(m, Bool(false))
    else if i.op == PUSHNULL then Push(m, Null)
    else if PUSHDATA1 <= i.op <= PUSHDATA4 then Push(m, ByteString(i.operand))
    else if PUSHM1 <= i.op <= PUSH16 then Push(m, Int(i.op as int - 16))
    else if i.op == PACKMAP || i.op == PACKSTRUCT || i.op == PACK then PackStep(i.op, m)
    else if i.op == NEWARRAY0 then Push(m, Array([]))
    else if i.op == NEWSTRUCT0 then Push(m, Struct([]))
    else if i.op == NEWMAP then Push(m, Map([]))
    else if i.op == CONVERT then
      if m.stack == [] then Fault
      else match ConvertTo(m.stack[0], i.operand[0])
        case None => Fault
        case Some(v) => m.(stack := [v] + m.stack[1..])
    else if i.operand == [0x62, 0x7D, 0x5B, 0x52] then CallStep(m)
    else Fault
  }

  function Execute(code: seq<Instruction>, m: Machine): Machine
    requires AllValid(code)
  {
    if code == [] then m else Execute(code[1..], Step(code[0], m))
  }

  /** A whole script: decode it and execute it on the empty stack. */
  function RunScript(script: seq<Byte>): Machine {
    match DecodeAll(script)
    case None => Fault
    case Some(code) => DecodeAllIsExact(script); Execute(code, Running([], []))
  }

  lemma {:induction false} ExecuteConcat(a: seq<Instruction>, b: seq<Instruction>, m: Machine)
    requires AllValid(a) && AllValid(b)
    ensures AllValid(a + b) && Execute(a + b, m) == Execute(b, Execute(a, m))
  {
    if a == [] {
      assert a + b == b;
    } else {
      ExecuteConcat(a[1..], b, Step(a[0], m));
      assert (a + b)[1..] == a[1..] + b;
    }
  }

  lemma {:induction false} FaultIsFinal(code: seq<Instruction>)
    requires AllValid(code)
    ensures Execute(code, Fault) == Fault
  {
    if code != [] {
      FaultIsFinal(code[1..]);
    }
  }

  /** Data instructions never call a contract. */
  lemma {:induction false} DataMakesNoCall(code: seq<Instruction>, m: Machine)
    requires AllData(code) && m.Running?
    ensures var r := Execute(code, m); r.Running? ==> r.calls == m.calls
  {
    if code != [] {
      var next := Step(code[0], m);
      if next.Fault? {
        FaultIsFinal(code[1..]);
      } else {
        DataMakesNoCall(code[1..], next);
      }
    }
  }
}
