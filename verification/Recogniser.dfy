/**
 The verification-phase recogniser: a transaction script is bound to an account when it is data
 pushes followed by exactly one `executeUserOp`/`executeUserOps` call on the core for that account.

 The methods keep the source's cursor and loop; their contracts say which scripts are accepted in
 terms of instructions, never in terms of byte offsets.
 */
module Recogniser {
  import opened Bytes
  import opened Values
  import opened Script

  /** "executeUserOp" and "executeUserOps" in ASCII. */
  const EXECUTE_USER_OP: seq<Byte> :=
    [0x65, 0x78, 0x65, 0x63, 0x75, 0x74, 0x65, 0x55, 0x73, 0x65, 0x72, 0x4F, 0x70]
  const EXECUTE_USER_OPS: seq<Byte> :=
    [0x65, 0x78, 0x65, 0x63, 0x75, 0x74, 0x65, 0x55, 0x73, 0x65, 0x72, 0x4F, 0x70, 0x73]
  const PUSH_EXECUTE_USER_OP: seq<Byte> :=
    [0x0C, 0x0D, 0x65, 0x78, 0x65, 0x63, 0x75, 0x74, 0x65, 0x55, 0x73, 0x65, 0x72, 0x4F, 0x70]
  const PUSH_EXECUTE_USER_OPS: seq<Byte> :=
    [0x0C, 0x0E, 0x65, 0x78, 0x65, 0x63, 0x75, 0x74, 0x65, 0x55, 0x73, 0x65, 0x72, 0x4F, 0x70, 0x73]
  const PUSHDATA_20: seq<Byte> := [0x0C, 0x14]
  const PUSH2_PACK: seq<Byte> := [0x12, 0xC0]
  const SYSCALL_CONTRACT_CALL: seq<Byte> := [0x41, 0x62, 0x7D, 0x5B, 0x52]
  const CONTRACT_CALL: seq<Byte> := [0x62, 0x7D, 0x5B, 0x52]

  /** The seven instructions every bound script ends with. */
  function Tail(account: Hash160, flags: Byte, name: seq<Byte>, core: Hash160): seq<Instruction> {
    [
      Instruction(PUSHDATA1, account),
      Instruction(PUSH2, []),
      Instruction(PACK, []),
      Instruction(flags, []),
      Instruction(PUSHDATA1, name),
      Instruction(PUSHDATA1, core),
      Instruction(SYSCALL, CONTRACT_CALL)
    ]
  }

  /** The two method names are ASCII text. */
  lemma NamesAreText()
    ensures |EXECUTE_USER_OP| == 13 && forall k | 0 <= k < 13 :: EXECUTE_USER_OP[k] == "executeUserOp"[k] as int
    ensures |EXECUTE_USER_OPS| == 14 && forall k | 0 <= k < 14 :: EXECUTE_USER_OPS[k] == "executeUserOps"[k] as int
  {
  }

  /** `script` is the encoding of data instructions followed by one call of `name` for `account`. */
  ghost predicate SingleCallOf(script: seq<Byte>, account: Hash160, name: seq<Byte>, core: Hash160) {
    exists prefix: seq<Instruction>, flags: Byte ::
      IsCallScript(script, prefix, flags, account, name, core)
  }

  ghost predicate IsCallScript(
      script: seq<Byte>, prefix: seq<Instruction>, flags: Byte,
      account: Hash160, name: seq<Byte>, core: Hash160) {
    && AllData(prefix)
    && PUSH0 <= flags <= PUSH15
    && script == AssembleAll(prefix) + AssembleAll(Tail(account, flags, name, core))
  }

  // ---------------------------------------------------------------------------
  // Data pushes
  // ---------------------------------------------------------------------------

  /** `s` decodes, from its first byte, as data instructions only. */
  ghost predicate DataRun(s: seq<Byte>) {
    DecodeAll(s).Some? && AllData(DecodeAll(s).value)
  }

  lemma EmptyDataRun()
    ensures DataRun([])
  {
  }

  lemma DataRunStep(s: seq<Byte>)
    requires s != []
    ensures DataRun(s) <==>
              Decode(s).Some? && IsDataOp(s[0]) && Size(Decode(s).value) <= |s| && DataRun(s[Size(Decode(s).value)..])
  {
    if Decode(s).Some? {
      DecodeIsExact(s);
      var i := Decode(s).value;
      var tail := DecodeAll(s[Size(i)..]);
      if tail.Some? {
        var all := [i] + tail.value;
        assert DecodeAll(s) == Some(all);
        assert all[0] == i && forall k | 0 <= k < |tail.value| :: all[k + 1] == tail.value[k];
      }
    }
  }

  /** `s` is the encoding of data instructions. */
  ghost predicate AssembledData(s: seq<Byte>) {
    exists code :: AllData(code) && AssembleAll(code) == s
  }

  /** A byte run is a data run exactly when it is the encoding of data instructions. */
  lemma DataRunIffAssembled(s: seq<Byte>)
    ensures DataRun(s) <==> AssembledData(s)
  {
    if DataRun(s) {
      DecodeAllIsExact(s);
    }
    if AssembledData(s) {
      var code :| AllData(code) && AssembleAll(code) == s;
      AssembleAllDecodes(code);
    }
  }

  method DataPushInstructionSize(script: seq<Byte>, index: nat, end: nat) returns (size: nat)
    requires index < end <= |script|
    ensures size > 0 <==> Decode(script[index..end]).Some? && IsDataOp(script[index])
    ensures size > 0 ==> size == Size(Decode(script[index..end]).value)
  {
    var op := script[index];
    ghost var s := script[index..end];
    if op == 0x00 { size := 2; }
    else if op == 0x01 { size := 3; }
    else if op == 0x02 { size := 5; }
    else if op == 0x03 { size := 9; }
    else if op == 0x04 { size := 17; }
    else if op == 0x05 { size := 33; }
    else if op == 0x08 || op == 0x09 || op == 0x0B { size := 1; }
    else if op == 0x0C {
      if index + 1 >= end { return 0; }
      size := 2 + script[index + 1] as int;
      assert s[1] == script[index + 1];
      FromLe1(s[1..2]);
    } else if op == 0x0D {
      if index + 2 >= end { return 0; }
      size := 3 + script[index + 1] as int + script[index + 2] as int * 256;
      assert s[1] == script[index + 1] && s[2] == script[index + 2];
      FromLe2(s[1..3]);
    } else if op == 0x0E {
      if index + 4 >= end { return 0; }
      size := 5 + script[index + 1] as int + script[index + 2] as int * 256
        + script[index + 3] as int * 65536 + script[index + 4] as int * 16777216;
      assert forall k | 1 <= k < 5 :: s[k] == script[index + k];
      FromLe4(s[1..5]);
    } else if op >= 0x0F && op <= 0x20 { size := 1; }
    else if op == 0xBE || op == 0xBF || op == 0xC0 { size := 1; }
    else if op == 0xC2 || op == 0xC5 || op == 0xC8 { size := 1; }
    else if op == 0xDB { size := 2; }
    else { return 0; }

    if index + size > end { return 0; }
  }

  lemma FromLe1(s: seq<Byte>)
    requires |s| == 1
    ensures FromLe(s) == s[0]
  {
    assert FromLe(s[1..]) == 0;
  }

  lemma FromLe2(s: seq<Byte>)
    requires |s| == 2
    ensures FromLe(s) == s[0] as int + s[1] as int * 256
  {
    FromLe1(s[1..]);
  }

  lemma FromLe4(s: seq<Byte>)
    requires |s| == 4
    ensures FromLe(s) == s[0] as int + s[1] as int * 256 + s[2] as int * 65536 + s[3] as int * 16777216
  {
    FromLe2(s[2..]);
    assert s[1..][1..] == s[2..];
  }

  method ScriptPrefixIsDataPushes(script: seq<Byte>, end: nat) returns (ok: bool)
    requires end <= |script|
    ensures ok <==> AssembledData(script[..end])
  {
    hide DataRun, AssembledData, Decode;
    DataRunIffAssembled(script[..end]);
    EmptyDataRun();
    var i := 0;
    while i < end
      invariant 0 <= i <= end
      invariant DataRun(script[..end]) <==> DataRun(script[i..end])
    {
      DataRunStep(script[i..end]);
      var size := DataPushInstructionSize(script, i, end);
      if size == 0 { return false; }
      DecodeIsExact(script[i..end]);
      assert script[i..end][size..] == script[i + size..end];
      i := i + size;
    }
    assert script[i..end] == [];
    return i == end;
  }

  // ---------------------------------------------------------------------------
  // The whole script
  // ---------------------------------------------------------------------------

  function PushOf(name: seq<Byte>): seq<Byte>
    requires |name| < 256
  {
    [PUSHDATA1, |name|] + name
  }

  function TailBytes(account: Hash160, flags: Byte, name: seq<Byte>, core: Hash160): (s: seq<Byte>)
    requires |name| < 256
    ensures |s| == 54 + |name| && s[24] == flags
  {
    PUSHDATA_20 + (account + (PUSH2_PACK + ([flags] + (PushOf(name) + (PUSHDATA_20 + (core + SYSCALL_CONTRACT_CALL))))))
  }

  lemma SyscallAssembles()
    ensures AssembleAll([Instruction(SYSCALL, CONTRACT_CALL)]) == SYSCALL_CONTRACT_CALL
  {
    assert [Instruction(SYSCALL, CONTRACT_CALL)][1..] == [];
  }

  lemma TailAssembles(account: Hash160, flags: Byte, name: seq<Byte>, core: Hash160)
    requires |name| < 256 && PUSH0 <= flags <= PUSH15
    ensures AssembleAll(Tail(account, flags, name, core)) == TailBytes(account, flags, name, core)
  {
    hide AssembleAll;
    PushAssembles(account);
    PushAssembles(name);
    PushAssembles(core);
    var t6 := [Instruction(SYSCALL, CONTRACT_CALL)];
    var t5 := [Instruction(PUSHDATA1, core)] + t6;
    var t4 := [Instruction(PUSHDATA1, name)] + t5;
    var t3 := [Instruction(flags, [])] + t4;
    var t2 := [Instruction(PACK, [])] + t3;
    var t1 := [Instruction(PUSH2, [])] + t2;
    SyscallAssembles();
    ConsAssembles(Instruction(PUSHDATA1, core), t6);
    ConsAssembles(Instruction(PUSHDATA1, name), t5);
    ConsAssembles(Instruction(flags, []), t4);
    ConsAssembles(Instruction(PACK, []), t3);
    ConsAssembles(Instruction(PUSH2, []), t2);
    ConsAssembles(Instruction(PUSHDATA1, account), t1);
    assert [PUSH2] + ([PACK] + AssembleAll(t3)) == PUSH2_PACK + AssembleAll(t3);
    assert PushOf(account) == PUSHDATA_20 + account && PushOf(core) == PUSHDATA_20 + core;
    assert Tail(account, flags, name, core) == [Instruction(PUSHDATA1, account)] + t1;
  }

  lemma PushAssembles(data: seq<Byte>)
    requires |data| < 256
    ensures Assemble(Instruction(PUSHDATA1, data)) == PushOf(data)
  {
    assert ToLe(|data|, 1) == [|data|];
  }

  /** Cutting a known part off the front of what is still expected. */
  lemma Peel(script: seq<Byte>, cursor: nat, part: seq<Byte>, rest: seq<Byte>)
    requires cursor + |part| <= |script|
    ensures script[cursor..] == part + rest <==>
              script[cursor..cursor + |part|] == part && script[cursor + |part|..] == rest
  {
    var s := script[cursor..];
    assert s == s[..|part|] + s[|part|..];
    assert s[..|part|] == script[cursor..cursor + |part|] && s[|part|..] == script[cursor + |part|..];
  }

  /** Compares the bytes at the cursor with the next expected part. */
  method Expect(script: seq<Byte>, cursor: nat, part: seq<Byte>, ghost rest: seq<Byte>) returns (ok: bool)
    requires cursor + |part| <= |script|
    ensures script[cursor..] == part + rest <==> ok && script[cursor + |part|..] == rest
  {
    Peel(script, cursor, part, rest);
    ok := script[cursor..cursor + |part|] == part;
  }

  /** An accepted script is decided by the bytes of its tail and the bytes before it. */
  lemma SplitAtTail(script: seq<Byte>, account: Hash160, name: seq<Byte>, core: Hash160)
    requires |name| < 256
    ensures SingleCallOf(script, account, name, core) <==>
              && |script| >= 54 + |name|
              && var t := |script| - 54 - |name|;
              && PUSH0 <= script[t + 24] <= PUSH15
              && script[t..] == TailBytes(account, script[t + 24], name, core)
              && AssembledData(script[..t])
  {
    hide TailBytes, AssembleAll, Tail, AllData;
    if SingleCallOf(script, account, name, core) {
      var prefix, flags :| IsCallScript(script, prefix, flags, account, name, core);
      TailAssembles(account, flags, name, core);
      var t := |AssembleAll(prefix)|;
      assert script[..t] == AssembleAll(prefix) && script[t..] == TailBytes(account, flags, name, core);
      assert script[t + 24] == script[t..][24] == flags;
    }
    if |script| >= 54 + |name| {
      var t := |script| - 54 - |name|;
      var flags := script[t + 24];
      if PUSH0 <= flags <= PUSH15 && script[t..] == TailBytes(account, flags, name, core) && AssembledData(script[..t]) {
        var prefix :| AllData(prefix) && AssembleAll(prefix) == script[..t];
        TailAssembles(account, flags, name, core);
        assert script == script[..t] + script[t..];
        assert IsCallScript(script, prefix, flags, account, name, core);
      }
    }
  }

  /** The tail in bytes: account, two arguments packed, call flags, method, core, and the call. */
  lemma TailInBytes(account: Hash160, flags: Byte, name: seq<Byte>, core: Hash160)
    requires |name| < 256 && 0x10 <= flags <= 0x1F
    ensures AssembleAll(Tail(account, flags, name, core))
         == [0x0C, 20] + account + [0x12, 0xC0] + [flags] + ([0x0C, |name|] + name) + [0x0C, 20] + core + [0x41, 0x62, 0x7D, 0x5B, 0x52]
  {
    hide AssembleAll, Tail;
    TailAssembles(account, flags, name, core);
  }

  /** The seven instructions of the tail, part by part. */
  method TailMatches(script: seq<Byte>, tailStart: nat, account: Hash160, methodPush: seq<Byte>, core: Hash160, ghost name: seq<Byte>)
    returns (ok: bool)
    requires |name| < 256 && methodPush == PushOf(name) && tailStart + 54 + |name| == |script|
    ensures ok <==> PUSH0 <= script[tailStart + 24] <= PUSH15
                    && script[tailStart..] == TailBytes(account, script[tailStart + 24], name, core)
  {
    var cursor := tailStart;
    ghost var f := script[tailStart + 24];
    ghost var g := core + SYSCALL_CONTRACT_CALL;
    ghost var h := methodPush + (PUSHDATA_20 + g);

    ok := Expect(script, cursor, PUSHDATA_20, account + (PUSH2_PACK + ([f] + h)));
    if !ok { return; }
    cursor := cursor + 2;
    ok := Expect(script, cursor, account, PUSH2_PACK + ([f] + h));
    if !ok { return; }
    cursor := cursor + 20;
    ok := Expect(script, cursor, PUSH2_PACK, [f] + h);
    if !ok { return; }
    cursor := cursor + 2;
    var flags := script[cursor];
    if flags < 0x10 || flags > 0x1F { return false; }
    Peel(script, cursor, [f], h);
    cursor := cursor + 1;
    ok := Expect(script, cursor, methodPush, PUSHDATA_20 + g);
    if !ok { return; }
    cursor := cursor + |methodPush|;
    ok := Expect(script, cursor, PUSHDATA_20, g);
    if !ok { return; }
    cursor := cursor + 2;
    ok := Expect(script, cursor, core, SYSCALL_CONTRACT_CALL);
    if !ok { return; }
    cursor := cursor + 20;
    assert SYSCALL_CONTRACT_CALL + [] == SYSCALL_CONTRACT_CALL;
    ok := Expect(script, cursor, SYSCALL_CONTRACT_CALL, []);
  }

  method ScriptIsSingleExecuteCall(
      script: seq<Byte>, account: Hash160, methodPush: seq<Byte>, core: Hash160, ghost name: seq<Byte>)
    returns (ok: bool)
    requires |name| < 256 && methodPush == PushOf(name)
    ensures ok <==> SingleCallOf(script, account, name, core)
  {
    hide SingleCallOf, AssembledData, TailBytes;
    SplitAtTail(script, account, name, core);
    var tailLength := 22 + 2 + 1 + |methodPush| + 22 + |SYSCALL_CONTRACT_CALL|;
    if |script| < tailLength { return false; }
    var tailStart := |script| - tailLength;
    ok := TailMatches(script, tailStart, account, methodPush, core, name);
    if !ok { return; }
    ok := ScriptPrefixIsDataPushes(script, tailStart);
  }

  /**
   The transaction-level test: the proxy does not pay the fees and the script is one call of
   either execution entry point for this account.
   */
  method TransactionIsBoundToAccountExecution(
      script: seq<Byte>, sender: Hash160, account: Hash160, proxy: Hash160, core: Hash160) returns (ok: bool)
    ensures ok <==>
            && sender != proxy
            && (SingleCallOf(script, account, EXECUTE_USER_OP, core) || SingleCallOf(script, account, EXECUTE_USER_OPS, core))
  {
    if sender == proxy { return false; }
    SplitAtTail(script, account, EXECUTE_USER_OP, core);
    SplitAtTail(script, account, EXECUTE_USER_OPS, core);
    if |script| == 0 { return false; }
    ok := ScriptIsSingleExecuteCall(script, account, PUSH_EXECUTE_USER_OP, core, EXECUTE_USER_OP);
    if !ok {
      ok := ScriptIsSingleExecuteCall(script, account, PUSH_EXECUTE_USER_OPS, core, EXECUTE_USER_OPS);
    }
  }
}
