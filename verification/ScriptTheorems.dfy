/**
 What accepting a script means: execution faults, or makes exactly one call, and that call runs
 the named entry point of this core for this account.
 */
module ScriptTheorems {
  import opened Bytes
  import opened Values
  import opened Script
  import opened StackMachine
  import opened Recogniser

  /** PUSHDATA account, PUSH2, PACK: the account and the item below it become the argument array. */
  lemma PackArguments(account: Hash160, m: Machine)
    requires m.Running?
    ensures var packed := Step(Instruction(PACK, []), Push(Push(m, ByteString(account)), Int(2)));
            packed ==
              if m.stack == [] then Fault
              else Running([Array([ByteString(account), m.stack[0]])] + m.stack[1..], m.calls)
  {
    if m.stack != [] {
      var below := [ByteString(account)] + m.stack;
      assert ([Int(2)] + below)[1..] == below;
      assert below[..2] == [ByteString(account), m.stack[0]] && below[2..] == m.stack[1..];
    }
  }

  /** The last four instructions call `name` on the core with the array on top of the stack. */
  lemma CallWithArguments(flags: Byte, name: seq<Byte>, core: Hash160, args: seq<Value>, rest: seq<Value>, calls: seq<ContractCall>)
    requires PUSH0 <= flags <= PUSH15
    ensures var ready := Push(Push(Push(Running([Array(args)] + rest, calls), Int(flags as int - 16)), ByteString(name)), ByteString(core));
            Step(Instruction(SYSCALL, CONTRACT_CALL), ready)
              == Running(rest, calls + [ContractCall(core, name, flags as int - 16, args)])
  {
    var stack := [ByteString(core)] + ([ByteString(name)] + ([Int(flags as int - 16)] + ([Array(args)] + rest)));
    assert stack[4..] == rest;
  }

  lemma ExecuteCons(i: Instruction, code: seq<Instruction>, m: Machine)
    requires Valid(i) && AllValid(code)
    ensures AllValid([i] + code) && Execute([i] + code, m) == Execute(code, Step(i, m))
  {
    assert ([i] + code)[1..] == code;
  }

  /** Executing the seven tail instructions on any running machine. */
  lemma TailCalls(account: Hash160, flags: Byte, name: seq<Byte>, core: Hash160, m: Machine)
    requires |name| < 256 && PUSH0 <= flags <= PUSH15 && m.Running?
    ensures var t := Tail(account, flags, name, core);
            && AllValid(t)
            && Execute(t, m) ==
               if m.stack == [] then Fault
               else Running(m.stack[1..], m.calls + [ContractCall(core, name, flags as int - 16, [ByteString(account), m.stack[0]])])
  {
    var front := [Instruction(PUSHDATA1, account), Instruction(PUSH2, []), Instruction(PACK, [])];
    var back := [Instruction(flags, []), Instruction(PUSHDATA1, name), Instruction(PUSHDATA1, core), Instruction(SYSCALL, CONTRACT_CALL)];
    assert Tail(account, flags, name, core) == front + back;
    FrontRuns(account, m);
    ExecuteConcat(front, back, m);
    PackArguments(account, m);
    if m.stack == [] {
      FaultIsFinal(back);
    } else {
      BackRuns(flags, name, core, [ByteString(account), m.stack[0]], m.stack[1..], m.calls);
    }
  }

  lemma FrontRuns(account: Hash160, m: Machine)
    requires m.Running?
    ensures Execute([Instruction(PUSHDATA1, account), Instruction(PUSH2, []), Instruction(PACK, [])], m)
         == Step(Instruction(PACK, []), Push(Push(m, ByteString(account)), Int(2)))
  {
    var code := [Instruction(PACK, [])];
    ExecuteCons(Instruction(PACK, []), [], Push(Push(m, ByteString(account)), Int(2)));
    ExecuteCons(Instruction(PUSH2, []), code, Push(m, ByteString(account)));
    ExecuteCons(Instruction(PUSHDATA1, account), [Instruction(PUSH2, [])] + code, m);
    assert code == [Instruction(PACK, [])] + [];
  }

  lemma BackRuns(flags: Byte, name: seq<Byte>, core: Hash160, args: seq<Value>, rest: seq<Value>, calls: seq<ContractCall>)
    requires |name| < 256 && PUSH0 <= flags <= PUSH15
    ensures Execute([Instruction(flags, []), Instruction(PUSHDATA1, name), Instruction(PUSHDATA1, core), Instruction(SYSCALL, CONTRACT_CALL)],
                    Running([Array(args)] + rest, calls))
         == Running(rest, calls + [ContractCall(core, name, flags as int - 16, args)])
  {
    var m3 := Running([Array(args)] + rest, calls);
    var m4 := Push(m3, Int(flags as int - 16));
    var m5 := Push(m4, ByteString(name));
    var m6 := Push(m5, ByteString(core));
    CallWithArguments(flags, name, core, args, rest, calls);
    var sys := [Instruction(SYSCALL, CONTRACT_CALL)];
    ExecuteCons(Instruction(SYSCALL, CONTRACT_CALL), [], m6);
    assert sys == [Instruction(SYSCALL, CONTRACT_CALL)] + [];
    ExecuteCons(Instruction(PUSHDATA1, core), sys, m5);
    ExecuteCons(Instruction(PUSHDATA1, name), [Instruction(PUSHDATA1, core)] + sys, m4);
    ExecuteCons(Instruction(flags, []), [Instruction(PUSHDATA1, name)] + ([Instruction(PUSHDATA1, core)] + sys), m3);
    assert [Instruction(flags, []), Instruction(PUSHDATA1, name), Instruction(PUSHDATA1, core), Instruction(SYSCALL, CONTRACT_CALL)]
        == [Instruction(flags, [])] + ([Instruction(PUSHDATA1, name)] + ([Instruction(PUSHDATA1, core)] + sys));
  }

  /**
   Soundness of the recogniser.  With `before` the machine after the data pushes, the script faults
   exactly when the pushes fault or leave nothing for the operation argument; otherwise its only
   contract call is `name(account, top)` on the core.
   */
  lemma BoundScriptMakesOneCall(script: seq<Byte>, account: Hash160, name: seq<Byte>, core: Hash160)
    requires |name| < 256 && SingleCallOf(script, account, name, core)
    ensures exists prefix: seq<Instruction>, flags: Byte ::
              && IsCallScript(script, prefix, flags, account, name, core)
              && DecodeAll(script) == Some(prefix + Tail(account, flags, name, core))
              && var before := Execute(prefix, Running([], []));
              && RunScript(script) ==
                 if before.Fault? || before.stack == [] then Fault
                 else Running(before.stack[1..],
                        [ContractCall(core, name, flags as int - 16, [ByteString(account), before.stack[0]])])
  {
    var prefix, flags :| IsCallScript(script, prefix, flags, account, name, core);
    CallScriptRuns(script, prefix, flags, account, name, core);
  }

  lemma CallScriptRuns(
      script: seq<Byte>, prefix: seq<Instruction>, flags: Byte,
      account: Hash160, name: seq<Byte>, core: Hash160)
    requires |name| < 256 && IsCallScript(script, prefix, flags, account, name, core)
    ensures DecodeAll(script) == Some(prefix + Tail(account, flags, name, core))
    ensures var before := Execute(prefix, Running([], []));
            RunScript(script) ==
              if before.Fault? || before.stack == [] then Fault
              else Running(before.stack[1..],
                     [ContractCall(core, name, flags as int - 16, [ByteString(account), before.stack[0]])])
  {
    hide Execute, Tail, Step;
    var t := Tail(account, flags, name, core);
    TailIsValid(account, flags, name, core);
    AssembleAllConcat(prefix, t);
    AssembleAllDecodes(prefix + t);
    var start := Running([], []);
    var before := Execute(prefix, start);
    ExecuteConcat(prefix, t, start);
    DataMakesNoCall(prefix, start);
    if before.Fault? {
      FaultIsFinal(t);
    } else {
      TailCalls(account, flags, name, core, before);
    }
  }

  lemma TailIsValid(account: Hash160, flags: Byte, name: seq<Byte>, core: Hash160)
    requires |name| < 256 && PUSH0 <= flags <= PUSH15
    ensures AllValid(Tail(account, flags, name, core))
  {
  }

  /**
   The statement a transaction's verification relies on: whatever a bound script does, every
   contract call it makes is an execution entry point of this core for this account, and it
   makes exactly one unless it faults.
   */
  lemma BoundTransactionOnlyExecutesTheAccount(script: seq<Byte>, account: Hash160, core: Hash160)
    requires SingleCallOf(script, account, EXECUTE_USER_OP, core) || SingleCallOf(script, account, EXECUTE_USER_OPS, core)
    ensures var r := RunScript(script);
            r.Fault? ||
            (&& |r.calls| == 1
             && r.calls[0].target == core
             && r.calls[0].name in {EXECUTE_USER_OP, EXECUTE_USER_OPS}
             && |r.calls[0].args| == 2 && r.calls[0].args[0] == ByteString(account))
  {
    if SingleCallOf(script, account, EXECUTE_USER_OP, core) {
      BoundScriptMakesOneCall(script, account, EXECUTE_USER_OP, core);
    } else {
      BoundScriptMakesOneCall(script, account, EXECUTE_USER_OPS, core);
    }
  }

  /** No script is bound to two accounts. */
  lemma BoundAccountIsUnique(script: seq<Byte>, a: Hash160, b: Hash160, name: seq<Byte>, core: Hash160)
    requires |name| < 256 && SingleCallOf(script, a, name, core) && SingleCallOf(script, b, name, core)
    ensures a == b
  {
    hide SingleCallOf, AssembledData;
    SplitAtTail(script, a, name, core);
    SplitAtTail(script, b, name, core);
    var t := |script| - 54 - |name|;
    assert TailBytes(a, script[t + 24], name, core)[2..22] == a;
    assert TailBytes(b, script[t + 24], name, core)[2..22] == b;
  }

  // ---------------------------------------------------------------------------
  // The other call shape
  // ---------------------------------------------------------------------------

  /** The tail of `application_script`: four arguments are packed instead of two. */
  function FourArgumentTail(account: Hash160, name: seq<Byte>, core: Hash160): (s: seq<Byte>)
    requires |name| < 256
    ensures |s| == 54 + |name| && s[22] == 0x14
    ensures forall i | 0 <= i < |name| :: s[27 + i] == name[i]
  {
    var front := PUSHDATA_20 + account + [0x14, 0xC0] + [0x1F];
    var push := PushOf(name);
    assert |front| == 25 && |push| == 2 + |name| && forall i | 0 <= i < |name| :: push[2 + i] == name[i];
    front + push + (PUSHDATA_20 + core + SYSCALL_CONTRACT_CALL)
  }

  /** What an accepted script has at two fixed places counted from its end. */
  lemma AcceptedBytes(script: seq<Byte>, account: Hash160, name: seq<Byte>, core: Hash160)
    requires 0 < |name| < 256 && SingleCallOf(script, account, name, core)
    ensures |script| >= 54 + |name|
    ensures var t := |script| - 54 - |name|; script[t + 22] == 0x12 && script[t + 27] == name[0]
  {
    hide SingleCallOf, AssembledData;
    SplitAtTail(script, account, name, core);
    var t := |script| - 54 - |name|;
    var tail := TailBytes(account, script[t + 24], name, core);
    assert tail[22] == 0x12 && tail[27] == name[0];
    assert script[t + 22] == script[t..][22] && script[t + 27] == script[t..][27];
  }

  /** A script with the four-argument tail is never accepted, for either entry point, any account and any core. */
  lemma FourArgumentTailIsRejected(
      body: seq<Byte>, account: Hash160, name: seq<Byte>, core: Hash160, other: Hash160, entry: seq<Byte>, wallet: Hash160)
    requires name in {EXECUTE_USER_OP, EXECUTE_USER_OPS} && entry in {EXECUTE_USER_OP, EXECUTE_USER_OPS}
    ensures !SingleCallOf(body + FourArgumentTail(account, name, core), other, entry, wallet)
  {
    hide SingleCallOf;
    var tail := FourArgumentTail(account, name, core);
    var script := body + tail;
    if SingleCallOf(script, other, entry, wallet) {
      AcceptedBytes(script, other, entry, wallet);
      assert script[|body| + 22] == tail[22] && script[|body| + 27] == name[0] && script[|body| + 28] == name[1];
      if |entry| > |name| {
        FourTailPush(account, name, core);
      }
    }
  }

  lemma FourTailPush(account: Hash160, name: seq<Byte>, core: Hash160)
    requires |name| < 256
    ensures FourArgumentTail(account, name, core)[26] == |name|
  {
    var front := PUSHDATA_20 + account + [0x14, 0xC0] + [0x1F];
    assert FourArgumentTail(account, name, core) == front + PushOf(name) + (PUSHDATA_20 + core + SYSCALL_CONTRACT_CALL);
    assert (front + PushOf(name))[26] == PushOf(name)[1];
  }
}
