/**
 Who the wallet vouches for.  In the verification trigger: the signer whose witness rules admit exactly
 the calls of the wallet and of the account's scope target, in a transaction bound to the account's own
 execution.  In the application trigger: the capability queries that modules and targets ask during
 an operation or a configuration call.
 */
module Witness {
  import opened Bytes
  import opened Values
  import opened Records
  import opened Machine
  import opened Recogniser
  import opened Guarantee

  // ---------------------------------------------------------------------------
  // Witness rules
  // ---------------------------------------------------------------------------

  datatype Condition = CalledByContract(hash: Hash160) | Or(expressions: seq<Condition>) | OtherCondition

  datatype Rule = Rule(allow: bool, condition: Condition)

  /** A signer; `onlyRules` says that its scope is WitnessRules and nothing else. */
  datatype Signer = Signer(account: Hash160, onlyRules: bool, rules: seq<Rule>)

  /** What a condition means when the contract that asks for the witness was called by `caller`. */
  predicate Holds(c: Condition, caller: Hash160)
    decreases c
  {
    match c
    case CalledByContract(hash) => caller == hash
    case Or(expressions) => exists i | 0 <= i < |expressions| :: Holds(expressions[i], caller)
    case OtherCondition => false
  }

  /** The first rule whose condition holds decides; with none the witness fails. */
  predicate Witnesses(rules: seq<Rule>, caller: Hash160) {
    rules != [] && if Holds(rules[0].condition, caller) then rules[0].allow else Witnesses(rules[1..], caller)
  }

  function Either(x: Hash160, y: Hash160): seq<Rule> {
    [Rule(true, Or([CalledByContract(x), CalledByContract(y)]))]
  }

  /** Accepts the two hashes in either order, each exactly once. */
  method HasExactAaWitnessRules(signer: Signer, proxy: Hash160, target: Hash160) returns (ok: bool)
    ensures ok <==> signer.onlyRules && proxy != target && (signer.rules == Either(proxy, target) || signer.rules == Either(target, proxy))
  {
    if !signer.onlyRules || |signer.rules| != 1 { return false; }
    var rule := signer.rules[0];
    if !rule.allow || !rule.condition.Or? || |rule.condition.expressions| != 2 { return false; }
    var expressions := rule.condition.expressions;
    assert expressions == [expressions[0], expressions[1]] && signer.rules == [Rule(true, Or(expressions))];
    var hasProxy, hasTarget := false, false;
    for i := 0 to 2
      invariant forall k | 0 <= k < i :: expressions[k] == CalledByContract(proxy) || expressions[k] == CalledByContract(target)
      invariant hasProxy <==> exists k | 0 <= k < i :: expressions[k] == CalledByContract(proxy)
      invariant hasTarget <==> exists k | 0 <= k < i :: expressions[k] == CalledByContract(target) && target != proxy
    {
      if !expressions[i].CalledByContract? { return false; }
      if expressions[i].hash == proxy { hasProxy := true; }
      else if expressions[i].hash == target { hasTarget := true; }
      else { return false; }
    }
    return hasProxy && hasTarget;
  }

  /** The accepted rules hold when the asking contract was called by the wallet or by the target, and in no other case. */
  lemma ExactRulesWitnessForTwo(x: Hash160, y: Hash160, caller: Hash160)
    ensures Witnesses(Either(x, y), caller) <==> caller == x || caller == y
  {
    var e := [CalledByContract(x), CalledByContract(y)];
    assert Holds(e[0], caller) == (caller == x) && Holds(e[1], caller) == (caller == y);
    assert Either(x, y)[1..] == [];
  }

  /** VerifyScopedTransactionSigner: `target` is the account's scope target, None when it has none. */
  method VerifyScopedTransactionSigner(
      script: seq<Byte>, sender: Hash160, signers: seq<Signer>,
      account: Hash160, proxy: Hash160, core: Hash160, target: Option<Hash160>) returns (ok: bool)
    ensures ok ==>
              && target.Some? && sender != proxy
              && (SingleCallOf(script, account, EXECUTE_USER_OP, core) || SingleCallOf(script, account, EXECUTE_USER_OPS, core))
              && exists s :: s in signers && s.account == proxy && ScopedTo(s, core, target.value)
    ensures !ok && target.Some? && sender != proxy
            && (SingleCallOf(script, account, EXECUTE_USER_OP, core) || SingleCallOf(script, account, EXECUTE_USER_OPS, core))
            ==> forall s | s in signers && s.account == proxy :: !ScopedTo(s, core, target.value)
  {
    if target.None? { return false; }
    var bound := TransactionIsBoundToAccountExecution(script, sender, account, proxy, core);
    if !bound { return false; }
    for i := 0 to |signers|
      invariant forall k | 0 <= k < i && signers[k].account == proxy :: !ScopedTo(signers[k], core, target.value)
    {
      if signers[i].account == proxy {
        var exact := HasExactAaWitnessRules(signers[i], core, target.value);
        if exact {
          assert signers[i] in signers && ScopedTo(signers[i], core, target.value);
          return true;
        }
      }
    }
    return false;
  }

  /** The signer's only scope is a rule admitting exactly two different contracts. */
  predicate ScopedTo(s: Signer, core: Hash160, target: Hash160) {
    s.onlyRules && core != target && (s.rules == Either(core, target) || s.rules == Either(target, core))
  }

  // ---------------------------------------------------------------------------
  // Capability queries
  // ---------------------------------------------------------------------------

  /** Verify in the application trigger, with the native-asset branches as written. */
  predicate Verify(w: World, a: Hash, caller: Hash, neo: Hash, gas: Hash) {
    if (Target, a) !in w.contexts then false
    else
      var active := w.contexts[(Target, a)];
      if active == caller then true
      else if caller == neo then active == neo
      else if caller == gas then active == gas
      else false
  }

  /** CanConfigureVerifier and CanConfigureHook. */
  predicate CanConfigure(contexts: Contexts, role: Role, a: Hash, caller: Hash, m: Hash) {
    (Config(role), a) in contexts && caller == m && contexts[(Config(role), a)] == m
  }

  /** CanExecuteVerifier and CanExecuteHook: the root itself, or a module that the root calls. */
  predicate CanExecute(contexts: Contexts, self: Hash, role: Role, a: Hash, caller: Hash, by_: Hash, m: Hash) {
    && (Executing(role), a) in contexts
    && caller == m
    && (if by_ == self then contexts[(Executing(role), a)] == m else by_ == contexts[(Executing(role), a)])
  }

  /** The native-asset branches add nothing: only the operation's own target is vouched for. */
  lemma OnlyTheTargetIsVerified(w: World, a: Hash, caller: Hash, neo: Hash, gas: Hash)
    ensures Verify(w, a, caller, neo, gas) <==> (Target, a) in w.contexts && w.contexts[(Target, a)] == caller
  {
  }

  /**
   What a module is granted while another one, `root`, is the account's active module in a role: of its own
   execution only what `root` itself calls, or `root` when the core calls it; of configuration only `root`.
   */
  lemma ActiveModuleGrants(contexts: Contexts, self: Hash, role: Role, a: Hash, root: Hash, caller: Hash, by_: Hash, m: Hash)
    ensures (Executing(role), a) in contexts && contexts[(Executing(role), a)] == root ==>
              (CanExecute(contexts, self, role, a, caller, by_, m) <==> caller == m && (if by_ == self then m == root else by_ == root))
    ensures (Config(role), a) in contexts && contexts[(Config(role), a)] == root ==>
              (CanConfigure(contexts, role, a, caller, m) <==> caller == m && m == root)
    ensures (Executing(role), a) !in contexts ==> !CanExecute(contexts, self, role, a, caller, by_, m)
    ensures (Config(role), a) !in contexts ==> !CanConfigure(contexts, role, a, caller, m)
  {
  }

  /** Execution capabilities exist only while the account is executing, and at rest there are none at all. */
  lemma CapabilitiesNeedAContext(w: World, env: Env, role: Role, a: Hash, caller: Hash, by_: Hash, m: Hash, neo: Hash, gas: Hash)
    requires Inv(w)
    ensures Verify(w, a, caller, neo, gas) || CanExecute(w.contexts, env.self, role, a, caller, by_, m) ==> Locked(w, a)
    ensures w.depth == 0 ==>
              && !Verify(w, a, caller, neo, gas)
              && !CanExecute(w.contexts, env.self, role, a, caller, by_, m)
              && !CanConfigure(w.contexts, role, a, caller, m)
  {
    if w.depth == 0 {
      assert w.contexts.Keys == {};
    } else if (Target, a) in w.contexts {
      assert IsExecutionKey(Target);
    } else if (Executing(role), a) in w.contexts {
      assert IsExecutionKey(Executing(role));
    }
  }
}
