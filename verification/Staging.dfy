/**
 What a staged maintenance call is bound to.  Root calls and child calls share one pending slot per
 account and role; their digests never coincide, a child's digest fixes the whole roster it was
 staged under, and no callee runs before its staging is due.
 */
module Staging {
  import opened Records
  import opened Machine

  /** The digest under which a child call is staged. */
  function ChildDigest(role: Role, child: Hash, name: string, args: seq<Argument>, t: Topology): Digest {
    Sha256(ChildCallName(role), ChildArguments(role, child, name, args, t))
  }

  lemma ChildNamesAreReserved(role: Role, other: Role)
    ensures ChildCallName(role) !in AllowedMethods(other)
  {
    forall name | name in AllowedMethods(other) ensures name != ChildCallName(role) {
      assert name[4] != ChildCallName(role)[4] || name[0] != ChildCallName(role)[0];
    }
  }

  /** A staged root call is never confirmed by a child call, nor the other way round. */
  lemma RootAndChildCallsNeverMatch(
      role: Role, name: string, args: seq<Argument>,
      other: Role, child: Hash, childName: string, childArgs: seq<Argument>, t: Topology)
    requires name in AllowedMethods(role)
    ensures Sha256(name, args) != ChildDigest(other, child, childName, childArgs, t)
  {
    ChildNamesAreReserved(other, role);
  }

  /** A child call is confirmed only for the same child, method and arguments under the same ordered roster and threshold. */
  lemma ChildDigestBindsTheRoster(
      role: Role, child: Hash, name: string, args: seq<Argument>, t: Topology,
      child': Hash, name': string, args': seq<Argument>, t': Topology)
    requires ChildDigest(role, child, name, args, t) == ChildDigest(role, child', name', args', t')
    ensures child == child' && name == name' && args == args' && t.children == t'.children
    ensures role.Verifier? ==> t.threshold == t'.threshold
  {
    var (x, y) := (ChildArguments(role, child, name, args, t), ChildArguments(role, child', name', args', t'));
    assert x[0] == y[0] && x[1] == y[1] && x[2] == y[2] && x[3] == y[3];
  }

  /** The pending slot holds exactly this call, and its 24 hours are over. */
  predicate Due(now: nat, b: Book, role: Role, a: Hash, m: Hash, digest: Digest) {
    && (role, a) in b.calls
    && b.calls[(role, a)].module_ == m && b.calls[(role, a)].digest == digest
    && now >= b.calls[(role, a)].since + CONFIG_TIMELOCK_MS
  }

  lemma ConfirmedExactlyWhenDue(env: Env, w: World, role: Role, a: Hash, m: Hash, name: string, args: seq<Argument>)
    ensures TryConfirm(env, w, role, a, m, name, args).1 <==> Due(w.header.time, w.book, role, a, m, Sha256(name, args))
  {
  }

  lemma AdoptionKeepsCalls(env: Env, w: World, role: Role, a: Hash, root: Hash, legacy: Reply<seq<Hash>>, cleanable: set<Hash>)
    ensures var v := AdoptLegacy(env, w, role, a, root, legacy, cleanable).world;
            v.book.calls == w.book.calls && v.header == w.header
  {
  }

  /** Unless the call is due, the root module is not run: what it would do makes no difference. */
  lemma RootRunsOnlyWhenDue(env: Env, who: Caller, w: World, call: Call, other: Call)
    requires call.CallModule? && call.a in w.book.accounts && other.CallModule?
    requires other == CallModule(call.role, call.a, call.name, call.args, call.legacy, call.cleanable, other.body)
    requires !Due(w.header.time, w.book, call.role, call.a, Pointer(w.book.accounts[call.a], call.role), Sha256(call.name, call.args))
    ensures DoCallModule(env, who, w, call) == DoCallModule(env, who, w, other)
  {
    hide AdoptLegacy, TryConfirm, Within, Apply, Configurable;
    var (role, a) := (call.role, call.a);
    var root := Pointer(w.book.accounts[a], role);
    var o := if call.name == (if role.Verifier? then "setConfig" else "setHooks")
             then AdoptLegacy(env, w, role, a, root, call.legacy, call.cleanable) else Finish(w);
    AdoptionKeepsCalls(env, w, role, a, root, call.legacy, call.cleanable);
    ConfirmedExactlyWhenDue(env, o.world, role, a, root, call.name, call.args);
  }

  /** Likewise for a child under the roster its root reports now. */
  lemma ChildRunsOnlyWhenDue(env: Env, who: Caller, w: World, call: Call, other: Call)
    requires call.CallChild? && call.a in w.book.accounts && other.CallChild?
    requires other == CallChild(call.role, call.a, call.child, call.name, call.args,
                                call.rootProbe, call.topology, call.childProbe, call.abiOk, other.body)
    requires call.topology.Answer? ==>
               !Due(w.header.time, w.book, call.role, call.a, Pointer(w.book.accounts[call.a], call.role),
                    ChildDigest(call.role, call.child, call.name, call.args, call.topology.value))
    ensures DoCallChild(env, who, w, call) == DoCallChild(env, who, w, other)
  {
    hide TryConfirm, Within, Apply, Configurable, ValidTopology, ValidChildCall, ChildArguments;
    if call.topology.Answer? {
      var args := ChildArguments(call.role, call.child, call.name, call.args, call.topology.value);
      var root := Pointer(w.book.accounts[call.a], call.role);
      ConfirmedExactlyWhenDue(env, w, call.role, call.a, root, ChildCallName(call.role), args);
    }
  }
}
