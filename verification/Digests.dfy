/**
 What a staged call hashes, in bytes.  The hash is any function from byte strings to byte strings;
 equal call hashes force equal calls, or exhibit a collision of it.
 */
module Digests {
  import opened Bytes
  import opened Values
  import opened Parameters
  import opened Preimage
  import Records

  type HashFunction = seq<Byte> -> seq<Byte>

  predicate Collides(sha: HashFunction, x: seq<Byte>, y: seq<Byte>) {
    x != y && sha(x) == sha(y)
  }

  const CALL_VERIFIER_CHILD: seq<Byte> :=
    [0x63, 0x61, 0x6C, 0x6C, 0x56, 0x65, 0x72, 0x69, 0x66, 0x69, 0x65, 0x72, 0x43, 0x68, 0x69, 0x6C, 0x64]
  const CALL_HOOK_CHILD: seq<Byte> :=
    [0x63, 0x61, 0x6C, 0x6C, 0x48, 0x6F, 0x6F, 0x6B, 0x43, 0x68, 0x69, 0x6C, 0x64]

  /** ComputeModuleCallHash before hashing: the method and its arguments. */
  function CallBytes(name: seq<Byte>, args: seq<Item>): Option<seq<Byte>> {
    SerializeValue(ArrayOf([Text(name), ArrayOf(args)]))
  }

  /** The reported roster before hashing; a verifier's carries its threshold. */
  function RosterItem(role: Records.Role, children: seq<Hash160>, threshold: int): Item {
    var hashes := ArrayOf(seq(|children|, i requires 0 <= i < |children| => Hash(children[i])));
    if role.Verifier? then ArrayOf([hashes, Integer(threshold)]) else hashes
  }

  /** A call of an installed child: the child, its method and arguments, and the hash of the roster. */
  datatype ChildCall = ChildCall(child: Hash160, name: seq<Byte>, args: seq<Item>, children: seq<Hash160>, threshold: int)

  function ChildArguments(c: ChildCall, roster: seq<Byte>): seq<Item> {
    [Hash(c.child), Text(c.name), ArrayOf(c.args), ByteArray(roster)]
  }

  function ChildMethod(role: Records.Role): seq<Byte> {
    if role.Verifier? then CALL_VERIFIER_CHILD else CALL_HOOK_CHILD
  }

  function RosterBytes(role: Records.Role, c: ChildCall): Option<seq<Byte>> {
    SerializeValue(RosterItem(role, c.children, c.threshold))
  }

  function ChildBytes(sha: HashFunction, role: Records.Role, c: ChildCall): Option<seq<Byte>> {
    match RosterBytes(role, c)
    case None => None
    case Some(roster) => CallBytes(ChildMethod(role), ChildArguments(c, sha(roster)))
  }

  // ---------------------------------------------------------------------------
  // What is hashed
  // ---------------------------------------------------------------------------

  function Hashes(children: seq<Hash160>): seq<Value> {
    seq(|children|, i requires 0 <= i < |children| => ByteString(children[i]))
  }

  lemma RosterMeaning(children: seq<Hash160>, threshold: int)
    ensures Meaning(RosterItem(Records.Hook, children, threshold)) == Array(Hashes(children))
    ensures Meaning(RosterItem(Records.Verifier, children, threshold)) == Array([Array(Hashes(children)), Int(threshold)])
  {
    var hashes := RosterItem(Records.Hook, children, threshold);
    forall k | 0 <= k < |children| ensures Meanings(hashes.items)[k] == ByteString(children[k]) {
      MeaningsAt(hashes.items, k);
    }
    assert Meanings(hashes.items) == Hashes(children);
    MeaningsAt([hashes, Integer(threshold)], 0);
    MeaningsAt([hashes, Integer(threshold)], 1);
  }

  lemma SerializedDenotes(item: Item)
    requires SerializeValue(item).Some?
    ensures Parse(SerializeValue(item).value) == Some((Meaning(item), []))
  {
    hide Meaning, Parse, SerializeValue;
    SerializeParses(item, []);
    assert SerializeValue(item).value + [] == SerializeValue(item).value;
  }

  /** What is hashed of a root's call is the array of its method and the array of its arguments. */
  lemma CallBytesDenote(name: seq<Byte>, args: seq<Item>)
    requires CallBytes(name, args).Some?
    ensures Parse(CallBytes(name, args).value) == Some((Array([ByteString(name), Array(Meanings(args))]), []))
  {
    hide Parse, SerializeValue;
    var x := [Text(name), ArrayOf(args)];
    SerializedDenotes(ArrayOf(x));
    MeaningsAt(x, 0);
    MeaningsAt(x, 1);
    assert Meanings(x) == [ByteString(name), Array(Meanings(args))];
  }

  /**
   What is hashed of a child's call: under a method name of its own, the child, its method, its arguments
   and the hash of the roster; and the roster is its children in order, with the threshold for verifiers.
   */
  lemma ChildBytesDenote(sha: HashFunction, role: Records.Role, c: ChildCall)
    requires ChildBytes(sha, role, c).Some?
    ensures var own := if role.Verifier? then "callVerifierChild" else "callHookChild";
            |ChildMethod(role)| == |own| && forall k | 0 <= k < |own| :: ChildMethod(role)[k] == own[k] as int
    ensures RosterBytes(role, c).Some?
    ensures var roster := RosterBytes(role, c).value;
            && Parse(roster) == Some((if role.Verifier? then Array([Array(Hashes(c.children)), Int(c.threshold)]) else Array(Hashes(c.children)), []))
            && Parse(ChildBytes(sha, role, c).value)
               == Some((Array([ByteString(ChildMethod(role)),
                               Array([ByteString(c.child), ByteString(c.name), Array(Meanings(c.args)), ByteString(sha(roster))])]), []))
  {
    hide Parse, SerializeValue, CallBytes, Meaning, Meanings;
    var roster := RosterBytes(role, c).value;
    RosterMeaning(c.children, c.threshold);
    SerializedDenotes(RosterItem(role, c.children, c.threshold));
    CallBytesDenote(ChildMethod(role), ChildArguments(c, sha(roster)));
    ArgumentsMeaning(c, sha(roster));
  }

  lemma ArgumentsMeaning(c: ChildCall, roster: seq<Byte>)
    ensures Meanings(ChildArguments(c, roster)) == [ByteString(c.child), ByteString(c.name), Array(Meanings(c.args)), ByteString(roster)]
  {
    hide Meanings;
    var x := ChildArguments(c, roster);
    forall k | 0 <= k < 4 ensures Meanings(x)[k] == Meaning(x[k]) {
      MeaningsAt(x, k);
    }
  }

  // ---------------------------------------------------------------------------
  // Equal hashes
  // ---------------------------------------------------------------------------

  /** The same call: arguments count by what they denote. */
  predicate SameCall(role: Records.Role, c: ChildCall, d: ChildCall) {
    && c.child == d.child && c.name == d.name && Meanings(c.args) == Meanings(d.args)
    && c.children == d.children && (role.Verifier? ==> c.threshold == d.threshold)
  }

  lemma SerializationIsInjective(a: Item, b: Item)
    requires SerializeValue(a).Some? && SerializeValue(a) == SerializeValue(b)
    ensures Meaning(a) == Meaning(b)
  {
    SerializationIsPrefixFree(a, b, [], []);
  }

  lemma CallBytesBind(name: seq<Byte>, args: seq<Item>, name': seq<Byte>, args': seq<Item>)
    requires CallBytes(name, args).Some? && CallBytes(name, args) == CallBytes(name', args')
    ensures name == name' && Meanings(args) == Meanings(args')
  {
    var x, y := [Text(name), ArrayOf(args)], [Text(name'), ArrayOf(args')];
    SerializationIsInjective(ArrayOf(x), ArrayOf(y));
    forall k | 0 <= k < 2 ensures Meaning(x[k]) == Meaning(y[k]) {
      MeaningsAt(x, k);
      MeaningsAt(y, k);
    }
    assert Meaning(x[0]) == Meaning(y[0]) && Meaning(x[1]) == Meaning(y[1]);
  }

  lemma HashesBind(children: seq<Hash160>, children': seq<Hash160>)
    requires Meaning(RosterItem(Records.Hook, children, 0)) == Meaning(RosterItem(Records.Hook, children', 0))
    ensures children == children'
  {
    var x, y := RosterItem(Records.Hook, children, 0).items, RosterItem(Records.Hook, children', 0).items;
    assert |children| == |children'|;
    forall k | 0 <= k < |children| ensures children[k] == children'[k] {
      MeaningsAt(x, k);
      MeaningsAt(y, k);
    }
  }

  lemma RosterBytesBind(role: Records.Role, c: ChildCall, d: ChildCall)
    requires RosterBytes(role, c).Some? && RosterBytes(role, c) == RosterBytes(role, d)
    ensures c.children == d.children && (role.Verifier? ==> c.threshold == d.threshold)
  {
    var x, y := RosterItem(role, c.children, c.threshold), RosterItem(role, d.children, d.threshold);
    SerializationIsInjective(x, y);
    if role.Verifier? {
      MeaningsAt(x.items, 0);
      MeaningsAt(y.items, 0);
      MeaningsAt(x.items, 1);
      MeaningsAt(y.items, 1);
    }
    HashesBind(c.children, d.children);
  }

  /** Child calls of one role with equal hashes are the same call under the same roster, or a collision is at hand. */
  lemma ChildHashBindsTheCall(sha: HashFunction, role: Records.Role, c: ChildCall, d: ChildCall)
    requires ChildBytes(sha, role, c).Some? && ChildBytes(sha, role, d).Some?
    requires sha(ChildBytes(sha, role, c).value) == sha(ChildBytes(sha, role, d).value)
    ensures || SameCall(role, c, d)
            || Collides(sha, ChildBytes(sha, role, c).value, ChildBytes(sha, role, d).value)
            || Collides(sha, RosterBytes(role, c).value, RosterBytes(role, d).value)
  {
    hide CallBytes, RosterBytes, Meanings, Meaning;
    var r, q := RosterBytes(role, c).value, RosterBytes(role, d).value;
    if ChildBytes(sha, role, c) == ChildBytes(sha, role, d) {
      CallBytesBind(ChildMethod(role), ChildArguments(c, sha(r)), ChildMethod(role), ChildArguments(d, sha(q)));
      ArgumentsBind(c, sha(r), d, sha(q));
      if r == q {
        RosterBytesBind(role, c, d);
      }
    }
  }

  lemma ArgumentsBind(c: ChildCall, roster: seq<Byte>, d: ChildCall, roster': seq<Byte>)
    requires Meanings(ChildArguments(c, roster)) == Meanings(ChildArguments(d, roster'))
    ensures c.child == d.child && c.name == d.name && Meanings(c.args) == Meanings(d.args) && roster == roster'
  {
    hide Meanings;
    var x, y := ChildArguments(c, roster), ChildArguments(d, roster');
    forall k | 0 <= k < 4 ensures Meaning(x[k]) == Meaning(y[k]) {
      MeaningsAt(x, k);
      MeaningsAt(y, k);
    }
    assert Meaning(x[0]) == Meaning(y[0]) && Meaning(x[1]) == Meaning(y[1]) && Meaning(x[2]) == Meaning(y[2]) && Meaning(x[3]) == Meaning(y[3]);
  }

  /** A root call under a method of its own never has the hash of a child call, unless that is a collision. */
  lemma RootAndChildHashesDiffer(sha: HashFunction, role: Records.Role, c: ChildCall, name: seq<Byte>, args: seq<Item>)
    requires ChildBytes(sha, role, c).Some? && CallBytes(name, args).Some? && name != ChildMethod(role)
    requires sha(ChildBytes(sha, role, c).value) == sha(CallBytes(name, args).value)
    ensures Collides(sha, ChildBytes(sha, role, c).value, CallBytes(name, args).value)
  {
    hide CallBytes, Meanings;
    if ChildBytes(sha, role, c) == CallBytes(name, args) {
      CallBytesBind(ChildMethod(role), ChildArguments(c, sha(RosterBytes(role, c).value)), name, args);
    }
  }
}
