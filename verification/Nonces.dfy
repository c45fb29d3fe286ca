/**
 The two-dimensional nonce: the width check on its byte form, its split into a channel and a
 sequence, and the storage key that a channel's cursor lives under.
 */
module Nonces {
  import opened Bytes
  import opened Values
  import opened Records
  import opened Machine

  // ---------------------------------------------------------------------------
  // The uint256 bound
  // ---------------------------------------------------------------------------

  /** The number of bytes of a non-negative integer without the sign byte. */
  function TrimmedLength(encoded: seq<Byte>): nat {
    if encoded != [] && encoded[|encoded| - 1] == 0 then |encoded| - 1 else |encoded|
  }

  /** Trimming the sign byte leaves the unsigned width. */
  lemma TrimmedLengthIsUnsignedWidth(value: nat)
    ensures var n := TrimmedLength(Minimal(value));
            value < Pow256(n) && (n > 0 ==> value >= Pow256(n - 1))
  {
    var s := Minimal(value);
    if s != [] {
      var w := |s|;
      FitsUnsigned(value, w);
      LeRoundTrip(value, w);
      TopByte(s);
      if s[w - 1] == 0 {
        assert w >= 2 && !Fits(value, w - 1);
        if w > 2 {
          assert Pow256(w - 2) == 256 * Pow256(w - 3);
        }
      } else {
        MulMonotone(1, s[w - 1], Pow256(w - 1));
        FromLeBound(s);
      }
    }
  }

  lemma FitsUnsigned(value: nat, n: nat)
    requires n > 0 && Fits(value, n)
    ensures value < Pow256(n)
  {
  }

  method IsUnsignedIntegerWithinBytes(value: int, maxBytes: nat) returns (ok: bool)
    ensures ok <==> 0 <= value < Pow256(maxBytes)
  {
    if value < 0 { return false; }
    var encoded := Minimal(value);
    var length := |encoded|;
    if length > 0 && encoded[length - 1] == 0 { length := length - 1; }
    TrimmedLengthIsUnsignedWidth(value);
    if length <= maxBytes {
      Pow256Monotone(length, maxBytes);
    } else {
      Pow256Monotone(maxBytes, length - 1);
    }
    return length <= maxBytes;
  }

  // ---------------------------------------------------------------------------
  // Channel and sequence
  // ---------------------------------------------------------------------------

  /** The split loses nothing, and its halves stay within 192 and 64 bits. */
  lemma SplitIsExact(nonce: nat)
    ensures nonce == Channel(nonce) * 0x1_0000_0000_0000_0000 + Sequence(nonce) && Sequence(nonce) < 0x1_0000_0000_0000_0000
    ensures nonce < Pow256(32) <==> Channel(nonce) < Pow256(24)
  {
    PowAdds(24, 8);
    assert Pow256(8) == TWO_64 by {
      assert Pow256(4) == 0x1_0000_0000;
      PowAdds(4, 4);
    }
    var (c, s) := (Channel(nonce), Sequence(nonce));
    if c < Pow256(24) {
      MulMonotone(c + 1, Pow256(24), TWO_64);
    } else {
      MulMonotone(Pow256(24), c, TWO_64);
    }
  }

  lemma {:induction false} PowAdds(m: nat, n: nat)
    ensures Pow256(m + n) == Pow256(m) * Pow256(n)
    decreases m
  {
    if m > 0 {
      PowAdds(m - 1, n);
    }
  }

  /** Every (channel, sequence) pair of the domain is the split of exactly one nonce. */
  lemma SplitIsOnto(channel: nat, sequence: nat)
    requires sequence < 0x1_0000_0000_0000_0000
    ensures var nonce := channel * 0x1_0000_0000_0000_0000 + sequence;
            Channel(nonce) == channel && Sequence(nonce) == sequence
    ensures forall nonce: nat | Channel(nonce) == channel && Sequence(nonce) == sequence :: nonce == channel * 0x1_0000_0000_0000_0000 + sequence
  {
  }

  // ---------------------------------------------------------------------------
  // Storage keys
  // ---------------------------------------------------------------------------

  const PREFIX_NONCE: Byte := 3

  /** The prefix byte, the account, and the channel's minimal signed bytes. */
  function NonceKey(account: Hash160, channel: nat): seq<Byte> {
    [PREFIX_NONCE] + account + Minimal(channel)
  }

  /** Where each part of a key is: the byte 3, then the account, then the channel as a signed number in as few bytes as can be. */
  lemma NonceKeyLayout(account: Hash160, channel: nat)
    ensures var key := NonceKey(account, channel);
            && |key| >= 21 && key[0] == 3 && key[1..21] == account
            && FromSigned(key[21..]) == channel && (|key| > 21 ==> !Fits(channel, |key| - 22))
  {
    var key := NonceKey(account, channel);
    assert key[1..21] == account && key[21..] == Minimal(channel);
    SignedRoundTrip(channel, Width(channel));
  }

  /** No two cursors share a key. */
  lemma NonceKeysAreDistinct(account: Hash160, channel: nat, account': Hash160, channel': nat)
    ensures NonceKey(account, channel) == NonceKey(account', channel') <==> account == account' && channel == channel'
  {
    var (k, k') := (NonceKey(account, channel), NonceKey(account', channel'));
    assert k[1..21] == account && k[21..] == Minimal(channel);
    assert k'[1..21] == account' && k'[21..] == Minimal(channel');
    if k == k' {
      MinimalInjective(channel, channel');
    }
  }
}
