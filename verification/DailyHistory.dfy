/**
 The stored history of the daily-limit hook: one entry per (token, counter) key.  Storage scans
 visit the entries of a token in an order the contract does not choose, so the value a scan must
 compute is defined by counter order and is shown to be independent of the scan order.
 */
module DailyHistory {
  import opened DailyLedger

  type Token = nat

  type History = map<(Token, nat), Record>

  /** The records of `token` under counters 1 to `n`, in counter order. */
  ghost function Listing(h: History, token: Token, n: nat): (r: seq<Record>)
    ensures |r| <= n
  {
    if n == 0 then []
    else
      var rest := Listing(h, token, n - 1);
      if (token, n) in h then rest + [h[(token, n)]] else rest
  }

  /** All keys of `token`, the extent of a storage scan. */
  function KeysOf(h: History, token: Token): set<(Token, nat)> {
    set k | k in h && k.0 == token
  }

  /** The history without the records of `token` older than `cutoff`. */
  function Pruned(h: History, token: Token, cutoff: int): History {
    map k | k in h && !(k.0 == token && h[k].timestamp < cutoff) :: h[k]
  }

  ghost predicate CountersBelow(h: History, n: nat) {
    forall k | k in h :: 1 <= k.1 <= n
  }

  lemma {:induction false} ListingFrame(h: History, g: History, token: Token, n: nat)
    requires forall i: nat | 1 <= i <= n :: (token, i) in h <==> (token, i) in g
    requires forall i: nat | 1 <= i <= n && (token, i) in h :: h[(token, i)] == g[(token, i)]
    ensures Listing(h, token, n) == Listing(g, token, n)
  {
    if n > 0 {
      ListingFrame(h, g, token, n - 1);
    }
  }

  lemma {:induction false} ListingBeyond(h: History, token: Token, n: nat, m: nat)
    requires n <= m && forall k | k in h && k.0 == token :: k.1 <= n
    ensures Listing(h, token, m) == Listing(h, token, n)
    decreases m
  {
    if n < m {
      ListingBeyond(h, token, n, m - 1);
    }
  }

  lemma {:induction false} ListingPruned(h: History, token: Token, cutoff: int, n: nat)
    ensures Listing(Pruned(h, token, cutoff), token, n) == Live(Listing(h, token, n), cutoff)
  {
    if n > 0 {
      ListingPruned(h, token, cutoff, n - 1);
      if (token, n) in h {
        LiveAppend(Listing(h, token, n - 1), h[(token, n)], cutoff);
      }
    }
  }

  predicate OneMore(before: seq<Record>, after: seq<Record>, r: Record, cutoff: int) {
    && Total(after) == Total(before) + (if r.timestamp >= cutoff then r.amount else 0)
    && |after| == |before| + (if r.timestamp >= cutoff then 1 else 0)
  }

  lemma OneMoreAppend(before: seq<Record>, after: seq<Record>, r: Record, last: Record, cutoff: int)
    requires OneMore(Live(before, cutoff), Live(after, cutoff), r, cutoff)
    ensures OneMore(Live(before + [last], cutoff), Live(after + [last], cutoff), r, cutoff)
  {
    LiveAppend(before, last, cutoff);
    LiveAppend(after, last, cutoff);
    LiveAppend(Live(before, cutoff), last, cutoff);
    LiveAppend(Live(after, cutoff), last, cutoff);
  }

  lemma OneMoreLast(before: seq<Record>, r: Record, cutoff: int)
    ensures OneMore(Live(before, cutoff), Live(before + [r], cutoff), r, cutoff)
  {
    LiveAppend(before, r, cutoff);
    LiveAppend(Live(before, cutoff), r, cutoff);
  }

  /** A scan that has seen `r` in addition to the entries of `h` counts one record more. */
  lemma {:induction false} ScanStep(h: History, token: Token, i: nat, r: Record, cutoff: int, n: nat)
    requires 1 <= i <= n && (token, i) !in h
    ensures OneMore(Live(Listing(h, token, n), cutoff), Live(Listing(h[(token, i) := r], token, n), cutoff), r, cutoff)
  {
    hide OneMore, Live, Total;
    var g := h[(token, i) := r];
    if i == n {
      ListingFrame(h, g, token, n - 1);
      OneMoreLast(Listing(h, token, n - 1), r, cutoff);
    } else {
      ScanStep(h, token, i, r, cutoff, n - 1);
      if (token, n) in h {
        OneMoreAppend(Listing(h, token, n - 1), Listing(g, token, n - 1), r, h[(token, n)], cutoff);
      }
    }
  }

  /** The entries of `token` that a scan has visited when the keys in `todo` are left. */
  function Seen(h: History, token: Token, todo: set<(Token, nat)>): History {
    map k | k in h && k.0 == token && k !in todo :: h[k]
  }

  /** The history when the visited expired entries of `token` have been deleted. */
  function PrunedSeen(h: History, token: Token, cutoff: int, todo: set<(Token, nat)>): History {
    map k | k in h && !(k.0 == token && k !in todo && h[k].timestamp < cutoff) :: h[k]
  }

  ghost function LiveTotal(h: History, token: Token, cutoff: int, n: nat): int {
    Total(Live(Listing(h, token, n), cutoff))
  }

  ghost function LiveCount(h: History, token: Token, cutoff: int, n: nat): nat {
    |Live(Listing(h, token, n), cutoff)|
  }

  /** Visiting one more key, whichever it is. */
  lemma VisitOne(h: History, token: Token, todo: set<(Token, nat)>, key: (Token, nat), cutoff: int, n: nat)
    requires CountersBelow(h, n) && todo <= KeysOf(h, token) && key in todo
    ensures var before, after, r := Seen(h, token, todo), Seen(h, token, todo - {key}), h[key];
            && LiveTotal(after, token, cutoff, n) == LiveTotal(before, token, cutoff, n) + (if r.timestamp >= cutoff then r.amount else 0)
            && LiveCount(after, token, cutoff, n) == LiveCount(before, token, cutoff, n) + (if r.timestamp >= cutoff then 1 else 0)
    ensures PrunedSeen(h, token, cutoff, todo - {key})
         == if h[key].timestamp < cutoff then PrunedSeen(h, token, cutoff, todo) - {key} else PrunedSeen(h, token, cutoff, todo)
  {
    hide Live, Total, Listing;
    ScanStep(Seen(h, token, todo), token, key.1, h[key], cutoff, n);
    assert Seen(h, token, todo - {key}) == Seen(h, token, todo)[(token, key.1) := h[key]];
  }

  /** A scan starts with nothing counted and ends with everything counted. */
  lemma ScanEnds(h: History, token: Token, cutoff: int, n: nat)
    ensures LiveTotal(Seen(h, token, KeysOf(h, token)), token, cutoff, n) == 0
    ensures LiveCount(Seen(h, token, KeysOf(h, token)), token, cutoff, n) == 0
    ensures LiveTotal(Seen(h, token, {}), token, cutoff, n) == LiveTotal(h, token, cutoff, n)
    ensures LiveCount(Seen(h, token, {}), token, cutoff, n) == LiveCount(h, token, cutoff, n)
    ensures PrunedSeen(h, token, cutoff, KeysOf(h, token)) == h
    ensures PrunedSeen(h, token, cutoff, {}) == Pruned(h, token, cutoff)
  {
    assert Seen(h, token, KeysOf(h, token)) == map[];
    NothingListed(token, n);
    ListingFrame(Seen(h, token, {}), h, token, n);
  }

  lemma {:induction false} NothingListed(token: Token, n: nat)
    ensures Listing(map[], token, n) == []
  {
    if n > 0 {
      NothingListed(token, n - 1);
    }
  }

  lemma {:induction false} ListingDelete(h: History, token: Token, i: nat, n: nat)
    requires 1 <= i <= n && (token, i) in h
    ensures |Listing(h - {(token, i)}, token, n)| == |Listing(h, token, n)| - 1
  {
    var g := h - {(token, i)};
    if i == n {
      ListingFrame(h, g, token, n - 1);
    } else {
      ListingDelete(h, token, i, n - 1);
    }
  }

  lemma EmptyListing(h: History, token: Token, n: nat)
    requires Listing(h, token, n) == [] && CountersBelow(h, n)
    ensures KeysOf(h, token) == {}
  {
    forall k | k in KeysOf(h, token) ensures false {
      NonEmptyListing(h, token, k.1, n);
    }
  }

  lemma {:induction false} NonEmptyListing(h: History, token: Token, i: nat, n: nat)
    requires 1 <= i <= n && (token, i) in h
    ensures Listing(h, token, n) != []
  {
    if i < n {
      NonEmptyListing(h, token, i, n - 1);
    }
  }

  ghost predicate ValidHistory(h: History, n: nat) {
    && CountersBelow(h, n)
    && (forall k | k in h :: h[k].amount > 0)
    && forall t: Token :: |Listing(h, t, n)| <= MAX_HISTORY_SIZE
  }

  lemma PrunedIsValid(h: History, token: Token, cutoff: int, n: nat)
    requires ValidHistory(h, n)
    ensures ValidHistory(Pruned(h, token, cutoff), n)
  {
    PrunedListings(h, token, cutoff, n);
    forall t: Token ensures |Listing(Pruned(h, token, cutoff), t, n)| <= MAX_HISTORY_SIZE {
      assert |Listing(h, t, n)| <= MAX_HISTORY_SIZE;
    }
  }

  lemma RecordedIsValid(h: History, token: Token, n: nat, r: Record)
    requires ValidHistory(h, n) && r.amount > 0 && |Listing(h, token, n)| < MAX_HISTORY_SIZE
    ensures ValidHistory(h[(token, n + 1) := r], n + 1)
    ensures Listing(h[(token, n + 1) := r], token, n + 1) == Listing(h, token, n) + [r]
    ensures forall t: Token | t != token :: Listing(h[(token, n + 1) := r], t, n + 1) == Listing(h, t, n)
  {
    var g := h[(token, n + 1) := r];
    forall t: Token
      ensures Listing(g, t, n + 1) == if t == token then Listing(h, t, n) + [r] else Listing(h, t, n)
    {
      ListingFrame(h, g, t, n);
    }
    var m := n + 1;
    forall t: Token ensures |Listing(g, t, m)| <= MAX_HISTORY_SIZE {
      assert |Listing(h, t, n)| <= MAX_HISTORY_SIZE;
    }
  }

  /** Pruning one token leaves the others alone. */
  lemma PrunedListings(h: History, token: Token, cutoff: int, n: nat)
    ensures Listing(Pruned(h, token, cutoff), token, n) == Live(Listing(h, token, n), cutoff)
    ensures forall t: Token | t != token :: Listing(Pruned(h, token, cutoff), t, n) == Listing(h, t, n)
  {
    ListingPruned(h, token, cutoff, n);
    forall t: Token | t != token ensures Listing(Pruned(h, token, cutoff), t, n) == Listing(h, t, n) {
      ListingFrame(h, Pruned(h, token, cutoff), t, n);
    }
  }

  /** The history without the records of `token`. */
  function Without(h: History, token: Token): History {
    map k | k in h && k.0 != token :: h[k]
  }

  lemma WithoutListings(h: History, token: Token, n: nat)
    requires ValidHistory(h, n)
    ensures ValidHistory(Without(h, token), n) && Listing(Without(h, token), token, n) == []
    ensures forall t: Token | t != token :: Listing(Without(h, token), t, n) == Listing(h, t, n)
  {
    var g := Without(h, token);
    forall t: Token ensures Listing(g, t, n) == if t == token then [] else Listing(h, t, n) {
      if t == token {
        ListingFrame(g, map[], token, n);
        NothingListed(token, n);
      } else {
        ListingFrame(h, g, t, n);
      }
    }
    forall t: Token ensures |Listing(g, t, n)| <= MAX_HISTORY_SIZE {
      assert |Listing(h, t, n)| <= MAX_HISTORY_SIZE;
    }
  }
}
