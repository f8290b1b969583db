// Duplicate suppression in the threaded broadcaster: what the LRU caches
// remember of the hashes handed in, and whom a message is passed on to.

module Broadcaster {
  import opened Common
  import opened Lru

  datatype Hash = Hash(bytes: nat)
  type ResponderId = int

  const HISTORY_SIZE: nat := 10000

  // ---- The reference: distinct hashes, latest first ----

  function DropHash(s: seq<Hash>, x: Hash): seq<Hash> {
    if s == [] then [] else if s[0] == x then DropHash(s[1..], x) else [s[0]] + DropHash(s[1..], x)
  }

  /** All distinct hashes of a history, ordered by their last occurrence, latest first. */
  function Recent(history: seq<Hash>): seq<Hash> {
    if history == [] then [] else
      var x := history[|history| - 1];
      [x] + DropHash(Recent(history[..|history| - 1]), x)
  }

  lemma {:induction false} DropAbsent(s: seq<Hash>, x: Hash)
    requires x !in s
    ensures DropHash(s, x) == s
  {
    if s != [] {
      DropAbsent(s[1..], x);
    }
  }

  lemma {:induction false} DropAt(s: seq<Hash>, at: nat)
    requires Distinct(s) && at < |s|
    ensures DropHash(s, s[at]) == RemoveAt(s, at)
  {
    if at == 0 {
      assert s[0] !in s[1..];
      DropAbsent(s[1..], s[0]);
    } else {
      DropAt(s[1..], at - 1);
      assert s[1..][at - 1] == s[at];
      assert [s[0]] + RemoveAt(s[1..], at - 1) == RemoveAt(s, at);
    }
  }

  lemma Fronted(r: seq<Hash>, x: Hash)
    requires Distinct(r)
    ensures Distinct([x] + DropHash(r, x))
    ensures forall y :: y in [x] + DropHash(r, x) <==> y == x || y in r
  {
    if x in r {
      var at :| 0 <= at < |r| && r[at] == x;
      DropAt(r, at);
      CutOut(r, at);
    } else {
      DropAbsent(r, x);
    }
  }

  lemma {:induction false} RecentDistinct(history: seq<Hash>)
    ensures Distinct(Recent(history))
    ensures forall x :: x in Recent(history) <==> x in history
  {
    if history != [] {
      var init, x := history[..|history| - 1], history[|history| - 1];
      RecentDistinct(init);
      Fronted(Recent(init), x);
      assert history == init + [x];
    }
  }

  // ---- Cutting at the capacity loses nothing but the tail ----

  lemma CutCommutes(s: seq<Hash>, n: nat, x: Hash)
    requires Distinct(s) && n >= 1
    ensures Take([x] + DropHash(Take(s, n), x), n) == Take([x] + DropHash(s, x), n)
  {
    var cut := Take(s, n);
    if x in s {
      var at :| 0 <= at < |s| && s[at] == x;
      DropAt(s, at);
      if at < n {
        DropAt(cut, at);
        CutInside(s, n, at, x);
      } else {
        assert x !in cut;
        DropAbsent(cut, x);
        CutBeyond(s, n, at, x);
      }
    } else {
      DropAbsent(s, x);
      DropAbsent(cut, x);
      assert |s| > n ==> ([x] + cut)[..n] == ([x] + s)[..n];
    }
  }

  lemma CutInside(s: seq<Hash>, n: nat, at: nat, x: Hash)
    requires at < |s| && at < n
    ensures Take([x] + RemoveAt(Take(s, n), at), n) == Take([x] + RemoveAt(s, at), n)
  {
    if |s| > n {
      assert [x] + RemoveAt(s[..n], at) == ([x] + RemoveAt(s, at))[..n];
    }
  }

  lemma CutBeyond(s: seq<Hash>, n: nat, at: nat, x: Hash)
    requires 1 <= n <= at < |s|
    ensures Take([x] + Take(s, n), n) == Take([x] + RemoveAt(s, at), n)
  {
    assert ([x] + s[..n])[..n] == [x] + s[..n - 1];
    assert Take([x] + RemoveAt(s, at), n) == [x] + s[..n - 1];
  }

  /** One hash handed to a cache: get, and on a miss put. */
  function Seen(list: seq<(Hash, ())>, capacity: nat, x: Hash): seq<(Hash, ())> {
    if Lookup(list, x).Some? then Touching(list, x, v => v) else Putting(list, capacity, x, ())
  }

  lemma {:induction false} KeysWithout(list: seq<(Hash, ())>, x: Hash)
    ensures Keys(Without(list, x)) == DropHash(Keys(list), x)
  {
    if list != [] {
      assert Keys(list)[1..] == Keys(list[1..]);
      KeysWithout(list[1..], x);
      if list[0].0 != x {
        assert Keys([list[0]] + Without(list[1..], x)) == [list[0].0] + Keys(Without(list[1..], x));
      }
    }
  }

  lemma SeenKeys(list: seq<(Hash, ())>, capacity: nat, x: Hash)
    requires DistinctKeys(list) && |list| <= capacity
    ensures Keys(Seen(list, capacity, x)) == Take([x] + DropHash(Keys(list), x), capacity)
  {
    KeysWithout(list, x);
    WithoutKeepsDistinct(list, x);
    LookupFinds(list, x);
    assert Keys([(x, ())] + Without(list, x)) == [x] + Keys(Without(list, x));
  }

  /** If a cache holds the last distinct hashes, it does so after one more. */
  lemma SeenKeepsWindow(list: seq<(Hash, ())>, capacity: nat, history: seq<Hash>, x: Hash)
    requires DistinctKeys(list) && |list| <= capacity && capacity >= 1
    requires Keys(list) == Take(Recent(history), capacity)
    ensures Keys(Seen(list, capacity, x)) == Take(Recent(history + [x]), capacity)
  {
    SeenKeys(list, capacity, x);
    RecentDistinct(history);
    CutCommutes(Recent(history), capacity, x);
    assert (history + [x])[..|history|] == history;
  }

  // ---- What the window means ----

  /** Position i is the last time the hash was handed in. */
  ghost predicate LastAt(history: seq<Hash>, x: Hash, i: nat) {
    i < |history| && history[i] == x && x !in history[i + 1..]
  }

  /** A hash last seen at i stands behind exactly the distinct hashes handed in since. */
  lemma {:induction false} RecentRank(history: seq<Hash>, i: nat) returns (p: nat)
    requires i < |history| && history[i] !in history[i + 1..]
    ensures p < |Recent(history)| && Recent(history)[p] == history[i]
    ensures Elements(Recent(history)[..p]) == Elements(history[i + 1..])
  {
    var init, x := history[..|history| - 1], history[|history| - 1];
    if i == |history| - 1 {
      p := 0;
      assert history[i + 1..] == [];
    } else {
      assert history[i + 1..] == init[i + 1..] + [x];
      var q := RecentRank(init, i);
      RecentDistinct(init);
      var r := Recent(init);
      assert Elements(history[i + 1..]) == Elements(init[i + 1..]) + {x};
      assert x in history[i + 1..];
      if x in r {
        var at :| 0 <= at < |r| && r[at] == x;
        DropAt(r, at);
        p := if at < q then q else q + 1;
        RankStep(r, q, at, x);
      } else {
        DropAbsent(r, x);
        p := q + 1;
        assert ([x] + r)[..p] == [x] + r[..q];
        assert Elements([x] + r[..q]) == Elements(r[..q]) + {x};
      }
    }
  }

  lemma RankStep(r: seq<Hash>, q: nat, at: nat, x: Hash)
    requires Distinct(r) && q < |r| && at < |r| && r[at] == x && at != q
    ensures var s := [x] + RemoveAt(r, at);
            var p := if at < q then q else q + 1;
            && p < |s| && s[p] == r[q]
            && Elements(s[..p]) == Elements(r[..q]) + {x}
  {
    var s := [x] + RemoveAt(r, at);
    if at < q {
      assert s[..q] == [x] + (r[..at] + r[at + 1..q]);
      assert r[..q] == r[..at] + [x] + r[at + 1..q];
    } else {
      assert s[..q + 1] == [x] + r[..q];
    }
  }

  /** A hash is inside the window exactly while fewer than `capacity` distinct others came since. */
  lemma WindowMeaning(history: seq<Hash>, capacity: nat, x: Hash)
    ensures x in Take(Recent(history), capacity) <==>
            exists i: nat :: LastAt(history, x, i) && |Elements(history[i + 1..])| < capacity
  {
    RecentDistinct(history);
    forall i: nat | LastAt(history, x, i)
      ensures x in Take(Recent(history), capacity) <==> |Elements(history[i + 1..])| < capacity
    {
      var p := RecentRank(history, i);
      DistinctCardinality(Recent(history)[..p]);
      var w := Take(Recent(history), capacity);
      if p < capacity {
        assert w[p] == x;
      } else {
        forall j | 0 <= j < |w|
          ensures w[j] != x
        {
          assert Recent(history)[j] != Recent(history)[p];
        }
      }
    }
    if x in Take(Recent(history), capacity) {
      assert x in Recent(history);
      var i := LastOccurrence(history, x);
      assert LastAt(history, x, i);
    }
  }

  lemma {:induction false} LastOccurrence(history: seq<Hash>, x: Hash) returns (i: nat)
    requires x in history
    ensures LastAt(history, x, i)
  {
    var last := |history| - 1;
    if history[last] == x {
      i := last;
    } else {
      assert history == history[..last] + [history[last]];
      i := LastOccurrence(history[..last], x);
      assert history[i + 1..] == history[..last][i + 1..] + [history[last]];
    }
  }

  // ---- The broadcaster ----

  /** Everyone but the issuer and the peer that handed the message over. */
  function Recipients(peers: seq<ResponderId>, issuer: ResponderId, from: ResponderId): seq<ResponderId> {
    if peers == [] then []
    else if peers[0] == issuer || peers[0] == from then Recipients(peers[1..], issuer, from)
    else [peers[0]] + Recipients(peers[1..], issuer, from)
  }

  lemma {:induction false} RecipientsExact(peers: seq<ResponderId>, issuer: ResponderId, from: ResponderId)
    ensures forall p :: p in Recipients(peers, issuer, from) <==> p in peers && p != issuer && p != from
    ensures issuer !in Recipients(peers, issuer, from) && from !in Recipients(peers, issuer, from)
  {
    if peers != [] {
      RecipientsExact(peers[1..], issuer, from);
      assert peers == [peers[0]] + peers[1..];
    }
  }

  /** A hash is new to the window. */
  ghost predicate Fresh(history: seq<Hash>, x: Hash) {
    !exists i: nat :: LastAt(history, x, i) && |Elements(history[i + 1..])| < HISTORY_SIZE
  }

  class ThreadedBroadcaster {
    const peers: seq<ResponderId>
    const seenMsgHashes: LruCache<Hash, ()>
    const seenTxHashes: LruCache<Hash, ()>

    /** The hashes handed in so far, oldest first. */
    ghost var msgHistory: seq<Hash>
    ghost var txHistory: seq<Hash>

    ghost predicate Remembers(cache: LruCache<Hash, ()>, history: seq<Hash>)
      reads cache, cache.entries
    {
      cache.Valid() && cache.entries.Length == HISTORY_SIZE && Keys(cache.Contents()) == Take(Recent(history), HISTORY_SIZE)
    }

    /** Each cache holds exactly the last HISTORY_SIZE distinct hashes, in recency order. */
    ghost predicate Valid()
      reads this, seenMsgHashes, seenMsgHashes.entries, seenTxHashes, seenTxHashes.entries
    {
      && seenMsgHashes != seenTxHashes && seenMsgHashes.entries != seenTxHashes.entries
      && Remembers(seenMsgHashes, msgHistory)
      && Remembers(seenTxHashes, txHistory)
    }

    constructor (peers: seq<ResponderId>)
      ensures Valid() && this.peers == peers && msgHistory == [] && txHistory == []
    {
      this.peers := peers;
      seenMsgHashes := new LruCache(HISTORY_SIZE);
      seenTxHashes := new LruCache(HISTORY_SIZE);
      msgHistory, txHistory := [], [];
    }

    /** get then put on one cache; reports whether the hash was new to it. */
    method CheckAndRemember(cache: LruCache<Hash, ()>, x: Hash, ghost history: seq<Hash>) returns (isNew: bool)
      requires Remembers(cache, history)
      modifies cache, cache.entries
      ensures Remembers(cache, history + [x])
      ensures isNew <==> Fresh(history, x)
    {
      ghost var list := cache.Contents();
      cache.ContentsDistinct();
      SeenKeepsWindow(list, HISTORY_SIZE, history, x);
      WindowMeaning(history, HISTORY_SIZE, x);
      LookupFinds(list, x);
      HasKeyIsIn(list, x);
      var got := cache.Get(x);
      isNew := got.None?;
      if isNew {
        var _ := cache.Put(x, ());
      }
    }

    method BroadcastConsensusMsg(msgHash: Hash, issuer: ResponderId, receivedFrom: ResponderId) returns (sentTo: seq<ResponderId>)
      requires Valid()
      modifies this`msgHistory, seenMsgHashes, seenMsgHashes.entries
      ensures Valid() && msgHistory == old(msgHistory) + [msgHash]
      ensures sentTo == if Fresh(old(msgHistory), msgHash) then Recipients(peers, issuer, receivedFrom) else []
    {
      var isNew := CheckAndRemember(seenMsgHashes, msgHash, msgHistory);
      msgHistory := msgHistory + [msgHash];
      if !isNew {
        return [];
      }
      sentTo := SendToOthers(issuer, receivedFrom);
    }

    method BroadcastProposeTxMsg(txHash: Hash, origin: ResponderId, relayedBy: ResponderId) returns (sentTo: seq<ResponderId>)
      requires Valid()
      modifies this`txHistory, seenTxHashes, seenTxHashes.entries
      ensures Valid() && txHistory == old(txHistory) + [txHash]
      ensures sentTo == if Fresh(old(txHistory), txHash) then Recipients(peers, origin, relayedBy) else []
    {
      var isNew := CheckAndRemember(seenTxHashes, txHash, txHistory);
      txHistory := txHistory + [txHash];
      if !isNew {
        return [];
      }
      sentTo := SendToOthers(origin, relayedBy);
    }

    method SendToOthers(issuer: ResponderId, from: ResponderId) returns (sentTo: seq<ResponderId>)
      ensures sentTo == Recipients(peers, issuer, from)
    {
      sentTo := [];
      var rest := peers;
      while rest != []
        invariant Recipients(peers, issuer, from) == sentTo + Recipients(rest, issuer, from)
        decreases |rest|
      {
        var peer := rest[0];
        rest := rest[1..];
        if peer == issuer || peer == from {
          continue;
        }
        sentTo := sentTo + [peer];
      }
    }
  }

  lemma HasKeyIsIn(list: seq<(Hash, ())>, x: Hash)
    ensures HasKey(list, x) <==> x in Keys(list)
  {
    if HasKey(list, x) {
      var i :| 0 <= i < |list| && list[i].0 == x;
      assert Keys(list)[i] == x;
    }
  }
}
