// The LRU cache: four coupled structures that must always describe one list of
// distinct keys, most recently used first, cut at the capacity.

module Lru {
  import opened Common

  // ---- The list the cache stands for ----

  function Keys<K, V>(list: seq<(K, V)>): seq<K> {
    seq(|list|, i requires 0 <= i < |list| => list[i].0)
  }

  function Without<K(==), V>(list: seq<(K, V)>, key: K): seq<(K, V)> {
    if list == [] then []
    else if list[0].0 == key then Without(list[1..], key)
    else [list[0]] + Without(list[1..], key)
  }

  /** The newest value stored under the key. */
  function Lookup<K(==), V>(list: seq<(K, V)>, key: K): Option<V> {
    if list == [] then None
    else if list[0].0 == key then Some(list[0].1)
    else Lookup(list[1..], key)
  }

  function Putting<K(==), V>(list: seq<(K, V)>, capacity: nat, key: K, value: V): seq<(K, V)> {
    Take([(key, value)] + Without(list, key), capacity)
  }

  function Touching<K(==), V>(list: seq<(K, V)>, key: K, update: V -> V): seq<(K, V)> {
    match Lookup(list, key)
    case None => list
    case Some(value) => [(key, update(value))] + Without(list, key)
  }

  ghost predicate DistinctKeys<K, V>(list: seq<(K, V)>) {
    forall i, j :: 0 <= i < j < |list| ==> list[i].0 != list[j].0
  }

  ghost predicate HasKey<K, V>(list: seq<(K, V)>, key: K) {
    exists i :: 0 <= i < |list| && list[i].0 == key
  }

  lemma {:induction false} WithoutAbsent<K, V>(list: seq<(K, V)>, key: K)
    requires !HasKey(list, key)
    ensures Without(list, key) == list && Lookup(list, key) == None
  {
    if list != [] {
      assert list[0].0 != key;
      assert !HasKey(list[1..], key) by {
        forall i | 0 <= i < |list[1..]|
          ensures list[1..][i].0 != key
        {
          assert list[i + 1].0 != key;
        }
      }
      WithoutAbsent(list[1..], key);
    }
  }

  /** In a list of distinct keys, taking a key out is cutting out its one position. */
  lemma {:induction false} WithoutAt<K, V>(list: seq<(K, V)>, at: nat)
    requires DistinctKeys(list) && at < |list|
    ensures Without(list, list[at].0) == list[..at] + list[at + 1..]
    ensures Lookup(list, list[at].0) == Some(list[at].1)
  {
    var key := list[at].0;
    if at == 0 {
      forall i | 0 <= i < |list[1..]|
        ensures list[1..][i].0 != key
      {
        assert list[1..][i] == list[i + 1];
      }
      WithoutAbsent(list[1..], key);
    } else {
      assert list[0].0 != key;
      assert list[1..][at - 1] == list[at];
      WithoutAt(list[1..], at - 1);
      assert [list[0]] + (list[1..][..at - 1] + list[1..][at..]) == list[..at] + list[at + 1..];
    }
  }

  /** An operation of the cache, as a run sees it. */
  datatype Op<K, !V> =
    | PutOp(key: K, value: V)
    | GetOp(key: K, update: V -> V)
    | PeekOp(key: K)
    | PopOp(key: K)
    | ClearOp

  function Apply<K(==), V>(list: seq<(K, V)>, capacity: nat, op: Op<K, V>): seq<(K, V)> {
    match op
    case PutOp(key, value) => Putting(list, capacity, key, value)
    case GetOp(key, update) => Touching(list, key, update)
    case PeekOp(_) => list
    case PopOp(key) => Without(list, key)
    case ClearOp => []
  }

  function Run<K(==), V>(capacity: nat, ops: seq<Op<K, V>>): seq<(K, V)> {
    if ops == [] then [] else Apply(Run(capacity, ops[..|ops| - 1]), capacity, ops[|ops| - 1])
  }

  lemma WithoutKeepsDistinct<K, V>(list: seq<(K, V)>, key: K)
    requires DistinctKeys(list)
    ensures DistinctKeys(Without(list, key)) && |Without(list, key)| <= |list|
    ensures !HasKey(Without(list, key), key)
    ensures HasKey(list, key) ==> |Without(list, key)| < |list|
  {
    if HasKey(list, key) {
      var at :| 0 <= at < |list| && list[at].0 == key;
      WithoutAt(list, at);
      var cut := list[..at] + list[at + 1..];
      forall i, j | 0 <= i < j < |cut|
        ensures cut[i].0 != cut[j].0
      {
        var i', j' := if i < at then i else i + 1, if j < at then j else j + 1;
        assert list[i'].0 != list[j'].0;
      }
      forall i | 0 <= i < |cut|
        ensures cut[i].0 != key
      {
        var i' := if i < at then i else i + 1;
        assert list[i'].0 != list[at].0;
      }
    } else {
      WithoutAbsent(list, key);
    }
  }

  lemma {:induction false} LookupFinds<K, V>(list: seq<(K, V)>, key: K)
    ensures Lookup(list, key).Some? <==> HasKey(list, key)
  {
    if HasKey(list, key) {
      var at :| 0 <= at < |list| && list[at].0 == key;
      if list[0].0 != key {
        assert list[1..][at - 1].0 == key;
        LookupFinds(list[1..], key);
      }
    } else {
      WithoutAbsent(list, key);
    }
  }

  /** Every run is a list of distinct keys no longer than the capacity. */
  lemma {:induction false} RunBounded<K, V>(capacity: nat, ops: seq<Op<K, V>>)
    ensures DistinctKeys(Run(capacity, ops)) && |Run(capacity, ops)| <= capacity
  {
    if ops != [] {
      var before := Run(capacity, ops[..|ops| - 1]);
      RunBounded(capacity, ops[..|ops| - 1]);
      match ops[|ops| - 1] {
        case PutOp(key, value) =>
          WithoutKeepsDistinct(before, key);
        case GetOp(key, update) =>
          WithoutKeepsDistinct(before, key);
          LookupFinds(before, key);
        case PopOp(key) =>
          WithoutKeepsDistinct(before, key);
        case _ =>
      }
    }
  }

  // ---- What a stored key holds ----

  lemma {:induction false} LookupWithout<K, V>(list: seq<(K, V)>, key: K, other: K)
    ensures Lookup(Without(list, key), other) == if other == key then None else Lookup(list, other)
  {
    if list != [] {
      LookupWithout(list[1..], key, other);
    }
  }

  lemma {:induction false} LookupLast<K, V>(list: seq<(K, V)>, key: K)
    requires DistinctKeys(list) && list != []
    ensures Lookup(list[..|list| - 1], key) == if key == list[|list| - 1].0 then None else Lookup(list, key)
  {
    var init, last := list[..|list| - 1], list[|list| - 1];
    if |list| > 1 {
      assert list[1..][..|list| - 2] == init[1..];
      LookupLast(list[1..], key);
    }
  }

  /** A new key in a full cache: the oldest entry has to go. */
  ghost predicate Evicts<K, V>(list: seq<(K, V)>, capacity: nat, key: K) {
    |list| == capacity && !HasKey(list, key)
  }

  lemma PutList<K, V>(list: seq<(K, V)>, capacity: nat, key: K, value: V)
    requires DistinctKeys(list) && |list| <= capacity && capacity >= 1
    ensures Evicts(list, capacity, key) ==> Putting(list, capacity, key, value) == [(key, value)] + list[..|list| - 1]
    ensures !Evicts(list, capacity, key) ==> Putting(list, capacity, key, value) == [(key, value)] + Without(list, key)
  {
    if Evicts(list, capacity, key) {
      WithoutAbsent(list, key);
    } else {
      WithoutKeepsDistinct(list, key);
    }
  }

  lemma LookupFront<K, V>(list: seq<(K, V)>, rest: seq<(K, V)>, key: K, value: V, other: K)
    requires list == [(key, value)] + rest
    ensures Lookup(list, other) == if other == key then Some(value) else Lookup(rest, other)
  {
    assert list[1..] == rest;
  }

  /** A put stores its value under its key, in front; the other keys keep their order and their values, except that the
      oldest of a full cache is dropped if the key is new. */
  lemma PutStores<K, V>(list: seq<(K, V)>, capacity: nat, key: K, value: V, other: K)
    requires DistinctKeys(list) && |list| <= capacity && capacity >= 1
    ensures var rest := if Evicts(list, capacity, key) then list[..|list| - 1] else Without(list, key);
            Putting(list, capacity, key, value) == [(key, value)] + rest
    ensures Lookup(Putting(list, capacity, key, value), other) ==
            if other == key then Some(value)
            else if Evicts(list, capacity, key) && other == list[|list| - 1].0 then None
            else Lookup(list, other)
  {
    var rest := if Evicts(list, capacity, key) then list[..|list| - 1] else Without(list, key);
    PutList(list, capacity, key, value);
    LookupFront(Putting(list, capacity, key, value), rest, key, value, other);
    if Evicts(list, capacity, key) {
      LookupLast(list, other);
    } else {
      LookupWithout(list, key, other);
    }
  }

  /** A touched key comes to the front with its value updated; nothing else changes value or order. */
  lemma TouchUpdates<K, V>(list: seq<(K, V)>, key: K, update: V -> V, other: K)
    requires DistinctKeys(list)
    ensures var r := Touching(list, key, update);
            && (HasKey(list, key) ==>
                  && Lookup(list, key).Some? && r == [(key, update(Lookup(list, key).value))] + Without(list, key)
                  && Lookup(r, key) == Some(update(Lookup(list, key).value)))
            && (!HasKey(list, key) ==> r == list)
            && (other != key ==> Lookup(r, other) == Lookup(list, other))
  {
    LookupFinds(list, key);
    LookupWithout(list, key, other);
    if HasKey(list, key) {
      var r := Touching(list, key, update);
      assert r[1..] == Without(list, key);
    }
  }

  /** The value last put under the key, changed by the updates since; none once it is popped or the cache cleared. */
  function Latest<K(==), V>(ops: seq<Op<K, V>>, key: K): Option<V> {
    if ops == [] then None else
      var before := Latest(ops[..|ops| - 1], key);
      match ops[|ops| - 1]
      case PutOp(k, value) => if k == key then Some(value) else before
      case GetOp(k, update) => if k == key && before.Some? then Some(update(before.value)) else before
      case PeekOp(_) => before
      case PopOp(k) => if k == key then None else before
      case ClearOp => None
  }

  /** In every run, a key that is stored has the value last put, changed by the updates since. */
  lemma {:induction false} StoredIsLatest<K, V>(capacity: nat, ops: seq<Op<K, V>>, key: K)
    requires capacity >= 1
    ensures Lookup(Run(capacity, ops), key).Some? ==> Lookup(Run(capacity, ops), key) == Latest(ops, key)
  {
    if ops != [] {
      var init := ops[..|ops| - 1];
      var before := Run(capacity, init);
      RunBounded(capacity, init);
      StoredIsLatest(capacity, init, key);
      match ops[|ops| - 1] {
        case PutOp(k, value) =>
          PutStores(before, capacity, k, value, key);
        case GetOp(k, update) =>
          TouchUpdates(before, k, update, key);
          LookupFinds(before, k);
        case PopOp(k) =>
          LookupWithout(before, k, key);
        case _ =>
      }
    }
  }

  // ---- The cache ----

  function RemoveAt<T>(s: seq<T>, at: nat): seq<T>
    requires at < |s|
  {
    s[..at] + s[at + 1..]
  }

  /** Where the element at position j came from when position `at` was moved to the front. */
  function FrontSource(at: nat, j: nat): nat {
    if j == 0 then at else if j <= at then j - 1 else j
  }

  lemma FrontMoved<T>(s: seq<T>, at: nat)
    requires at < |s|
    ensures var r := [s[at]] + RemoveAt(s, at);
            && |r| == |s|
            && (forall j :: 0 <= j < |r| ==> FrontSource(at, j) < |s| && r[j] == s[FrontSource(at, j)])
            && (Distinct(s) ==> Distinct(r))
            && (forall x :: x in s ==> x in r)
  {
    var r := [s[at]] + RemoveAt(s, at);
    forall i | 0 <= i < |s|
      ensures s[i] in r
    {
      assert r[if i == at then 0 else if i < at then i + 1 else i] == s[i];
    }
  }

  lemma CutOut<T>(s: seq<T>, at: nat)
    requires at < |s| && Distinct(s)
    ensures var r := RemoveAt(s, at);
            && |r| == |s| - 1
            && (forall j :: 0 <= j < |r| ==> r[j] == s[if j < at then j else j + 1])
            && Distinct(r)
            && s[at] !in r
            && (forall x :: x in s && x != s[at] ==> x in r)
  {
    var r := RemoveAt(s, at);
    forall i | 0 <= i < |s| && s[i] != s[at]
      ensures s[i] in r
    {
      assert r[if i < at then i else i - 1] == s[i];
    }
  }

  lemma FrontRewritten<T>(s: seq<T>, at: nat, x: T)
    requires at < |s|
    ensures ([s[at]] + RemoveAt(s, at))[0 := x] == [x] + RemoveAt(s, at)
  {
  }

  class LruCache<K(==), V> {
    const entries: array<Option<(K, V)>>
    var keyToEntryIndex: map<K, nat>
    var usedIndexes: seq<nat>
    var freeIndexes: seq<nat>

    /** Used and free indexes partition the slots, used ones in recency order. */
    ghost predicate SlotsPartitioned()
      reads this, entries
    {
      && Distinct(usedIndexes) && Distinct(freeIndexes)
      && |usedIndexes| + |freeIndexes| == entries.Length
      && (forall j :: 0 <= j < |usedIndexes| ==> usedIndexes[j] < entries.Length && entries[usedIndexes[j]].Some?)
      && (forall j :: 0 <= j < |freeIndexes| ==> freeIndexes[j] < entries.Length && entries[freeIndexes[j]].None?)
    }

    /** The key map holds exactly the stored keys, each at its slot. */
    ghost predicate KeysMapped()
      requires SlotsPartitioned()
      reads this, entries
    {
      && (forall j :: 0 <= j < |usedIndexes| ==>
            var key := entries[usedIndexes[j]].value.0;
            key in keyToEntryIndex && keyToEntryIndex[key] == usedIndexes[j])
      && (forall key :: key in keyToEntryIndex ==>
            && keyToEntryIndex[key] in usedIndexes
            && keyToEntryIndex[key] < entries.Length
            && entries[keyToEntryIndex[key]].Some?
            && entries[keyToEntryIndex[key]].value.0 == key)
    }

    ghost predicate Valid()
      reads this, entries
    {
      SlotsPartitioned() && KeysMapped()
    }

    /** The list the cache stands for, most recently used first. */
    ghost function Contents(): (list: seq<(K, V)>)
      requires SlotsPartitioned()
      reads this, entries
      ensures |list| == |usedIndexes|
    {
      seq(|usedIndexes|, j requires 0 <= j < |usedIndexes| reads this, entries requires SlotsPartitioned() => entries[usedIndexes[j]].value)
    }

    lemma ContentsDistinct()
      requires Valid()
      ensures DistinctKeys(Contents())
    {
    }

    constructor (capacity: nat)
      ensures Valid() && fresh(entries) && entries.Length == capacity
      ensures Contents() == []
    {
      entries := new Option<(K, V)>[capacity](_ => None);
      keyToEntryIndex := map[];
      usedIndexes := [];
      freeIndexes := seq(capacity, i => i);
    }

    method Len() returns (n: nat)
      requires Valid()
      ensures n == |Contents()|
    {
      MapCardinality();
      assert |usedIndexes| == |keyToEntryIndex|;
      n := |usedIndexes|;
    }

    lemma MapCardinality()
      requires Valid()
      ensures |keyToEntryIndex| == |usedIndexes|
    {
      ContentsDistinct();
      var keys := Keys(Contents());
      DistinctCardinality(keys);
      assert keyToEntryIndex.Keys == Elements(keys) by {
        forall key | key in keyToEntryIndex
          ensures key in keys
        {
          var j :| 0 <= j < |usedIndexes| && usedIndexes[j] == keyToEntryIndex[key];
          assert keys[j] == key;
        }
        forall key | key in keys
          ensures key in keyToEntryIndex
        {
          var j :| 0 <= j < |keys| && keys[j] == key;
        }
      }
      assert |keyToEntryIndex| == |keyToEntryIndex.Keys|;
    }

    method IsEmpty() returns (b: bool)
      requires Valid()
      ensures b <==> Contents() == []
    {
      b := usedIndexes == [];
    }

    method IsFull() returns (b: bool)
      requires Valid()
      ensures b <==> |Contents()| == entries.Length
    {
      b := freeIndexes == [];
    }

    method Contains(key: K) returns (b: bool)
      requires Valid()
      ensures b <==> HasKey(Contents(), key)
    {
      b := key in keyToEntryIndex;
      MapHasKey(key);
    }

    lemma MapHasKey(key: K)
      requires Valid()
      ensures key in keyToEntryIndex <==> HasKey(Contents(), key)
    {
      if key in keyToEntryIndex {
        var j :| 0 <= j < |usedIndexes| && usedIndexes[j] == keyToEntryIndex[key];
        assert Contents()[j].0 == key;
      }
    }

    /** search_used: the position of a key in recency order. */
    method SearchUsed(key: K) returns (at: Option<nat>)
      requires Valid()
      ensures at.Some? <==> HasKey(Contents(), key)
      ensures at.Some? ==> at.value < |usedIndexes| && Contents()[at.value].0 == key
    {
      MapHasKey(key);
      if key !in keyToEntryIndex {
        return None;
      }
      for i := 0 to |usedIndexes|
        invariant forall j :: 0 <= j < i ==> Contents()[j].0 != key
      {
        var entry := entries[usedIndexes[i]];
        if entry.Some? && entry.value.0 == key {
          return Some(i);
        }
      }
      return None;
    }

    method Peek(key: K) returns (r: Option<V>)
      requires Valid()
      ensures r == Lookup(Contents(), key)
    {
      MapHasKey(key);
      ContentsDistinct();
      if key !in keyToEntryIndex {
        WithoutAbsent(Contents(), key);
        return None;
      }
      ghost var j :| 0 <= j < |usedIndexes| && usedIndexes[j] == keyToEntryIndex[key];
      WithoutAt(Contents(), j);
      return Some(entries[keyToEntryIndex[key]].value.1);
    }

    /** The iterator: entries from most to least recently used. */
    method Iterate() returns (items: seq<(K, V)>)
      requires Valid()
      ensures items == Contents()
    {
      items := [];
      var pos := 0;
      while pos != |usedIndexes|
        invariant 0 <= pos <= |usedIndexes|
        invariant items == Contents()[..pos]
      {
        var entry := entries[usedIndexes[pos]];
        if entry.Some? {
          items := items + [entry.value];
        }
        pos := pos + 1;
      }
    }

    method Clear()
      requires Valid()
      modifies this, entries
      ensures Valid() && Contents() == []
    {
      while usedIndexes != []
        invariant SlotsPartitioned()
        invariant keyToEntryIndex == map[] || Valid()
        decreases |usedIndexes|
      {
        var usedIndex := usedIndexes[0];
        assert forall j :: 0 < j < |usedIndexes| ==> usedIndexes[j] != usedIndex;
        usedIndexes := usedIndexes[1..];
        entries[usedIndex] := None;
        keyToEntryIndex := map[];
        freeIndexes := [usedIndex] + freeIndexes;
      }
    }

    /** Moves the entry at a recency position to the front; no slot changes. */
    method MoveToFront(at: nat)
      requires Valid() && at < |usedIndexes|
      modifies this
      ensures Valid()
      ensures keyToEntryIndex == old(keyToEntryIndex) && freeIndexes == old(freeIndexes)
      ensures usedIndexes == [old(usedIndexes)[at]] + RemoveAt(old(usedIndexes), at)
      ensures Contents() == [old(Contents())[at]] + RemoveAt(old(Contents()), at)
    {
      ghost var list := Contents();
      FrontMoved(usedIndexes, at);
      var entryIndex := usedIndexes[at];
      usedIndexes := [entryIndex] + RemoveAt(usedIndexes, at);
      FrontMoved(list, at);
    }

    /** Overwrites the value of a stored key in its slot. */
    method WriteAt(at: nat, key: K, value: V)
      requires Valid() && at < |usedIndexes| && Contents()[at].0 == key
      modifies this, entries
      ensures Valid()
      ensures keyToEntryIndex == old(keyToEntryIndex) && usedIndexes == old(usedIndexes) && freeIndexes == old(freeIndexes)
      ensures Contents() == old(Contents())[at := (key, value)]
    {
      ghost var list := Contents();
      var entryIndex := usedIndexes[at];
      entries[entryIndex] := Some((key, value));
      keyToEntryIndex := keyToEntryIndex[key := entryIndex];
      assert Contents() == list[at := (key, value)];
    }

    /** get_mut, with what the caller writes through the returned reference. */
    method GetMut(key: K, update: V -> V) returns (r: Option<V>)
      requires Valid()
      modifies this, entries
      ensures Valid()
      ensures r == Lookup(old(Contents()), key)
      ensures Contents() == Touching(old(Contents()), key, update)
    {
      ghost var list := Contents();
      ContentsDistinct();
      var at := SearchUsed(key);
      if at.None? {
        WithoutAbsent(list, key);
        return None;
      }
      WithoutAt(list, at.value);
      MoveToFront(at.value);
      var value := entries[usedIndexes[0]].value.1;
      FrontRewritten(list, at.value, (key, update(value)));
      WriteAt(0, key, update(value));
      return Some(value);
    }

    method Get(key: K) returns (r: Option<V>)
      requires Valid()
      modifies this, entries
      ensures Valid()
      ensures r == Lookup(old(Contents()), key)
      ensures Contents() == Touching(old(Contents()), key, v => v)
    {
      r := GetMut(key, v => v);
    }

    method Pop(key: K) returns (r: Option<V>)
      requires Valid()
      modifies this, entries
      ensures Valid()
      ensures r == Lookup(old(Contents()), key)
      ensures Contents() == Without(old(Contents()), key)
    {
      ghost var list := Contents();
      ContentsDistinct();
      var at := SearchUsed(key);
      if at.None? {
        WithoutAbsent(list, key);
        return None;
      }
      WithoutAt(list, at.value);
      r := ReleaseAt(at.value);
    }

    /** Frees the slot of the entry at a recency position. */
    method ReleaseAt(at: nat) returns (r: Option<V>)
      requires Valid() && at < |usedIndexes|
      modifies this, entries
      ensures Valid()
      ensures r == Some(old(Contents())[at].1)
      ensures Contents() == RemoveAt(old(Contents()), at)
    {
      ghost var list := Contents();
      ContentsDistinct();
      var entryIdx := usedIndexes[at];
      var entry := entries[entryIdx];
      CutOut(usedIndexes, at);
      CutOut(list, at);
      entries[entryIdx] := None;
      usedIndexes := RemoveAt(usedIndexes, at);
      freeIndexes := [entryIdx] + freeIndexes;
      assert SlotsPartitioned();
      assert Contents() == RemoveAt(list, at);
      keyToEntryIndex := keyToEntryIndex - {entry.value.0};
      return Some(entry.value.1);
    }

    /** Stores a new key in a free slot, at the front. */
    method InsertFree(key: K, value: V)
      requires Valid() && freeIndexes != [] && !HasKey(Contents(), key)
      modifies this, entries
      ensures Valid()
      ensures Contents() == [(key, value)] + old(Contents())
    {
      ghost var list := Contents();
      MapHasKey(key);
      var freeIndex := freeIndexes[|freeIndexes| - 1];
      assert entries[freeIndex].None?;
      CutOut(freeIndexes, |freeIndexes| - 1);
      freeIndexes := freeIndexes[..|freeIndexes| - 1];
      entries[freeIndex] := Some((key, value));
      usedIndexes := [freeIndex] + usedIndexes;
      assert SlotsPartitioned();
      assert Contents() == [(key, value)] + list;
      keyToEntryIndex := keyToEntryIndex[key := freeIndex];
    }

    /** Gives the slot at a recency position to a key that is not stored. */
    method RekeyAt(at: nat, key: K, value: V)
      requires Valid() && at < |usedIndexes| && !HasKey(Contents(), key)
      modifies this, entries
      ensures Valid()
      ensures usedIndexes == old(usedIndexes) && freeIndexes == old(freeIndexes)
      ensures Contents() == old(Contents())[at := (key, value)]
    {
      ghost var list := Contents();
      ContentsDistinct();
      MapHasKey(key);
      var index := usedIndexes[at];
      assert entries[index].Some?;
      var oldest := entries[index].value.0;
      assert list[at].0 == oldest;
      keyToEntryIndex := keyToEntryIndex - {oldest};
      entries[index] := Some((key, value));
      assert SlotsPartitioned();
      assert Contents() == list[at := (key, value)];
      keyToEntryIndex := keyToEntryIndex[key := index];
    }

    /** Replaces the oldest entry by a new key, at the front. */
    method ReplaceOldest(key: K, value: V)
      requires Valid() && usedIndexes != [] && !HasKey(Contents(), key)
      modifies this, entries
      ensures Valid()
      ensures Contents() == [(key, value)] + old(Contents())[..|old(Contents())| - 1]
    {
      ghost var list := Contents();
      var last := |usedIndexes| - 1;
      RekeyAt(last, key, value);
      assert RemoveAt(list[last := (key, value)], last) == list[..last];
      MoveToFront(last);
    }

    /** A put needs a slot to put into: on capacity zero the source's `expect` fails. */
    method Put(key: K, value: V) returns (r: Option<V>)
      requires Valid() && entries.Length > 0
      modifies this, entries
      ensures Valid()
      ensures r == Lookup(old(Contents()), key)
      ensures Contents() == Putting(old(Contents()), entries.Length, key, value)
    {
      ghost var list := Contents();
      ContentsDistinct();
      var at := SearchUsed(key);
      if at.Some? {
        WithoutAt(list, at.value);
        r := Some(entries[usedIndexes[at.value]].value.1);
        WriteAt(at.value, key, value);
        assert RemoveAt(list[at.value := (key, value)], at.value) == RemoveAt(list, at.value);
        MoveToFront(at.value);
        return;
      }
      WithoutAbsent(list, key);
      if freeIndexes != [] {
        InsertFree(key, value);
      } else {
        ReplaceOldest(key, value);
        assert ([(key, value)] + list)[..|list|] == [(key, value)] + list[..|list| - 1];
      }
      return None;
    }
  }
}
