// The faucet's rebalancing rule: when the largest coins are too uneven to be
// split in parallel they are merged into MAX_OUTPUTS nearly equal ones.

module FaucetRebalance {
  import opened Common

  const MAX_OUTPUTS := 16

  function Total(s: seq<nat>): nat {
    if s == [] then 0 else s[0] + Total(s[1..])
  }

  ghost predicate Descending(s: seq<nat>) {
    forall i, j :: 0 <= i < j < |s| ==> s[i] >= s[j]
  }

  function Top<T>(s: seq<T>): seq<T> {
    Take(s, MAX_OUTPUTS)
  }

  function Rest<T>(s: seq<T>): seq<T> {
    if |s| <= MAX_OUTPUTS then [] else s[MAX_OUTPUTS..]
  }

  function ValueAt(s: seq<nat>, i: nat): nat {
    if i < |s| then s[i] else 0
  }

  function SmallestInteresting(target: nat, fee: nat): nat {
    target * (MAX_OUTPUTS - 1) + fee
  }

  function Average(total: nat, fee: nat): nat
    requires fee <= total
  {
    (total - fee) / MAX_OUTPUTS
  }

  /** The test on the largest coins, given in descending order. */
  predicate Rebalances(target: nat, fee: nat, top: seq<nat>) {
    && fee <= Total(top)
    && Average(Total(top), fee) >= SmallestInteresting(target, fee)
    && ValueAt(top, 0) > 2 * ValueAt(top, MAX_OUTPUTS - 1)
  }

  /** What is left of the inputs after the fee and MAX_OUTPUTS - 1 outlays. */
  function Change(total: nat, fee: nat): nat
    requires fee <= total
  {
    total - fee - (MAX_OUTPUTS - 1) * Average(total, fee)
  }

  /** The outputs of a rebalancing transaction that spends `total`, largest first. */
  function Outputs(total: nat, fee: nat): seq<nat>
    requires fee <= total
  {
    [Change(total, fee)] + seq(MAX_OUTPUTS - 1, _ => Average(total, fee))
  }

  lemma {:induction false} TotalConcat(a: seq<nat>, b: seq<nat>)
    ensures Total(a + b) == Total(a) + Total(b)
  {
    if a == [] {
      assert a + b == b;
    } else {
      assert (a + b)[1..] == a[1..] + b;
      TotalConcat(a[1..], b);
    }
  }

  lemma {:induction false} TotalAtLeast(s: seq<nat>, v: nat)
    requires forall i :: 0 <= i < |s| ==> v <= s[i]
    ensures Total(s) >= |s| * v
  {
    if s != [] {
      TotalAtLeast(s[1..], v);
      assert |s| * v == v + |s[1..]| * v;
    }
  }

  lemma {:induction false} TotalAtMost(s: seq<nat>, v: nat)
    requires forall i :: 0 <= i < |s| ==> s[i] <= v
    ensures Total(s) <= |s| * v
  {
    if s != [] {
      TotalAtMost(s[1..], v);
      assert |s| * v == v + |s[1..]| * v;
    }
  }

  lemma {:induction false} TotalConstant(n: nat, v: nat)
    ensures Total(seq(n, _ => v)) == n * v
  {
    if n > 0 {
      assert seq(n, _ => v)[1..] == seq(n - 1, _ => v);
      TotalConstant(n - 1, v);
    }
  }

  /** A rebalancing transaction creates and destroys nothing but the fee. */
  lemma OutputsConserve(total: nat, fee: nat)
    requires fee <= total
    ensures Total(Outputs(total, fee)) + fee == total
  {
    TotalConstant(MAX_OUTPUTS - 1, Average(total, fee));
    assert Outputs(total, fee)[1..] == seq(MAX_OUTPUTS - 1, _ => Average(total, fee));
  }

  /** The average exceeds the smallest of the inputs, even after the fee. */
  lemma AverageAboveSmallest(target: nat, fee: nat, top: seq<nat>)
    requires |top| == MAX_OUTPUTS && Descending(top) && Rebalances(target, fee, top)
    ensures Average(Total(top), fee) >= top[MAX_OUTPUTS - 1]
  {
    var least := top[MAX_OUTPUTS - 1];
    TotalAtLeast(top[1..], least);
    assert Total(top) >= top[0] + 15 * least;
  }

  lemma AverageAboveRest(target: nat, fee: nat, utxos: seq<nat>)
    requires Descending(utxos) && Rebalances(target, fee, Top(utxos))
    ensures forall i :: 0 <= i < |Rest(utxos)| ==> Rest(utxos)[i] <= Average(Total(Top(utxos)), fee)
  {
    if |utxos| > MAX_OUTPUTS {
      AverageAboveSmallest(target, fee, Top(utxos));
      assert forall i :: MAX_OUTPUTS <= i < |utxos| ==> utxos[i] <= utxos[MAX_OUTPUTS - 1];
    }
  }

  /** The outputs are nearly equal and none of them can be mistaken for a coin to hand out. */
  lemma OutputsEven(target: nat, fee: nat, top: seq<nat>)
    requires target >= 1 && Rebalances(target, fee, top)
    ensures var out := Outputs(Total(top), fee);
            && Descending(out) && out[0] <= 2 * out[MAX_OUTPUTS - 1]
            && forall x :: x in out ==> x > target
  {
  }

  lemma HeadIsLargest(a: seq<nat>, b: seq<nat>)
    requires Descending(a) && multiset(a) == multiset(b) && b != []
    ensures a != [] && b[0] <= a[0]
  {
    assert b[0] in multiset(b);
    assert b[0] in a;
  }

  lemma TailContents(a: seq<nat>)
    requires a != []
    ensures multiset(a[1..]) == multiset(a) - multiset{a[0]}
  {
    assert a == [a[0]] + a[1..];
  }

  /** A list has one arrangement in descending order. */
  lemma {:induction false} DescendingUnique(a: seq<nat>, b: seq<nat>)
    requires Descending(a) && Descending(b) && multiset(a) == multiset(b)
    ensures a == b
    decreases |a|
  {
    if a == [] {
      assert |b| == |multiset(b)| == |multiset(a)| == 0;
    } else {
      HeadIsLargest(b, a);
      HeadIsLargest(a, b);
      TailContents(a);
      TailContents(b);
      DescendingUnique(a[1..], b[1..]);
      assert a == [a[0]] + a[1..] && b == [b[0]] + b[1..];
    }
  }

  lemma DescendingConcat(a: seq<nat>, b: seq<nat>, v: nat)
    requires Descending(a) && forall i :: 0 <= i < |a| ==> a[i] >= v
    requires Descending(b) && forall i :: 0 <= i < |b| ==> b[i] <= v
    ensures Descending(a + b)
  {
  }

  lemma OutputsLead(target: nat, fee: nat, utxos: seq<nat>, after: seq<nat>)
    requires Descending(utxos) && Rebalances(target, fee, Top(utxos))
    requires Descending(after) && multiset(after) == multiset(Outputs(Total(Top(utxos)), fee)) + multiset(Rest(utxos))
    ensures Top(after) == Outputs(Total(Top(utxos)), fee)
  {
    var out, rest := Outputs(Total(Top(utxos)), fee), Rest(utxos);
    assert Descending(out);
    AverageAboveRest(target, fee, utxos);
    DescendingConcat(out, rest, Average(Total(Top(utxos)), fee));
    assert multiset(out + rest) == multiset(after);
    DescendingUnique(after, out + rest);
  }

  /** Rebalancing does not repeat: once the transaction has landed, its outputs are the largest coins and the
      test fails on the coins there are then. */
  lemma RebalancingSettles(target: nat, fee: nat, utxos: seq<nat>, after: seq<nat>)
    requires target >= 1 && Descending(utxos) && Rebalances(target, fee, Top(utxos))
    requires Descending(after) && multiset(after) == multiset(Outputs(Total(Top(utxos)), fee)) + multiset(Rest(utxos))
    ensures var out := Outputs(Total(Top(utxos)), fee);
            && (forall x, y :: x in out && y in Rest(utxos) ==> y <= x)
            && (forall x, y :: x in out && y in out ==> x <= 2 * y)
            && target !in out
    ensures !Rebalances(target, fee, Top(after))
  {
    AverageAboveRest(target, fee, utxos);
    OutputsEven(target, fee, Top(utxos));
    OutputsLead(target, fee, utxos, after);
  }

  // ---- Whether every listed input is spent ----

  /** The inputs other than the largest cannot pay for the outlays exactly when the largest exceeds the change. */
  lemma LargestNeeded(fee: nat, top: seq<nat>)
    requires top != [] && fee <= Total(top)
    ensures var total := Total(top);
            Total(top[1..]) < (MAX_OUTPUTS - 1) * Average(total, fee) + fee <==> top[0] > Change(total, fee)
  {
  }

  /** All but the smallest amounts: a rebalancing transaction needs its largest input. */
  lemma LargestNeededUnlessDust(target: nat, fee: nat, top: seq<nat>)
    requires |top| <= MAX_OUTPUTS && Descending(top) && Rebalances(target, fee, top)
    requires Average(Total(top), fee) + 2 * fee >= 435
    ensures Total(top[1..]) < (MAX_OUTPUTS - 1) * Average(Total(top), fee) + fee
  {
    var total := Total(top);
    LargestNeeded(fee, top);
    if |top| < MAX_OUTPUTS {
      TotalAtMost(top, top[0]);
      assert total <= 15 * top[0] by { Times(|top|, 15, top[0]); }
    } else {
      var init := top[..MAX_OUTPUTS - 1];
      assert top == init + [top[MAX_OUTPUTS - 1]];
      TotalConcat(init, [top[MAX_OUTPUTS - 1]]);
      TotalAtMost(init, top[0]);
    }
    assert 2 * total <= 31 * top[0];
  }

  lemma Times(a: nat, b: nat, v: nat)
    requires a <= b
    ensures a * v <= b * v
  {
  }

  // ---- What a landed transaction leaves, with the inputs that selection really takes ----

  /** What the outlays and the fee come to. */
  function Outlay(total: nat, fee: nat): nat
    requires fee <= total
  {
    (MAX_OUTPUTS - 1) * Average(total, fee) + fee
  }

  /** Selection takes the smallest inputs first, so it spends the listed inputs from position j on. */
  ghost predicate Spends(top: seq<nat>, need: nat, j: nat) {
    j < |top| && Total(top[j + 1..]) < need <= Total(top[j..])
  }

  /** Whatever the listed inputs can pay for is paid from some position on. */
  lemma {:induction false} SpendsSome(top: seq<nat>, need: nat) returns (j: nat)
    requires 0 < need <= Total(top)
    ensures Spends(top, need, j)
  {
    if Total(top[1..]) < need {
      assert top[0..] == top;
      j := 0;
    } else {
      j := SpendsSome(top[1..], need);
      assert top[1..][j..] == top[j + 1..] && top[1..][j + 1..] == top[j + 2..];
      j := j + 1;
    }
  }

  /** The change, unless there is none or it has the target value and is put aside for consumers. */
  function KeptChange(change: nat, target: nat): seq<nat> {
    if change == 0 || change == target then [] else [change]
  }

  function Evens(v: nat): seq<nat> {
    seq(MAX_OUTPUTS - 1, _ => v)
  }

  function Count(s: seq<nat>, x: nat): nat {
    if s == [] then 0 else (if s[0] == x then 1 else 0) + Count(s[1..], x)
  }

  /** As many coins of each value. */
  ghost predicate SameCoins(a: seq<nat>, b: seq<nat>) {
    forall x :: Count(a, x) == Count(b, x)
  }

  lemma {:induction false} CountIs(s: seq<nat>, x: nat)
    ensures Count(s, x) == multiset(s)[x]
  {
    if s != [] {
      CountIs(s[1..], x);
      assert s == [s[0]] + s[1..];
    }
  }

  lemma SameCoinsIs(a: seq<nat>, b: seq<nat>)
    ensures SameCoins(a, b) <==> multiset(a) == multiset(b)
  {
    forall x: nat
      ensures Count(a, x) == multiset(a)[x] && Count(b, x) == multiset(b)[x]
    {
      CountIs(a, x);
      CountIs(b, x);
    }
  }

  /** The inputs before j, fifteen outputs, the change and the coins not listed. */
  function Remains(top: seq<nat>, rest: seq<nat>, avg: nat, change: seq<nat>, j: nat): seq<nat>
    requires j <= |top|
  {
    top[..j] + Evens(avg) + change + rest
  }

  /** The unspent coins of other than the target value after the transaction that spends the inputs from j on. */
  ghost predicate LandedFrom(target: nat, fee: nat, utxos: seq<nat>, after: seq<nat>, j: nat)
    requires fee <= Total(Top(utxos))
  {
    var top := Top(utxos);
    var total := Total(top);
    && Spends(top, Outlay(total, fee), j)
    && Descending(after)
    && SameCoins(after, Remains(top, Rest(utxos), Average(total, fee), KeptChange(Total(top[j..]) - Outlay(total, fee), target), j))
  }

  /** In descending order, n elements of at least v fill the first n places with such. */
  lemma FirstAreLarge(after: seq<nat>, large: seq<nat>, v: nat)
    requires Descending(after) && multiset(large) <= multiset(after) && large != []
    requires forall i :: 0 <= i < |large| ==> large[i] >= v
    ensures |large| <= |after| && after[|large| - 1] >= v
  {
    var n := |large|;
    PartIsShorter(large, after);
    if after[n - 1] < v {
      var head, tail := after[..n - 1], after[n - 1..];
      assert after == head + tail;
      forall x
        ensures multiset(large)[x] <= multiset(head)[x]
      {
        if x in multiset(large) {
          assert x in large;
          assert x !in tail;
          assert x !in multiset(tail);
        }
      }
      PartIsShorter(large, head);
    }
  }

  lemma PartIsShorter(part: seq<nat>, whole: seq<nat>)
    requires multiset(part) <= multiset(whole)
    ensures |part| <= |whole|
  {
    assert multiset(whole) == multiset(part) + (multiset(whole) - multiset(part));
    assert |multiset(part)| == |part| && |multiset(whole)| == |whole|;
  }

  lemma AllAtMost(after: seq<nat>, parts: seq<nat>, v: nat)
    requires multiset(after) == multiset(parts) && forall i :: 0 <= i < |parts| ==> parts[i] <= v
    ensures forall i :: 0 <= i < |after| ==> after[i] <= v
  {
    forall i | 0 <= i < |after|
      ensures after[i] <= v
    {
      assert after[i] in multiset(after);
      assert after[i] in parts;
    }
  }

  /** The largest coin is at most twice the sixteenth. */
  predicate Even(utxos: seq<nat>) {
    ValueAt(utxos, 0) <= 2 * ValueAt(utxos, MAX_OUTPUTS - 1)
  }

  /** Sixteen coins within a factor of two, and no larger one. */
  lemma EvenTop(after: seq<nat>, large: seq<nat>, others: seq<nat>, v: nat)
    requires Descending(after) && multiset(after) == multiset(large + others) && |large| == MAX_OUTPUTS
    requires forall i :: 0 <= i < |large| ==> v <= large[i] <= 2 * v
    requires forall i :: 0 <= i < |others| ==> others[i] <= 2 * v
    ensures Even(after)
  {
    AllAtMost(after, large + others, 2 * v);
    assert multiset(large + others) == multiset(large) + multiset(others);
    FirstAreLarge(after, large, v);
  }

  /** What stays unspent is worth no more than the change would be if nothing did. */
  lemma UnspentWithinChange(fee: nat, top: seq<nat>, j: nat)
    requires fee <= Total(top) && Spends(top, Outlay(Total(top), fee), j)
    ensures Total(top[..j]) <= Change(Total(top), fee)
  {
    assert top == top[..j] + top[j..];
    TotalConcat(top[..j], top[j..]);
  }

  lemma FirstTwo(top: seq<nat>, j: nat)
    requires 2 <= j <= |top|
    ensures Total(top[..j]) >= top[0] + top[1]
  {
    var two := [top[0], top[1]];
    assert top[..j] == two + top[2..j];
    TotalConcat(two, top[2..j]);
    assert two[1..] == [top[1]] && Total([top[1]]) == top[1];
  }

  /** Two unspent inputs are each larger than any spent one, and so too much. */
  lemma TwoUnspent(top: seq<nat>, j: nat, avg: nat)
    requires 2 <= j <= |top| <= MAX_OUTPUTS && Descending(top) && avg >= 15
    requires Total(top[j..]) >= 15 * avg
    ensures Total(top[..j]) > avg + 15
  {
    FirstTwo(top, j);
    TotalAtMost(top[j..], top[1]);
    Times(|top[j..]|, 14, top[1]);
  }

  /** Only the largest listed input can stay unspent, and then it lies between the average and the change. */
  lemma OneUnspent(target: nat, fee: nat, top: seq<nat>, j: nat)
    requires target >= 1 && |top| <= MAX_OUTPUTS && Descending(top) && Rebalances(target, fee, top)
    requires Spends(top, Outlay(Total(top), fee), j)
    ensures j <= 1
    ensures j == 1 ==> Average(Total(top), fee) <= top[0] <= Change(Total(top), fee)
  {
    var avg := Average(Total(top), fee);
    UnspentWithinChange(fee, top, j);
    if j >= 2 {
      TwoUnspent(top, j, avg);
    } else if j == 1 {
      assert top[..1] == [top[0]] && Total([top[0]]) == top[0];
      TotalAtMost(top[1..], top[0]);
      Times(|top[1..]|, 15, top[0]);
    }
  }

  /** The sixteen outputs, or the largest input and fifteen of them, leave the coins even. */
  lemma EvenAfter(after: seq<nat>, first: nat, avg: nat, others: seq<nat>, remains: seq<nat>)
    requires Descending(after) && multiset(after) == multiset(remains)
    requires avg <= first <= 2 * avg && forall i :: 0 <= i < |others| ==> others[i] <= avg
    requires multiset(remains) == multiset([first] + Evens(avg)) + multiset(others)
    ensures Even(after)
  {
    assert multiset(remains) == multiset([first] + Evens(avg) + others);
    EvenTop(after, [first] + Evens(avg), others, avg);
  }

  lemma RemainsAllSpent(top: seq<nat>, rest: seq<nat>, avg: nat, change: nat)
    ensures multiset(Remains(top, rest, avg, [change], 0)) == multiset([change] + Evens(avg)) + multiset(rest)
  {
    assert Remains(top, rest, avg, [change], 0) == Evens(avg) + [change] + rest;
  }

  lemma RemainsOneUnspent(top: seq<nat>, rest: seq<nat>, avg: nat, change: seq<nat>)
    requires top != []
    ensures multiset(Remains(top, rest, avg, change, 1)) == multiset([top[0]] + Evens(avg)) + multiset(change + rest)
  {
    assert Remains(top, rest, avg, change, 1) == [top[0]] + Evens(avg) + (change + rest);
  }

  /** With everything known about the amounts, the coins are even after landing. */
  lemma SettlesFrom(top: seq<nat>, rest: seq<nat>, avg: nat, change: seq<nat>, j: nat, after: seq<nat>)
    requires top != [] && j <= 1 && |change| <= 1 && forall i :: 0 <= i < |rest| ==> rest[i] <= avg
    requires j == 0 ==> |change| == 1 && avg <= change[0] <= 2 * avg
    requires j == 1 ==> avg <= top[0] <= 2 * avg && (change != [] ==> change[0] <= avg)
    requires Descending(after) && multiset(after) == multiset(Remains(top, rest, avg, change, j))
    ensures Even(after)
  {
    if j == 0 {
      assert change == [change[0]];
      RemainsAllSpent(top, rest, avg, change[0]);
      EvenAfter(after, change[0], avg, rest, Remains(top, rest, avg, change, 0));
    } else {
      RemainsOneUnspent(top, rest, avg, change);
      EvenAfter(after, top[0], avg, change + rest, Remains(top, rest, avg, change, 1));
    }
  }

  /** What is known about the amounts. */
  lemma AmountsAsSpent(target: nat, fee: nat, top: seq<nat>, j: nat)
    requires target >= 1 && |top| <= MAX_OUTPUTS && Descending(top) && Rebalances(target, fee, top)
    requires Spends(top, Outlay(Total(top), fee), j)
    ensures var avg, change := Average(Total(top), fee), KeptChange(Total(top[j..]) - Outlay(Total(top), fee), target);
            && top != [] && j <= 1 && |change| <= 1
            && (j == 0 ==> |change| == 1 && avg <= change[0] <= 2 * avg)
            && (j == 1 ==> avg <= top[0] <= 2 * avg && (change != [] ==> change[0] <= avg))
  {
    OneUnspent(target, fee, top, j);
    assert top[0..] == top && Total(top) == top[0] + Total(top[1..]);
  }

  /** Rebalancing does not repeat, whatever inputs selection takes: with a target of at least 1 the test is false on the
      coins there are once the transaction has landed. */
  lemma RebalancingSettlesAsSpent(target: nat, fee: nat, utxos: seq<nat>, after: seq<nat>, j: nat)
    requires target >= 1 && Descending(utxos) && Rebalances(target, fee, Top(utxos))
    requires LandedFrom(target, fee, utxos, after, j)
    ensures !Rebalances(target, fee, Top(after))
  {
    var top := Top(utxos);
    var avg, change := Average(Total(top), fee), KeptChange(Total(top[j..]) - Outlay(Total(top), fee), target);
    AverageAboveRest(target, fee, utxos);
    AmountsAsSpent(target, fee, top, j);
    SameCoinsIs(after, Remains(top, Rest(utxos), avg, change, j));
    SettlesFrom(top, Rest(utxos), avg, change, j, after);
  }

  // ---- When rebalancing repeats ----

  lemma TotalWithout(s: seq<nat>, i: nat)
    requires i < |s|
    ensures Total(s) == s[i] + Total(s[..i] + s[i + 1..])
  {
    var a, x, b := s[..i], [s[i]], s[i + 1..];
    assert s == a + (x + b);
    TotalConcat(a, x + b);
    TotalConcat(x, b);
    TotalConcat(a, b);
  }

  lemma WithoutContents(s: seq<nat>, i: nat)
    requires i < |s|
    ensures multiset(s[..i] + s[i + 1..]) == multiset(s) - multiset{s[i]}
  {
    assert s == s[..i] + [s[i]] + s[i + 1..];
  }

  lemma {:induction false} TotalPart(part: seq<nat>, whole: seq<nat>)
    requires multiset(part) <= multiset(whole)
    ensures Total(part) <= Total(whole)
    decreases |part|
  {
    if part != [] {
      assert part[0] in multiset(whole);
      var i :| 0 <= i < |whole| && whole[i] == part[0];
      TotalWithout(whole, i);
      WithoutContents(whole, i);
      TailContents(part);
      TotalPart(part[1..], whole[..i] + whole[i + 1..]);
    }
  }

  /** Sixteen coins above v must come from the few that can be. */
  lemma SixteenLarge(after: seq<nat>, few: seq<nat>, others: seq<nat>, v: nat)
    requires Descending(after) && |after| >= MAX_OUTPUTS && multiset(after) == multiset(few) + multiset(others)
    requires forall i :: 0 <= i < |others| ==> others[i] <= v
    ensures after[MAX_OUTPUTS - 1] > v ==> Total(few) >= MAX_OUTPUTS * (v + 1)
  {
    if after[MAX_OUTPUTS - 1] > v {
      var head: seq<nat>, tail: seq<nat> := after[..MAX_OUTPUTS], after[MAX_OUTPUTS..];
      assert after == head + tail;
      forall x: nat
        ensures multiset(head)[x] <= multiset(few)[x]
      {
        if x in multiset(head) {
          assert x in head;
          assert x > v;
          assert x !in others;
          assert x !in multiset(others);
          assert multiset(after)[x] == multiset(few)[x];
          assert multiset(after) == multiset(head) + multiset(tail);
        }
      }
      TotalPart(head, few);
      TotalAtLeast(head, v + 1);
    }
  }

  lemma LargestFirst(after: seq<nat>, remains: seq<nat>, at: nat)
    requires Descending(after) && multiset(after) == multiset(remains) && at < |remains|
    requires forall i :: 0 <= i < |remains| ==> remains[i] <= remains[at]
    ensures after != [] && after[0] == remains[at]
  {
    AllAtMost(after, remains, remains[at]);
    assert remains[at] in multiset(remains);
    assert remains[at] in after;
  }

  /** What can be above the average is worth no more than the change and so is less than sixteen coins: the largest coin and
      the sixteenth after landing. */
  lemma TopAfter(after: seq<nat>, first: nat, few: seq<nat>, avg: nat, rest: seq<nat>, remains: seq<nat>)
    requires Descending(after) && multiset(after) == multiset(remains)
    requires multiset(remains) == multiset(few) + multiset(Evens(avg) + rest)
    requires first in few && first >= avg && forall i :: 0 <= i < |few| ==> few[i] <= first
    requires (forall i :: 0 <= i < |rest| ==> rest[i] <= avg) && Total(few) < MAX_OUTPUTS * (avg + 1)
    ensures |after| >= MAX_OUTPUTS && after[0] == first && after[MAX_OUTPUTS - 1] == avg
  {
    var at :| 0 <= at < |few| && few[at] == first;
    var parts := few + (Evens(avg) + rest);
    assert multiset(after) == multiset(parts);
    LargestFirst(after, parts, at);
    var large := [first] + Evens(avg);
    LargeAmong(few, first, avg, rest);
    FirstAreLarge(after, large, avg);
    SixteenLarge(after, few, Evens(avg) + rest, avg);
  }

  lemma LargeAmong(few: seq<nat>, first: nat, avg: nat, rest: seq<nat>)
    requires first in few
    ensures multiset([first] + Evens(avg)) <= multiset(few) + multiset(Evens(avg) + rest)
  {
    assert first in multiset(few);
    assert multiset([first] + Evens(avg)) == multiset{first} + multiset(Evens(avg));
    assert multiset(Evens(avg) + rest) == multiset(Evens(avg)) + multiset(rest);
  }

  lemma RemainsFew(top: seq<nat>, rest: seq<nat>, avg: nat, change: seq<nat>, j: nat)
    requires j <= |top|
    ensures multiset(Remains(top, rest, avg, change, j)) == multiset(top[..j] + change) + multiset(Evens(avg) + rest)
  {
  }

  lemma SplitTotals(top: seq<nat>, j: nat)
    requires j < |top|
    ensures Total(top) == Total(top[..j]) + Total(top[j..]) && Total(top) == top[0] + Total(top[1..])
    ensures Total(top[j..]) == top[j] + Total(top[j + 1..]) && (j > 0 ==> Total(top[..j]) >= top[0])
  {
    assert top == top[..j] + top[j..];
    TotalConcat(top[..j], top[j..]);
    assert top[j..][1..] == top[j + 1..];
  }

  lemma AverageBounds(fee: nat, top: seq<nat>)
    requires 0 < |top| <= MAX_OUTPUTS && Descending(top) && fee <= Total(top)
    ensures var avg, change := Average(Total(top), fee), Change(Total(top), fee);
            avg <= change <= avg + 15 && avg <= top[0]
  {
    TotalAtMost(top, top[0]);
    Times(|top|, 16, top[0]);
  }

  /** How the inputs that stay unspent and the change compare. */
  lemma AmountsLeft(fee: nat, top: seq<nat>, j: nat)
    requires fee <= Total(top) && Spends(top, Outlay(Total(top), fee), j)
    ensures var change, left := Change(Total(top), fee), Total(top[j..]) - Outlay(Total(top), fee);
            && Total(top[..j]) + left == change && left < top[j] && (j == 0 <==> top[0] > change)
  {
    SplitTotals(top, j);
    assert Change(Total(top), fee) == Total(top) - Outlay(Total(top), fee);
  }

  lemma FewTotal(top: seq<nat>, j: nat, left: nat)
    requires j <= |top|
    ensures Total(top[..j] + KeptChange(left, 0)) == Total(top[..j]) + left
  {
    TotalConcat(top[..j], KeptChange(left, 0));
    assert Total([left]) == left;
  }

  /** The largest coin after landing, with a target of zero: the change, or the largest input if it stays unspent. */
  lemma FirstAfter(top: seq<nat>, j: nat, left: nat, change: nat)
    requires Descending(top) && j < |top| && left < top[j] && (j == 0 <==> top[0] > change)
    requires change > 0 && Total(top[..j]) + left == change
    ensures var few := top[..j] + KeptChange(left, 0);
            Min(top[0], change) in few && forall i :: 0 <= i < |few| ==> few[i] <= Min(top[0], change)
  {
    var few := top[..j] + KeptChange(left, 0);
    if j == 0 {
      assert few == [left];
    } else {
      assert few[0] == top[0];
    }
  }

  lemma TestAfter(fee: nat, after: seq<nat>, avg: nat)
    requires Descending(after) && |after| >= MAX_OUTPUTS && after[MAX_OUTPUTS - 1] == avg >= fee
    ensures Rebalances(0, fee, Top(after)) <==> after[0] > 2 * avg
  {
    var top := Top(after);
    TotalAtLeast(top[1..], avg);
    assert Total(top) >= after[0] + 15 * avg;
  }

  /** The largest coin and the sixteenth, with everything known about the amounts. */
  lemma ZeroTop(top: seq<nat>, rest: seq<nat>, avg: nat, change: nat, left: nat, j: nat, after: seq<nat>)
    requires Descending(top) && j < |top| && left < top[j] && (j == 0 <==> top[0] > change) && Total(top[..j]) + left == change
    requires 1 <= avg <= change <= avg + 15 && avg <= top[0] && forall i :: 0 <= i < |rest| ==> rest[i] <= avg
    requires Descending(after) && SameCoins(after, Remains(top, rest, avg, KeptChange(left, 0), j))
    ensures |after| >= MAX_OUTPUTS && after[0] == Min(top[0], change) && after[MAX_OUTPUTS - 1] == avg
  {
    var remains := Remains(top, rest, avg, KeptChange(left, 0), j);
    FewTotal(top, j, left);
    FirstAfter(top, j, left, change);
    RemainsFew(top, rest, avg, KeptChange(left, 0), j);
    SameCoinsIs(after, remains);
    TopAfter(after, Min(top[0], change), top[..j] + KeptChange(left, 0), avg, rest, remains);
  }

  lemma TopAfterLanding(fee: nat, utxos: seq<nat>, after: seq<nat>, j: nat)
    requires Descending(utxos) && Rebalances(0, fee, Top(utxos)) && LandedFrom(0, fee, utxos, after, j)
    ensures var top := Top(utxos);
            && |after| >= MAX_OUTPUTS && after[0] == Min(top[0], Change(Total(top), fee))
            && after[MAX_OUTPUTS - 1] == Average(Total(top), fee)
  {
    var top := Top(utxos);
    var total := Total(top);
    AmountsLeft(fee, top, j);
    AverageBounds(fee, top);
    AverageAboveRest(0, fee, utxos);
    ZeroTop(top, Rest(utxos), Average(total, fee), Change(total, fee), Total(top[j..]) - Outlay(total, fee), j, after);
  }

  lemma ZeroTargetIff(fee: nat, utxos: seq<nat>, after: seq<nat>, j: nat)
    requires Descending(utxos) && Rebalances(0, fee, Top(utxos)) && LandedFrom(0, fee, utxos, after, j)
    ensures var top := Top(utxos);
            Rebalances(0, fee, Top(after)) <==> Min(top[0], Change(Total(top), fee)) > 2 * Average(Total(top), fee)
  {
    TopAfterLanding(fee, utxos, after, j);
    TestAfter(fee, after, Average(Total(Top(utxos)), fee));
  }

  /** Whatever inputs selection spends, the test holds again after landing exactly when the target is zero and both the
      largest listed input and the change exceed twice the average. */
  lemma RepeatsIff(target: nat, fee: nat, utxos: seq<nat>, after: seq<nat>, j: nat)
    requires Descending(utxos) && Rebalances(target, fee, Top(utxos)) && LandedFrom(target, fee, utxos, after, j)
    ensures var top := Top(utxos);
            Rebalances(target, fee, Top(after)) <==>
            target == 0 && Min(top[0], Change(Total(top), fee)) > 2 * Average(Total(top), fee)
  {
    if target == 0 {
      ZeroTargetIff(fee, utxos, after, j);
    } else {
      RebalancingSettlesAsSpent(target, fee, utxos, after, j);
    }
  }

  /** Such a repetition: one coin of 32 and a fee of 1 give a coin of 16 and fifteen of 1, which are rebalanced again. */
  lemma ZeroTargetRepeats(after: seq<nat>)
    requires after == [16] + Evens(1)
    ensures Rebalances(0, 1, Top([32])) && LandedFrom(0, 1, [32], after, 0) && Rebalances(0, 1, Top(after))
  {
    OneCoinLands([32], after);
    assert after[1..] == Evens(1);
    TotalConstant(15, 1);
  }

  lemma OneCoinLands(utxos: seq<nat>, after: seq<nat>)
    requires utxos == [32] && after == [16] + Evens(1)
    ensures Rebalances(0, 1, Top(utxos)) && Total(Top(utxos)) == 32 && LandedFrom(0, 1, utxos, after, 0)
  {
    assert utxos[0..] == utxos && utxos[1..] == [];
    assert Total(utxos) == 32;
    RemainsAllSpent(utxos, [], 1, 16);
    SameCoinsIs(after, Remains(utxos, [], 1, [16], 0));
  }

  /** Without a fee it never ends: selection takes the fifteen even coins and the transaction puts them back. */
  lemma ZeroFeeForever(avg: nat, r: nat, utxos: seq<nat>)
    requires 1 <= avg < r <= 15 && utxos == [avg + r] + Evens(avg)
    ensures Rebalances(0, 0, Top(utxos)) && LandedFrom(0, 0, utxos, utxos, 1)
  {
    assert utxos[1..] == Evens(avg) && utxos[2..] == seq(14, _ => avg);
    TotalConstant(15, avg);
    TotalConstant(14, avg);
    assert Total(utxos) == 16 * avg + r;
    assert Average(16 * avg + r, 0) == avg;
    RemainsOneUnspent(utxos, [], avg, []);
    SameCoinsIs(utxos, Remains(utxos, [], avg, [], 1));
  }

  lemma {:induction false} TotalPermuted(a: seq<nat>, b: seq<nat>)
    requires multiset(a) == multiset(b)
    ensures Total(a) == Total(b)
    decreases |a|
  {
    if a == [] {
      assert |b| == |multiset(b)| == |multiset(a)| == 0;
    } else {
      assert a[0] in multiset(b);
      var i :| 0 <= i < |b| && b[i] == a[0];
      TotalWithout(b, i);
      WithoutContents(b, i);
      TailContents(a);
      TotalPermuted(a[1..], b[..i] + b[i + 1..]);
    }
  }

  lemma RemainsTotal(top: seq<nat>, rest: seq<nat>, avg: nat, change: seq<nat>, j: nat)
    requires j <= |top|
    ensures Total(Remains(top, rest, avg, change, j)) == Total(top[..j]) + 15 * avg + Total(change) + Total(rest)
  {
    TotalConcat(top[..j] + Evens(avg) + change, rest);
    TotalConcat(top[..j] + Evens(avg), change);
    TotalConcat(top[..j], Evens(avg));
    TotalConstant(15, avg);
  }

  lemma RemainsCosts(top: seq<nat>, rest: seq<nat>, avg: nat, change: seq<nat>, j: nat, fee: nat)
    requires j <= |top| && Total(change) + 15 * avg + fee <= Total(top[j..])
    ensures Total(Remains(top, rest, avg, change, j)) + fee <= Total(top + rest)
  {
    RemainsTotal(top, rest, avg, change, j);
    assert top == top[..j] + top[j..];
    TotalConcat(top[..j], top[j..]);
    TotalConcat(top, rest);
  }

  /** Every transaction that lands costs the fee. */
  lemma LandingCosts(target: nat, fee: nat, utxos: seq<nat>, after: seq<nat>, j: nat)
    requires fee <= Total(Top(utxos)) && LandedFrom(target, fee, utxos, after, j)
    ensures Total(after) + fee <= Total(utxos)
  {
    var top, rest := Top(utxos), Rest(utxos);
    var avg := Average(Total(top), fee);
    var change := KeptChange(Total(top[j..]) - Outlay(Total(top), fee), target);
    SameCoinsIs(after, Remains(top, rest, avg, change, j));
    TotalPermuted(after, Remains(top, rest, avg, change, j));
    RemainsCosts(top, rest, avg, change, j, fee);
    assert utxos == top + rest;
  }

  ghost predicate LandsNext(target: nat, fee: nat, utxos: seq<nat>, after: seq<nat>) {
    fee <= Total(Top(utxos)) && exists j: nat :: LandedFrom(target, fee, utxos, after, j)
  }

  lemma NextCosts(target: nat, fee: nat, utxos: seq<nat>, after: seq<nat>)
    requires LandsNext(target, fee, utxos, after)
    ensures Total(after) + fee <= Total(utxos)
  {
    var j: nat :| LandedFrom(target, fee, utxos, after, j);
    LandingCosts(target, fee, utxos, after, j);
  }

  /** Each list of coins is what a transaction from the one before it leaves. */
  ghost predicate Chain(target: nat, fee: nat, lists: seq<seq<nat>>) {
    |lists| <= 1 || (LandsNext(target, fee, lists[0], lists[1]) && Chain(target, fee, lists[1..]))
  }

  /** So the number of rebalancing transactions in a row is bounded by what the coins are worth in fees. */
  lemma {:induction false} FeesBoundRepeats(target: nat, fee: nat, lists: seq<seq<nat>>)
    requires lists != [] && Chain(target, fee, lists)
    ensures (|lists| - 1) * fee <= Total(lists[0])
  {
    if |lists| > 1 {
      FeesBoundRepeats(target, fee, lists[1..]);
      NextCosts(target, fee, lists[0], lists[1]);
      assert (|lists| - 1) * fee == (|lists[1..]| - 1) * fee + fee;
    }
  }
}
