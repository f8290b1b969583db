// Coin selection for payments: the smallest sufficient coins under an input
// cap, and the coins worth merging into the largest one.

module Selection {
  import opened Common
  import opened Wallet

  const MAX_INPUTS: nat := 16

  datatype SelectError = InsufficientFunds | InsufficientFundsFragmentedUtxos | InvalidArgument | OptimizationNotBeneficial

  function Sum(us: seq<UnspentTxOut>): nat {
    if us == [] then 0 else us[0].value + Sum(us[1..])
  }

  function OfToken(us: seq<UnspentTxOut>, token: TokenId): seq<UnspentTxOut> {
    if us == [] then []
    else if us[0].tokenId == token then [us[0]] + OfToken(us[1..], token)
    else OfToken(us[1..], token)
  }

  ghost predicate Ascending(us: seq<UnspentTxOut>) {
    forall i, j :: 0 <= i < j < |us| ==> us[i].value <= us[j].value
  }

  ghost predicate Descending(us: seq<UnspentTxOut>) {
    forall i, j :: 0 <= i < j < |us| ==> us[i].value >= us[j].value
  }

  /** Some of the coins, at most `cap` of them. */
  ghost predicate Choice(us: seq<UnspentTxOut>, chosen: seq<UnspentTxOut>, cap: nat) {
    multiset(chosen) <= multiset(us) && |chosen| <= cap
  }

  // ---- Sums ----

  lemma {:induction false} SumConcat(a: seq<UnspentTxOut>, b: seq<UnspentTxOut>)
    ensures Sum(a + b) == Sum(a) + Sum(b)
  {
    if a == [] {
      assert a + b == b;
    } else {
      assert (a + b)[1..] == a[1..] + b;
      SumConcat(a[1..], b);
    }
  }

  lemma MultisetSplit<T>(s: seq<T>, at: nat)
    requires at < |s|
    ensures multiset(s) == multiset{s[at]} + multiset(s[..at] + s[at + 1..])
  {
    assert s == s[..at] + [s[at]] + s[at + 1..];
  }

  lemma MultisetCancel<T>(x: T, a: multiset<T>, b: multiset<T>)
    requires multiset{x} + a <= multiset{x} + b
    ensures a <= b
  {
    forall y
      ensures a[y] <= b[y]
    {
      assert (multiset{x} + a)[y] <= (multiset{x} + b)[y];
    }
  }

  /** Leaving out a coin that was not chosen. */
  lemma MultisetSkip<T>(x: T, a: multiset<T>, b: multiset<T>)
    requires a <= multiset{x} + b && x !in a
    ensures a <= b
  {
    forall y
      ensures a[y] <= b[y]
    {
      assert a[y] <= (multiset{x} + b)[y];
    }
  }

  /** Taking one coin out of a list. */
  lemma SumWithout(us: seq<UnspentTxOut>, at: nat)
    requires at < |us|
    ensures Sum(us) == us[at].value + Sum(us[..at] + us[at + 1..])
  {
    var before, x, after := us[..at], [us[at]], us[at + 1..];
    assert us == before + (x + after);
    SumConcat(before, x + after);
    SumConcat(x, after);
    SumConcat(before, after);
  }

  /** A part of the coins is worth no more than all of them. */
  lemma {:induction false} SumPart(part: seq<UnspentTxOut>, us: seq<UnspentTxOut>)
    requires multiset(part) <= multiset(us)
    ensures Sum(part) <= Sum(us)
    decreases |part|
  {
    if part != [] {
      var x := part[0];
      assert x in multiset(part);
      var at :| 0 <= at < |us| && us[at] == x;
      SumWithout(us, at);
      MultisetSplit(us, at);
      MultisetSplit(part, 0);
      assert part[..0] + part[1..] == part[1..];
      MultisetCancel(x, multiset(part[1..]), multiset(us[..at] + us[at + 1..]));
      SumPart(part[1..], us[..at] + us[at + 1..]);
    }
  }

  // ---- Sorting ----

  function InsertAscending(u: UnspentTxOut, us: seq<UnspentTxOut>): seq<UnspentTxOut> {
    if us == [] || u.value <= us[0].value then [u] + us else [us[0]] + InsertAscending(u, us[1..])
  }

  /** A stable sort by value, smallest first. */
  function SortAscending(us: seq<UnspentTxOut>): seq<UnspentTxOut> {
    if us == [] then [] else InsertAscending(us[0], SortAscending(us[1..]))
  }

  function InsertDescending(u: UnspentTxOut, us: seq<UnspentTxOut>): seq<UnspentTxOut> {
    if us == [] || u.value >= us[0].value then [u] + us else [us[0]] + InsertDescending(u, us[1..])
  }

  /** A stable sort by value, largest first. */
  function SortDescending(us: seq<UnspentTxOut>): seq<UnspentTxOut> {
    if us == [] then [] else InsertDescending(us[0], SortDescending(us[1..]))
  }

  lemma {:induction false} InsertAscendingContents(u: UnspentTxOut, us: seq<UnspentTxOut>)
    ensures multiset(InsertAscending(u, us)) == multiset{u} + multiset(us)
    ensures |InsertAscending(u, us)| == |us| + 1
    ensures forall x :: x in InsertAscending(u, us) ==> x == u || x in us
  {
    if us == [] || u.value <= us[0].value {
    } else {
      assert us == [us[0]] + us[1..];
      InsertAscendingContents(u, us[1..]);
    }
  }

  lemma {:induction false} InsertAscendingSorts(u: UnspentTxOut, us: seq<UnspentTxOut>)
    requires Ascending(us)
    ensures Ascending(InsertAscending(u, us))
  {
    if us == [] || u.value <= us[0].value {
    } else {
      InsertAscendingSorts(u, us[1..]);
      InsertAscendingContents(u, us[1..]);
      var rest := InsertAscending(u, us[1..]);
      assert forall j :: 0 <= j < |rest| ==> rest[j] in rest;
      assert forall j :: 0 <= j < |rest| ==> us[0].value <= rest[j].value;
    }
  }

  lemma {:induction false} SortAscendingSorts(us: seq<UnspentTxOut>)
    ensures Ascending(SortAscending(us))
    ensures multiset(SortAscending(us)) == multiset(us)
    ensures |SortAscending(us)| == |us|
  {
    if us != [] {
      assert us == [us[0]] + us[1..];
      SortAscendingSorts(us[1..]);
      InsertAscendingSorts(us[0], SortAscending(us[1..]));
      InsertAscendingContents(us[0], SortAscending(us[1..]));
    }
  }

  lemma {:induction false} InsertDescendingContents(u: UnspentTxOut, us: seq<UnspentTxOut>)
    ensures multiset(InsertDescending(u, us)) == multiset{u} + multiset(us)
    ensures forall x :: x in InsertDescending(u, us) ==> x == u || x in us
  {
    if us == [] || u.value >= us[0].value {
    } else {
      assert us == [us[0]] + us[1..];
      InsertDescendingContents(u, us[1..]);
    }
  }

  lemma {:induction false} InsertDescendingSorts(u: UnspentTxOut, us: seq<UnspentTxOut>)
    requires Descending(us)
    ensures Descending(InsertDescending(u, us))
  {
    if us == [] || u.value >= us[0].value {
    } else {
      InsertDescendingSorts(u, us[1..]);
      InsertDescendingContents(u, us[1..]);
      var rest := InsertDescending(u, us[1..]);
      assert forall j :: 0 <= j < |rest| ==> rest[j] in rest;
      assert forall j :: 0 <= j < |rest| ==> us[0].value >= rest[j].value;
    }
  }

  lemma {:induction false} SortDescendingSorts(us: seq<UnspentTxOut>)
    ensures Descending(SortDescending(us))
    ensures multiset(SortDescending(us)) == multiset(us)
  {
    if us != [] {
      assert us == [us[0]] + us[1..];
      SortDescendingSorts(us[1..]);
      InsertDescendingSorts(us[0], SortDescending(us[1..]));
      InsertDescendingContents(us[0], SortDescending(us[1..]));
    }
  }

  function Reversed(us: seq<UnspentTxOut>): seq<UnspentTxOut> {
    seq(|us|, i requires 0 <= i < |us| => us[|us| - 1 - i])
  }

  lemma {:induction false} ReversedContents(us: seq<UnspentTxOut>)
    ensures multiset(Reversed(us)) == multiset(us)
  {
    if us != [] {
      ReversedContents(us[1..]);
      assert Reversed(us) == Reversed(us[1..]) + [us[0]];
      assert us == [us[0]] + us[1..];
    }
  }

  // ---- What a window of the largest coins is worth ----

  /** The up to `cap` largest of the first k coins of an ascending list. */
  function Window(us: seq<UnspentTxOut>, k: nat, cap: nat): seq<UnspentTxOut>
    requires k <= |us|
  {
    us[Max(0, k - cap)..k]
  }

  /** Moving the window up never makes it worth less. */
  lemma WindowGrows(us: seq<UnspentTxOut>, k: nat, cap: nat)
    requires Ascending(us) && k < |us|
    ensures Sum(Window(us, k, cap)) <= Sum(Window(us, k + 1, cap))
    ensures cap > 0 ==> Sum(Window(us, k + 1, cap)) == us[k].value + Sum(Window(us, k, cap - 1))
  {
    if cap > 0 {
      var lower := Window(us, k, cap - 1);
      assert Window(us, k + 1, cap) == lower + [us[k]];
      SumConcat(lower, [us[k]]);
      if k >= cap {
        var lo := k - cap;
        assert Window(us, k, cap) == [us[lo]] + lower;
      }
    }
  }

  /** A choice that has the largest coin is that coin and a smaller choice. */
  lemma ChoiceTakesTop(us: seq<UnspentTxOut>, k: nat, cap: nat, chosen: seq<UnspentTxOut>) returns (rest: seq<UnspentTxOut>)
    requires 0 < k <= |us| && us[k - 1] in chosen
    requires Choice(us[..k], chosen, cap)
    ensures cap > 0 && Choice(us[..k - 1], rest, cap - 1)
    ensures Sum(chosen) == us[k - 1].value + Sum(rest)
  {
    var at :| 0 <= at < |chosen| && chosen[at] == us[k - 1];
    rest := chosen[..at] + chosen[at + 1..];
    assert us[..k] == us[..k - 1] + [us[k - 1]];
    SumWithout(chosen, at);
    MultisetSplit(chosen, at);
    MultisetCancel(us[k - 1], multiset(rest), multiset(us[..k - 1]));
  }

  lemma ChoiceNeedsCoins(us: seq<UnspentTxOut>, k: nat, cap: nat, chosen: seq<UnspentTxOut>)
    requires k <= |us| && chosen != [] && Choice(us[..k], chosen, cap)
    ensures k > 0
  {
    assert chosen[0] in multiset(us[..k]);
  }

  lemma ChoiceSkipsTop(us: seq<UnspentTxOut>, k: nat, cap: nat, chosen: seq<UnspentTxOut>)
    requires 0 < k <= |us| && us[k - 1] !in chosen
    requires Choice(us[..k], chosen, cap)
    ensures Choice(us[..k - 1], chosen, cap)
  {
    assert us[..k] == us[..k - 1] + [us[k - 1]];
    MultisetSkip(us[k - 1], multiset(chosen), multiset(us[..k - 1]));
  }

  /** No choice of at most `cap` among the first k coins is worth more than the window. */
  lemma {:induction false} WindowIsBest(us: seq<UnspentTxOut>, k: nat, cap: nat, chosen: seq<UnspentTxOut>)
    requires Ascending(us) && k <= |us|
    requires Choice(us[..k], chosen, cap)
    ensures Sum(chosen) <= Sum(Window(us, k, cap))
    decreases k
  {
    if chosen != [] {
      ChoiceNeedsCoins(us, k, cap, chosen);
      WindowGrows(us, k - 1, cap);
      if us[k - 1] in chosen {
        var rest := ChoiceTakesTop(us, k, cap, chosen);
        WindowIsBest(us, k - 1, cap - 1, rest);
      } else {
        ChoiceSkipsTop(us, k, cap, chosen);
        WindowIsBest(us, k - 1, cap, chosen);
      }
    }
  }

  // ---- select_utxos_for_value ----

  /** Enough coins within the cap. */
  ghost predicate Sufficient(us: seq<UnspentTxOut>, chosen: seq<UnspentTxOut>, value: nat, cap: nat) {
    Choice(us, chosen, cap) && Sum(chosen) >= value
  }

  /** Some coin of `other` is at least as large as every coin of `chosen`. */
  ghost predicate NoLargerThan(chosen: seq<UnspentTxOut>, other: seq<UnspentTxOut>) {
    exists t :: t in other && forall u :: u in chosen ==> u.value <= t.value
  }

  lemma WindowIsChoice(us: seq<UnspentTxOut>, k: nat, cap: nat)
    requires k <= |us|
    ensures Choice(us, Window(us, k, cap), cap)
  {
    var lo := Max(0, k - cap);
    assert us == us[..lo] + us[lo..k] + us[k..];
  }

  /** The whole window decides whether the value can be reached at all. */
  lemma ReachableIffTop(us: seq<UnspentTxOut>, value: nat, cap: nat)
    requires Ascending(us)
    ensures (exists chosen :: Sufficient(us, chosen, value, cap)) <==> Sum(Window(us, |us|, cap)) >= value
  {
    assert us[..|us|] == us;
    WindowIsChoice(us, |us|, cap);
    if Sum(Window(us, |us|, cap)) >= value {
      assert Sufficient(us, Window(us, |us|, cap), value, cap);
    }
    forall chosen | Sufficient(us, chosen, value, cap)
      ensures Sum(Window(us, |us|, cap)) >= value
    {
      WindowIsBest(us, |us|, cap, chosen);
    }
  }

  /** Coins all smaller than us[k] come from the first k. */
  lemma SmallerComeFirst(us: seq<UnspentTxOut>, k: nat, cap: nat, chosen: seq<UnspentTxOut>)
    requires Ascending(us) && k < |us| && Choice(us, chosen, cap)
    requires forall t :: t in chosen ==> t.value < us[k].value
    ensures Choice(us[..k], chosen, cap)
  {
    assert us == us[..k] + us[k..];
    forall t
      ensures multiset(chosen)[t] <= multiset(us[..k])[t]
    {
      if t in multiset(chosen) {
        assert t in chosen;
        assert t !in us[k..];
        assert multiset(us)[t] == multiset(us[..k])[t] + multiset(us[k..])[t];
      }
    }
  }

  /** The first window that suffices has the smallest possible largest coin. */
  lemma FirstWindowIsMinMax(us: seq<UnspentTxOut>, k: nat, value: nat, cap: nat, other: seq<UnspentTxOut>)
    requires Ascending(us) && k < |us|
    requires Sum(Window(us, k, cap)) < value
    requires Sufficient(us, other, value, cap)
    ensures NoLargerThan(Window(us, k + 1, cap), other)
  {
    if forall t :: t in other ==> t.value < us[k].value {
      SmallerComeFirst(us, k, cap, other);
      WindowIsBest(us, k, cap, other);
      assert false;
    } else {
      var t :| t in other && t.value >= us[k].value;
      forall u | u in Window(us, k + 1, cap)
        ensures u.value <= t.value
      {
        var i :| 0 <= i <= k && us[i] == u;
      }
    }
  }

  /** One more coin; past the cap the smallest is removed. */
  function Pushed(selected: seq<UnspentTxOut>, next: UnspentTxOut, cap: nat): seq<UnspentTxOut> {
    var longer := selected + [next];
    if |longer| > cap then longer[1..] else longer
  }

  lemma WindowStep(us: seq<UnspentTxOut>, k: nat, cap: nat)
    requires k < |us|
    ensures Window(us, k + 1, cap) == Pushed(Window(us, k, cap), us[k], cap)
  {
    var lo := Max(0, k - cap);
    var longer := us[lo..k] + [us[k]];
    assert longer == us[lo..k + 1];
    if k >= cap {
      assert us[lo..k + 1][1..] == us[lo + 1..k + 1];
    }
  }

  /** What is sorted, and what it is worth: the ascending view of the descending vector. */
  lemma SortedView(own: seq<UnspentTxOut>)
    ensures var sorted := SortDescending(own);
            var us := Reversed(sorted);
            Ascending(us) && multiset(us) == multiset(own)
  {
    SortDescendingSorts(own);
    ReversedContents(SortDescending(own));
  }

  lemma SumPermuted(a: seq<UnspentTxOut>, b: seq<UnspentTxOut>)
    requires multiset(a) == multiset(b)
    ensures Sum(a) == Sum(b)
  {
    SumPart(a, b);
    SumPart(b, a);
  }

  lemma NextPopped(sorted: seq<UnspentTxOut>, popped: nat)
    requires popped < |sorted|
    ensures var left := sorted[..|sorted| - popped];
            left[|left| - 1] == Reversed(sorted)[popped] && left[..|left| - 1] == sorted[..|sorted| - popped - 1]
  {
  }

  /** Popping the sorted vector from its small end, keeping at most `cap` selected. */
  method PopUntil(sortedUtxos: seq<UnspentTxOut>, ghost us: seq<UnspentTxOut>, value: nat, cap: nat)
    returns (r: Result<seq<UnspentTxOut>, SelectError>, ghost k: nat)
    requires us == Reversed(sortedUtxos)
    requires 0 < value <= Sum(Window(us, |us|, cap)) && Sum(us) < TWO64
    ensures r.Ok? && k < |us| && r.value == Window(us, k + 1, cap)
    ensures Sum(r.value) >= value && Sum(Window(us, k, cap)) < value
  {
    var sorted := sortedUtxos;
    var selected: seq<UnspentTxOut> := [];
    ghost var popped := 0;
    k := 0;
    while true
      invariant popped <= |us| && sorted == sortedUtxos[..|us| - popped]
      invariant selected == Window(us, popped, cap)
      invariant popped > 0 ==> k == popped - 1 && Sum(Window(us, k, cap)) < value
      decreases |sorted|
    {
      SumsFit(us, popped, cap);
      var total: U64 := Sum(selected);
      if total >= value {
        break;
      }
      if sorted == [] {
        r := Err(InsufficientFunds);
        return;
      }
      var next := sorted[|sorted| - 1];
      NextPopped(sortedUtxos, popped);
      WindowStep(us, popped, cap);
      sorted := sorted[..|sorted| - 1];
      selected := Pushed(selected, next, cap);
      k := popped;
      popped := popped + 1;
    }
    assert selected != [];
    assert |selected| <= cap;
    return Ok(selected), k;
  }

  /** The selected window is a sufficient choice with the smallest largest coin. */
  lemma WindowSelected(own: seq<UnspentTxOut>, us: seq<UnspentTxOut>, k: nat, value: nat, cap: nat)
    requires Ascending(us) && multiset(us) == multiset(own) && k < |us|
    requires Sum(Window(us, k, cap)) < value <= Sum(Window(us, k + 1, cap))
    ensures Sufficient(own, Window(us, k + 1, cap), value, cap)
    ensures forall chosen :: Sufficient(own, chosen, value, cap) ==> NoLargerThan(Window(us, k + 1, cap), chosen)
  {
    WindowIsChoice(us, k + 1, cap);
    forall chosen | Sufficient(own, chosen, value, cap)
      ensures NoLargerThan(Window(us, k + 1, cap), chosen)
    {
      FirstWindowIsMinMax(us, k, value, cap, chosen);
    }
  }

  lemma ReachableOwn(own: seq<UnspentTxOut>, us: seq<UnspentTxOut>, value: nat, cap: nat)
    requires Ascending(us) && multiset(us) == multiset(own)
    ensures (exists chosen :: Sufficient(own, chosen, value, cap)) <==> Sum(Window(us, |us|, cap)) >= value
  {
    ReachableIffTop(us, value, cap);
    assert forall chosen :: Sufficient(own, chosen, value, cap) <==> Sufficient(us, chosen, value, cap);
  }

  // ---- Which coins are selected ----

  /** The window that ends at k is the last one short of the value. */
  ghost predicate LastShort(us: seq<UnspentTxOut>, k: nat, value: nat, cap: nat) {
    k < |us| && Sum(Window(us, k, cap)) < value <= Sum(Window(us, k + 1, cap))
  }

  /** Where the first window that reaches the value ends, from k on; |us| if none does. */
  function FirstEnd(us: seq<UnspentTxOut>, value: nat, cap: nat, k: nat): (end: nat)
    requires k <= |us|
    ensures k <= end <= |us|
    decreases |us| - k
  {
    if k == |us| || Sum(Window(us, k, cap)) >= value then k else FirstEnd(us, value, cap, k + 1)
  }

  /** The coins selected for a value: smallest first, the first window that reaches it. */
  function Picked(own: seq<UnspentTxOut>, value: nat, cap: nat): seq<UnspentTxOut> {
    var us := Reversed(SortDescending(own));
    Window(us, FirstEnd(us, value, cap, 0), cap)
  }

  lemma {:induction false} WindowsGrow(us: seq<UnspentTxOut>, j: nat, k: nat, cap: nat)
    requires Ascending(us) && j <= k <= |us|
    ensures Sum(Window(us, j, cap)) <= Sum(Window(us, k, cap))
    decreases k - j
  {
    if j < k {
      WindowGrows(us, j, cap);
      WindowsGrow(us, j + 1, k, cap);
    }
  }

  lemma {:induction false} FirstEndIs(us: seq<UnspentTxOut>, value: nat, cap: nat, from: nat, k: nat)
    requires Ascending(us) && from <= k && LastShort(us, k, value, cap)
    ensures FirstEnd(us, value, cap, from) == k + 1
    decreases k - from
  {
    WindowsGrow(us, from, k, cap);
    if from < k {
      FirstEndIs(us, value, cap, from + 1, k);
    }
  }

  /** Some window is the last one short, as soon as the last window of all reaches the value. */
  lemma {:induction false} LastShortExists(us: seq<UnspentTxOut>, k: nat, value: nat, cap: nat) returns (j: nat)
    requires k <= |us| && 0 < value <= Sum(Window(us, k, cap))
    ensures LastShort(us, j, value, cap)
  {
    assert Window(us, 0, cap) == [];
    if Sum(Window(us, k - 1, cap)) < value {
      j := k - 1;
    } else {
      j := LastShortExists(us, k - 1, value, cap);
    }
  }

  /** Whenever the value can be reached at all, the coins picked reach it within the cap. */
  lemma PickedGood(own: seq<UnspentTxOut>, value: nat, cap: nat)
    requires value > 0 && exists chosen :: Sufficient(own, chosen, value, cap)
    ensures Sufficient(own, Picked(own, value, cap), value, cap)
  {
    var us := Reversed(SortDescending(own));
    SortedView(own);
    ReachableOwn(own, us, value, cap);
    FirstWindowSuffices(us, value, cap);
  }

  lemma FirstWindowSuffices(us: seq<UnspentTxOut>, value: nat, cap: nat)
    requires Ascending(us) && 0 < value <= Sum(Window(us, |us|, cap))
    ensures Sufficient(us, Window(us, FirstEnd(us, value, cap, 0), cap), value, cap)
  {
    var k := LastShortExists(us, |us|, value, cap);
    FirstEndIs(us, value, cap, 0, k);
    WindowIsChoice(us, k + 1, cap);
  }

  /** A list already in descending order is sorted as it is. */
  lemma {:induction false} SortedStays(us: seq<UnspentTxOut>)
    requires Descending(us)
    ensures SortDescending(us) == us
  {
    if us != [] {
      SortedStays(us[1..]);
      assert us == [us[0]] + us[1..];
    }
  }

  lemma ReversedAscends(own: seq<UnspentTxOut>)
    requires Descending(own)
    ensures Ascending(Reversed(own))
  {
  }

  /** As long as the cap is not reached, the picked coins are the smallest ones. */
  lemma PickedPrefix(own: seq<UnspentTxOut>, us: seq<UnspentTxOut>, k: nat, value: nat, cap: nat)
    requires Descending(own) && us == Reversed(own) && k < |us| && k + 1 <= cap
    requires Sum(us[..k]) < value <= Sum(us[..k + 1])
    ensures Picked(own, value, cap) == us[..k + 1]
  {
    SortedStays(own);
    ReversedAscends(own);
    assert Window(us, k, cap) == us[..k] && Window(us, k + 1, cap) == us[..k + 1];
    FirstEndIs(us, value, cap, 0, k);
  }

  /** How many of the smallest coins together reach the value. */
  function Fewest(own: seq<UnspentTxOut>, value: nat): nat {
    var us := Reversed(SortDescending(own));
    FirstEnd(us, value, |us|, 0)
  }

  /** If the first k coins are the last ones short of the value, k + 1 are taken, whatever the cap above that. */
  lemma PrefixEnd(us: seq<UnspentTxOut>, value: nat, cap: nat, k: nat)
    requires Ascending(us) && k < |us| && k < cap && Sum(us[..k]) < value <= Sum(us[..k + 1])
    ensures FirstEnd(us, value, cap, 0) == k + 1
  {
    assert Window(us, k, cap) == us[..k] && Window(us, k + 1, cap) == us[..k + 1];
    FirstEndIs(us, value, cap, 0, k);
  }

  lemma PrefixExists(us: seq<UnspentTxOut>, value: nat) returns (k: nat)
    requires 0 < value <= Sum(us)
    ensures k < |us| && Sum(us[..k]) < value <= Sum(us[..k + 1])
  {
    assert Window(us, |us|, |us|) == us;
    k := LastShortExists(us, |us|, value, |us|);
    assert Window(us, k, |us|) == us[..k] && Window(us, k + 1, |us|) == us[..k + 1];
  }

  /** Slots are left over exactly when the smallest coins that reach the value are fewer than the cap; they are then the
      coins picked. */
  lemma SlotsLeft(own: seq<UnspentTxOut>, value: nat, cap: nat)
    requires value > 0
    ensures (exists chosen :: Sufficient(own, chosen, value, cap)) && |Picked(own, value, cap)| < cap <==>
            Sum(own) >= value && Fewest(own, value) < cap
    ensures Sum(own) >= value && Fewest(own, value) < cap ==> |Picked(own, value, cap)| == Fewest(own, value)
  {
    var us := Reversed(SortDescending(own));
    SortedView(own);
    SumPermuted(us, own);
    ReachableOwn(own, us, value, cap);
    if Sum(own) >= value && Fewest(own, value) < cap {
      FewestPicked(own, us, value, cap);
    }
    if (exists chosen :: Sufficient(own, chosen, value, cap)) && |Picked(own, value, cap)| < cap {
      PickedFewest(own, us, value, cap);
    }
  }

  lemma FewestPicked(own: seq<UnspentTxOut>, us: seq<UnspentTxOut>, value: nat, cap: nat)
    requires us == Reversed(SortDescending(own)) && Ascending(us) && 0 < value <= Sum(us) && Fewest(own, value) < cap
    ensures |Picked(own, value, cap)| == Fewest(own, value) && Sum(Window(us, |us|, cap)) >= value
  {
    var k := PrefixExists(us, value);
    PrefixEnd(us, value, |us|, k);
    PrefixEnd(us, value, cap, k);
    assert Window(us, k + 1, cap) == us[..k + 1];
    WindowsGrow(us, k + 1, |us|, cap);
  }

  lemma PickedFewest(own: seq<UnspentTxOut>, us: seq<UnspentTxOut>, value: nat, cap: nat)
    requires us == Reversed(SortDescending(own)) && Ascending(us) && 0 < value <= Sum(Window(us, |us|, cap))
    requires |Picked(own, value, cap)| < cap
    ensures Sum(us) >= value && Fewest(own, value) < cap
  {
    var k := LastShortExists(us, |us|, value, cap);
    FirstEndIs(us, value, cap, 0, k);
    EndBelowCap(us, value, cap, k);
  }

  lemma EndBelowCap(us: seq<UnspentTxOut>, value: nat, cap: nat, k: nat)
    requires Ascending(us) && LastShort(us, k, value, cap) && k + 1 < cap
    ensures Sum(us) >= value && FirstEnd(us, value, |us|, 0) == k + 1
  {
    assert Window(us, k, cap) == us[..k] && Window(us, k + 1, cap) == us[..k + 1];
    PrefixEnd(us, value, |us|, k);
    assert us == us[..k + 1] + us[k + 1..];
    SumConcat(us[..k + 1], us[k + 1..]);
  }

  /** Every sum the selection computes fits the machine word, because the coins together do. */
  lemma SumsFit(us: seq<UnspentTxOut>, k: nat, cap: nat)
    requires k <= |us| && Sum(us) < TWO64
    ensures Sum(Window(us, k, cap)) < TWO64
  {
    WindowIsChoice(us, k, cap);
    SumPart(Window(us, k, cap), us);
  }

  /** Succeeds exactly when some choice within the cap suffices; the result then has the smallest
      largest coin of all such choices.  The two errors tell whether merging could help. */
  method SelectUtxosForValue(token: TokenId, utxos: seq<UnspentTxOut>, value: U64, maxInputs: nat)
    returns (r: Result<seq<UnspentTxOut>, SelectError>)
    requires value > 0
    requires Sum(OfToken(utxos, token)) < TWO64
    ensures r.Ok? <==> exists chosen :: Sufficient(OfToken(utxos, token), chosen, value, maxInputs)
    ensures r.Ok? ==> Sufficient(OfToken(utxos, token), r.value, value, maxInputs) && r.value != []
    ensures r.Ok? ==> forall chosen :: Sufficient(OfToken(utxos, token), chosen, value, maxInputs) ==> NoLargerThan(r.value, chosen)
    ensures r.Ok? ==> r.value == Picked(OfToken(utxos, token), value, maxInputs)
    ensures r.Err? ==> r.error == if Sum(OfToken(utxos, token)) >= value then InsufficientFundsFragmentedUtxos else InsufficientFunds
  {
    var own := OfToken(utxos, token);
    var sortedUtxos := SortDescending(own);
    ghost var us := Reversed(sortedUtxos);
    SortedView(own);
    ReachableOwn(own, us, value, maxInputs);
    TopOfSorted(sortedUtxos, maxInputs);
    var maxSpendable := Sum(Take(sortedUtxos, maxInputs));
    if value > maxSpendable {
      SortDescendingSorts(own);
      SumPermuted(sortedUtxos, own);
      if Sum(sortedUtxos) >= value {
        return Err(InsufficientFundsFragmentedUtxos);
      } else {
        return Err(InsufficientFunds);
      }
    }
    SumPermuted(us, own);
    ghost var k;
    r, k := PopUntil(sortedUtxos, us, value, maxInputs);
    WindowSelected(own, us, k, value, maxInputs);
    FirstEndIs(us, value, maxInputs, 0, k);
  }

  /** The first `cap` of the descending vector are worth the last window of the ascending one. */
  lemma TopOfSorted(sorted: seq<UnspentTxOut>, cap: nat)
    ensures Sum(Take(sorted, cap)) == Sum(Window(Reversed(sorted), |Reversed(sorted)|, cap))
  {
    ReversedTaken(sorted, cap);
    ReversedContents(Take(sorted, cap));
    SumPermuted(Take(sorted, cap), Reversed(Take(sorted, cap)));
  }

  lemma ReversedTaken(sorted: seq<UnspentTxOut>, cap: nat)
    ensures Reversed(Take(sorted, cap)) == Window(Reversed(sorted), |Reversed(sorted)|, cap)
  {
  }

  // ---- select_utxos_for_optimization ----

  function Spendable(us: seq<UnspentTxOut>, numBlocks: nat): seq<UnspentTxOut> {
    if us == [] then []
    else if numBlocks >= us[0].attemptedSpendTombstone then [us[0]] + Spendable(us[1..], numBlocks)
    else Spendable(us[1..], numBlocks)
  }

  /** Exactly the coins that are not pending any more. */
  lemma {:induction false} SpendableAre(us: seq<UnspentTxOut>, numBlocks: nat, u: UnspentTxOut)
    ensures multiset(Spendable(us, numBlocks))[u] == if numBlocks >= u.attemptedSpendTombstone then multiset(us)[u] else 0
  {
    if us != [] {
      assert us == [us[0]] + us[1..];
      SpendableAre(us[1..], numBlocks, u);
    }
  }

  /** The i-th run of `width` consecutive coins of an ascending list. */
  function Slot(us: seq<UnspentTxOut>, i: nat, width: nat): seq<UnspentTxOut>
    requires i + width <= |us|
  {
    us[i..i + width]
  }

  /** The slot at j pays for the fee and no lower slot does. */
  ghost predicate LowestPaying(us: seq<UnspentTxOut>, j: nat, width: nat, fee: nat) {
    && j + width <= |us|
    && Sum(Slot(us, j, width)) > fee
    && forall i: nat :: i < j ==> Sum(Slot(us, i, width)) <= fee
  }

  /** Slots further up are worth at least as much. */
  lemma SlotGrows(us: seq<UnspentTxOut>, i: nat, width: nat)
    requires Ascending(us) && i + 1 + width <= |us|
    ensures Sum(Slot(us, i, width)) <= Sum(Slot(us, i + 1, width))
  {
    WindowGrows(us, i + width, width);
  }

  /** What the inner loop collects once the slot runs over the end is worth no more than the last full slot. */
  lemma TailIsSmaller(us: seq<UnspentTxOut>, i: nat, width: nat)
    requires width <= |us| && |us| - width <= i <= |us|
    ensures Sum(us[i..]) <= Sum(us[|us| - width..])
  {
    var tail := us[|us| - width..];
    assert tail == us[|us| - width..i] + us[i..];
    SumConcat(us[|us| - width..i], us[i..]);
  }

  /** Some `width` of the coins together exceed the fee. */
  ghost predicate SomePay(us: seq<UnspentTxOut>, width: nat, fee: nat) {
    exists chosen :: Choice(us, chosen, width) && |chosen| == width && Sum(chosen) > fee
  }

  /** Some `width` of the coins together exceed the fee exactly when the top ones do. */
  lemma PayingIffTop(us: seq<UnspentTxOut>, width: nat, fee: nat)
    requires Ascending(us) && width <= |us|
    ensures SomePay(us, width, fee) <==> Sum(Slot(us, |us| - width, width)) > fee
  {
    var top := Slot(us, |us| - width, width);
    assert top == Window(us, |us|, width);
    assert us[..|us|] == us;
    WindowIsChoice(us, |us|, width);
    forall chosen | Choice(us, chosen, width)
      ensures Sum(chosen) <= Sum(top)
    {
      WindowIsBest(us, |us|, width, chosen);
    }
  }

  /** The loop of the source: drop the smallest coin until the next `width` pay for the fee. */
  method MergeLoop(rest: seq<UnspentTxOut>, width: nat, fee: nat) returns (r: Result<seq<UnspentTxOut>, SelectError>, ghost j: nat)
    requires Ascending(rest) && 1 <= width <= |rest|
    ensures r.Ok? ==> LowestPaying(rest, j, width, fee) && r.value == Slot(rest, j, width)
    ensures r.Err? ==> r.error == OptimizationNotBeneficial && Sum(Slot(rest, |rest| - width, width)) <= fee
  {
    var spendable := rest;
    j := 0;
    while true
      invariant j <= |rest| && spendable == rest[j..]
      invariant forall i: nat :: i < j && i + width <= |rest| ==> Sum(Slot(rest, i, width)) <= fee
      decreases |spendable|
    {
      if spendable == [] {
        r := Err(OptimizationNotBeneficial);
        return;
      }
      var selected := Take(spendable, width);
      var total := Sum(selected);
      if j + width > |rest| {
        TailIsSmaller(rest, j, width);
        assert selected == rest[j..];
        assert Slot(rest, |rest| - width, width) == rest[|rest| - width..];
      } else {
        assert selected == Slot(rest, j, width);
      }
      if total > fee {
        return Ok(selected), j;
      }
      spendable := spendable[1..];
      j := j + 1;
    }
  }

  /** All inputs carry the token. */
  predicate SameToken(us: seq<UnspentTxOut>, token: TokenId) {
    forall u :: u in us ==> u.tokenId == token
  }

  /** When merging is considered at all. */
  predicate Mergeable(numBlocks: nat, inputs: seq<UnspentTxOut>, maxInputs: nat, token: TokenId) {
    maxInputs >= 2 && SameToken(inputs, token) && |Spendable(inputs, numBlocks)| >= maxInputs
  }

  /** The selection is the lowest paying slot of the coins below the largest, and the largest. */
  ghost predicate MergesSlot(sorted: seq<UnspentTxOut>, width: nat, fee: nat, selected: seq<UnspentTxOut>, j: nat) {
    && sorted != []
    && LowestPaying(sorted[..|sorted| - 1], j, width, fee)
    && selected == Slot(sorted[..|sorted| - 1], j, width) + [sorted[|sorted| - 1]]
  }

  ghost predicate MergesLowest(sorted: seq<UnspentTxOut>, width: nat, fee: nat, selected: seq<UnspentTxOut>) {
    exists j: nat :: MergesSlot(sorted, width, fee, selected, j)
  }

  method MergeIntoLargest(sorted: seq<UnspentTxOut>, maxInputs: nat, fee: U64) returns (r: Result<seq<UnspentTxOut>, SelectError>)
    requires Ascending(sorted) && 2 <= maxInputs <= |sorted|
    ensures r.Ok? <==> SomePay(sorted[..|sorted| - 1], maxInputs - 1, fee)
    ensures r.Ok? ==> MergesLowest(sorted, maxInputs - 1, fee, r.value)
    ensures r.Ok? ==> |r.value| == maxInputs && Sum(r.value) - fee > sorted[|sorted| - 1].value
    ensures r.Err? ==> r.error == OptimizationNotBeneficial
  {
    var rest, biggest := sorted[..|sorted| - 1], sorted[|sorted| - 1];
    PayingIffTop(rest, maxInputs - 1, fee);
    var merged, j := MergeLoop(rest, maxInputs - 1, fee);
    if merged.Err? {
      return merged;
    }
    LowestPayingReachesTop(rest, j, maxInputs - 1, fee);
    SumConcat(merged.value, [biggest]);
    r := Ok(merged.value + [biggest]);
    assert MergesSlot(sorted, maxInputs - 1, fee, r.value, j);
  }

  lemma MergedIsPart(sorted: seq<UnspentTxOut>, width: nat, fee: nat, selected: seq<UnspentTxOut>)
    requires MergesLowest(sorted, width, fee, selected)
    ensures multiset(selected) <= multiset(sorted)
  {
    var j: nat :| MergesSlot(sorted, width, fee, selected, j);
    var rest, biggest := sorted[..|sorted| - 1], sorted[|sorted| - 1];
    SliceIsPart(rest, j, width);
    assert multiset(selected) == multiset(Slot(rest, j, width)) + multiset{biggest};
    assert sorted == rest + [biggest];
  }

  lemma SliceIsPart(us: seq<UnspentTxOut>, j: nat, width: nat)
    requires j + width <= |us|
    ensures multiset(Slot(us, j, width)) <= multiset(us)
  {
    assert us == us[..j] + Slot(us, j, width) + us[j + width..];
  }

  lemma MergedNotPending(numBlocks: nat, inputs: seq<UnspentTxOut>, width: nat, fee: nat, selected: seq<UnspentTxOut>)
    requires MergesLowest(SortAscending(Spendable(inputs, numBlocks)), width, fee, selected)
    ensures multiset(selected) <= multiset(inputs)
    ensures forall u :: u in selected ==> numBlocks >= u.attemptedSpendTombstone
  {
    var spendable := Spendable(inputs, numBlocks);
    SortAscendingSorts(spendable);
    MergedIsPart(SortAscending(spendable), width, fee, selected);
    forall u
      ensures multiset(selected)[u] <= multiset(inputs)[u]
      ensures u in selected ==> numBlocks >= u.attemptedSpendTombstone
    {
      SpendableAre(inputs, numBlocks, u);
      assert multiset(selected)[u] <= multiset(spendable)[u];
    }
  }

  /** Merges the lowest affordable run of maxInputs - 1 coins into the largest one, and only if
      that coin then grows; fails exactly when no such run pays for the fee. */
  method SelectUtxosForOptimization(numBlocks: nat, inputs: seq<UnspentTxOut>, maxInputs: nat, token: TokenId, fee: U64)
    returns (r: Result<seq<UnspentTxOut>, SelectError>)
    ensures !Mergeable(numBlocks, inputs, maxInputs, token) ==>
              r == Err(if maxInputs < 2 || !SameToken(inputs, token) then SelectError.InvalidArgument else OptimizationNotBeneficial)
    ensures r.Ok? ==> multiset(r.value) <= multiset(inputs) && forall u :: u in r.value ==> numBlocks >= u.attemptedSpendTombstone
    ensures Mergeable(numBlocks, inputs, maxInputs, token) ==>
              var sorted := SortAscending(Spendable(inputs, numBlocks));
              && |sorted| >= maxInputs
              && (r.Ok? <==> SomePay(sorted[..|sorted| - 1], maxInputs - 1, fee))
              && (r.Ok? ==> MergesLowest(sorted, maxInputs - 1, fee, r.value))
              && (r.Ok? ==> |r.value| == maxInputs && Sum(r.value) - fee > sorted[|sorted| - 1].value)
              && (r.Err? ==> r.error == OptimizationNotBeneficial)
  {
    if maxInputs < 2 {
      return Err(SelectError.InvalidArgument);
    }
    if !SameToken(inputs, token) {
      return Err(SelectError.InvalidArgument);
    }
    var spendable := Spendable(inputs, numBlocks);
    if |spendable| < maxInputs {
      return Err(OptimizationNotBeneficial);
    }
    var sorted := SortAscending(spendable);
    SortAscendingSorts(spendable);
    r := MergeIntoLargest(sorted, maxInputs, fee);
    if r.Ok? {
      MergedNotPending(numBlocks, inputs, maxInputs - 1, fee, r.value);
    }
  }

  lemma {:induction false} SlotBelowTop(us: seq<UnspentTxOut>, j: nat, width: nat)
    requires Ascending(us) && j + width <= |us|
    ensures Sum(Slot(us, j, width)) <= Sum(Slot(us, |us| - width, width))
    decreases |us| - j
  {
    if j + width < |us| {
      SlotGrows(us, j, width);
      SlotBelowTop(us, j + 1, width);
    }
  }

  lemma LowestPayingReachesTop(us: seq<UnspentTxOut>, j: nat, width: nat, fee: nat)
    requires Ascending(us) && LowestPaying(us, j, width, fee)
    ensures Sum(Slot(us, |us| - width, width)) > fee
  {
    SlotBelowTop(us, j, width);
  }
}
