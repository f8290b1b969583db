// The faucet's rebalancing request as mobilecoind builds it: the build always
// succeeds, and it spends the listed inputs from some position on.

module FaucetRequest {
  import opened Common
  import opened Wallet
  import opened Selection
  import Balance
  import opened FaucetWorker

  lemma ReversedSuffix(us: seq<UnspentTxOut>, j: nat)
    requires j <= |us|
    ensures Reversed(us)[..|us| - j] == Reversed(us[j..])
    ensures Sum(Reversed(us)[..|us| - j]) == Sum(us[j..])
  {
    ReversedContents(us[j..]);
    SumPermuted(Reversed(us[j..]), us[j..]);
  }

  lemma ValuesSuffix(us: seq<UnspentTxOut>, j: nat)
    requires j <= |us|
    ensures Rebalance.Total(Values(us)[j..]) == Sum(us[j..])
  {
    ValuesAgree(us);
    ValuesAgree(us[j..]);
    assert Values(us)[j..] == Values(us[j..]);
  }

  /** Among listed inputs in descending order, selection spends those from some position on. */
  lemma PickedSuffix(us: seq<UnspentTxOut>, need: nat, j: nat)
    requires Descending(us) && |us| <= MAX_INPUTS && Rebalance.Spends(Values(us), need, j)
    ensures multiset(Picked(us, need, MAX_INPUTS)) == multiset(us[j..])
  {
    var k := |us| - 1 - j;
    ReversedSuffix(us, j);
    ReversedSuffix(us, j + 1);
    ValuesSuffix(us, j);
    ValuesSuffix(us, j + 1);
    PickedPrefix(us, Reversed(us), k, need, MAX_INPUTS);
    ReversedContents(us[j..]);
  }

  function EqualOutlays(n: nat, value: U64, token: TokenId): seq<Balance.Amount> {
    seq(n, _ => Balance.Amount(value, token))
  }

  /** A request for n equal outlays of one token. */
  function EqualRequest(n: nat, value: U64, token: TokenId, fee: U64): Balance.Request {
    Balance.Request(token, fee, EqualOutlays(n, value, token), [])
  }

  lemma {:induction false} EqualOutlaysTotal(n: nat, value: U64, token: TokenId)
    ensures Balance.AmountSum(EqualOutlays(n, value, token), token) == n * value
  {
    if n > 0 {
      assert EqualOutlays(n, value, token)[1..] == EqualOutlays(n - 1, value, token);
      EqualOutlaysTotal(n - 1, value, token);
      assert n * value == (n - 1) * value + value;
    }
  }

  lemma EqualRequestNeeds(n: nat, value: U64, token: TokenId, fee: U64)
    requires n > 0 && n * value + fee > 0
    ensures var q := EqualRequest(n, value, token, fee);
            && Balance.WellFormed(q) && Balance.Needs(q).Keys == {token} && Balance.Need(q, token) == n * value + fee
            && forall other :: other != token ==> Balance.Need(q, other) == 0
  {
    var q := EqualRequest(n, value, token, fee);
    EqualOutlaysTotal(n, value, token);
    assert Balance.Need(q, token) == n * value + fee;
    assert q.outlays[0] in q.outlays;
    assert Balance.TokensOf(q) == {token};
    forall other | other != token
      ensures Balance.Need(q, other) == 0
    {
      Balance.NeedAbsent(q, other);
    }
  }

  /** What is asked of the inputs that are listed. */
  ghost predicate Listed(us: seq<UnspentTxOut>, token: TokenId) {
    Descending(us) && |us| <= MAX_INPUTS && Sum(us) < TWO64 && forall u :: u in us ==> u.tokenId == token
  }

  lemma ListedSums(us: seq<UnspentTxOut>, token: TokenId, other: TokenId)
    requires Listed(us, token)
    ensures OfToken(us, token) == us && Balance.TokenSum(us, other) < TWO64
  {
    Balance.OneToken(us, token, token);
    Balance.OneToken(us, token, other);
  }

  /** A request that the listed inputs can pay for is built, from the inputs selection picks. */
  lemma ListedPays(us: seq<UnspentTxOut>, n: nat, value: U64, token: TokenId, fee: U64)
    requires Listed(us, token) && n > 0 && 0 < n * value + fee <= Sum(us)
    ensures var q := EqualRequest(n, value, token, fee);
            && Balance.Verdict(q, us) == None
            && Balance.Chosen(Balance.Needs(q), us, 0) == Ok(Picked(us, n * value + fee, MAX_INPUTS))
  {
    var q, need := EqualRequest(n, value, token, fee), n * value + fee;
    EqualRequestNeeds(n, value, token, fee);
    forall other
      ensures Balance.TokenSum(us, other) < TWO64
    {
      ListedSums(us, token, other);
    }
    ListedSums(us, token, token);
    assert Sufficient(us, us, need, MAX_INPUTS);
    DrawsListed(us, need, token);
    Balance.OneTokenVerdict(q, us, token);
    Balance.GreedyOne(Balance.DrawFrom(us), Balance.Needs(q), 0, token);
  }

  lemma DrawsListed(us: seq<UnspentTxOut>, need: nat, token: TokenId)
    requires OfToken(us, token) == us && 0 < need < TWO64 && Sufficient(us, us, need, MAX_INPUTS)
    ensures Balance.Drawing(token, need, us, 0) == Ok(Picked(us, need, MAX_INPUTS))
  {
    assert need % TWO64 == need;
  }

  /** It spends the listed inputs from some position on. */
  ghost predicate SpendsFrom(us: seq<UnspentTxOut>, q: Balance.Request, need: nat, j: nat) {
    && Balance.Fillable(q.scis)
    && Rebalance.Spends(Values(us), need, j)
    && Balance.Chosen(Balance.Needs(q), us, 0).Ok?
    && multiset(Balance.Chosen(Balance.Needs(q), us, 0).value) == multiset(us[j..])
  }

  lemma ListedSpends(us: seq<UnspentTxOut>, n: nat, value: U64, token: TokenId, fee: U64) returns (j: nat)
    requires Listed(us, token) && n > 0 && 0 < n * value + fee <= Sum(us)
    ensures Balance.Verdict(EqualRequest(n, value, token, fee), us) == None
    ensures SpendsFrom(us, EqualRequest(n, value, token, fee), n * value + fee, j)
  {
    ValuesAgree(us);
    j := Rebalance.SpendsSome(Values(us), n * value + fee);
    PickedSuffix(us, n * value + fee, j);
    ListedPays(us, n, value, token, fee);
  }

  /** The rebalancing request never fails to be built, and the inputs it spends are the listed ones from some position on,
      as FaucetRebalance takes them to be. */
  lemma RebalancingRequestBuilds(us: seq<UnspentTxOut>, target: nat, token: TokenId, fee: U64) returns (j: nat)
    requires Listed(us, token) && target >= 1 && Rebalance.Rebalances(target, fee, Values(us))
    ensures fee <= Sum(us) && Rebalance.Average(Sum(us), fee) < TWO64
    ensures var q := EqualRequest(MAX_OUTPUTS - 1, Rebalance.Average(Sum(us), fee), token, fee);
            Balance.Verdict(q, us) == None && SpendsFrom(us, q, Rebalance.Outlay(Sum(us), fee), j)
  {
    ValuesAgree(us);
    j := ListedSpends(us, MAX_OUTPUTS - 1, Rebalance.Average(Sum(us), fee), token, fee);
  }
}
