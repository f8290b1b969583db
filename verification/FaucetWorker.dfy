// The faucet worker's in-flight transactions for one token: splits, one
// rebalancing and one defragmentation transaction, each tracked until it resolves.

module FaucetWorker {
  import opened Common
  import opened Wallet
  import opened Selection
  import Rebalance = FaucetRebalance

  const MAX_OUTPUTS := Rebalance.MAX_OUTPUTS

  /** A response from submit_tx. */
  datatype TxId = TxId(id: nat)

  /** A generate_tx and submit_tx request: the inputs listed and the values paid to the faucet itself. */
  datatype Request = Request(inputs: seq<UnspentTxOut>, outlays: seq<nat>)

  datatype PollError = RpcFailed

  /** Failures of generate_tx and submit_tx are the environment's choice. */
  type Network = Request -> Option<TxId>

  function Images(us: seq<UnspentTxOut>): set<KeyImage> {
    set u | u in us :: u.keyImage
  }

  function Consumed(requests: seq<Request>): set<KeyImage> {
    if requests == [] then {} else Consumed(requests[..|requests| - 1]) + Images(requests[|requests| - 1].inputs)
  }

  function Values(us: seq<UnspentTxOut>): (vs: seq<nat>)
    ensures |vs| == |us|
  {
    if us == [] then [] else [us[0].value] + Values(us[1..])
  }

  lemma {:induction false} ValuesAgree(us: seq<UnspentTxOut>)
    ensures Rebalance.Total(Values(us)) == Sum(us)
    ensures forall i :: 0 <= i < |us| ==> Values(us)[i] == us[i].value
  {
    if us != [] {
      ValuesAgree(us[1..]);
      assert Values(us)[1..] == Values(us[1..]);
    }
  }

  /** The listed inputs cover what is paid out and the fee. */
  ghost predicate Pays(request: Request, fee: nat) {
    Rebalance.Total(request.outlays) + fee <= Sum(request.inputs)
  }

  /** Requests made in turn while `busy` was in flight: no coin of any of them was in flight or in another one. */
  ghost predicate Apart(requests: seq<Request>, busy: set<KeyImage>) {
    forall i :: 0 <= i < |requests| ==> Images(requests[i].inputs) !! busy + Consumed(requests[..i])
  }

  lemma ApartGrows(requests: seq<Request>, busy: set<KeyImage>, next: Request)
    requires Apart(requests, busy) && Images(next.inputs) !! busy + Consumed(requests)
    ensures Apart(requests + [next], busy)
    ensures Consumed(requests + [next]) == Consumed(requests) + Images(next.inputs)
  {
    var more := requests + [next];
    assert more[..|requests|] == requests;
    forall i | 0 <= i < |more|
      ensures Images(more[i].inputs) !! busy + Consumed(more[..i])
    {
      if i < |requests| {
        assert more[..i] == requests[..i] && more[i] == requests[i];
      }
    }
  }

  lemma {:induction false} ApartConsumed(requests: seq<Request>, busy: set<KeyImage>)
    requires Apart(requests, busy)
    ensures Consumed(requests) !! busy
  {
    if requests != [] {
      ApartEarlier(requests, busy);
      ApartConsumed(requests[..|requests| - 1], busy);
    }
  }

  lemma ApartOne(request: Request, busy: set<KeyImage>)
    requires Images(request.inputs) !! busy
    ensures Apart([request], busy) && Consumed([request]) == Images(request.inputs)
  {
    var one := [request];
    assert one[..0] == [] && Consumed(one[..0]) == {};
    assert Consumed(one) == Consumed(one[..0]) + Images(one[0].inputs);
  }

  /** How many coins of the target value fit, at most one output short of the limit. */
  function TargetCount(value: nat, fee: nat, target: nat): (n: nat)
    requires target >= 1 && fee <= value
    ensures n <= MAX_OUTPUTS - 1 && n * target + fee <= value
    ensures n < MAX_OUTPUTS - 1 ==> (n + 1) * target + fee > value
  {
    Min(MAX_OUTPUTS - 1, (value - fee) / target)
  }

  function Repeated(n: nat, v: nat): seq<nat> {
    seq(n, _ => v)
  }

  /** Nothing but coins of the target value, and as many as the value pays for beside the fee, one output short of the limit. */
  ghost predicate AllTarget(outlays: seq<nat>, value: nat, fee: nat, target: nat) {
    && (forall v :: v in outlays ==> v == target)
    && |outlays| <= MAX_OUTPUTS - 1 && |outlays| * target + fee <= value
    && (|outlays| < MAX_OUTPUTS - 1 ==> (|outlays| + 1) * target + fee > value)
  }

  /** The first `n` coins that are not in flight. */
  function Idle(us: seq<UnspentTxOut>, busy: set<KeyImage>, n: nat): seq<UnspentTxOut> {
    if us == [] || n == 0 then []
    else if us[0].keyImage in busy then Idle(us[1..], busy, n)
    else [us[0]] + Idle(us[1..], busy, n - 1)
  }

  lemma {:induction false} IdleApart(us: seq<UnspentTxOut>, busy: set<KeyImage>, n: nat)
    ensures |Idle(us, busy, n)| <= n
    ensures forall u :: u in Idle(us, busy, n) ==> u in us && u.keyImage !in busy
  {
    if us != [] && n > 0 {
      IdleApart(us[1..], busy, if us[0].keyImage in busy then n else n - 1);
    }
  }

  function AfterLargest(selected: seq<UnspentTxOut>): nat {
    if selected == [] then 0 else Sum(selected[1..])
  }

  /** The idle coins among the first m of the list. */
  ghost predicate IdleAmong(idle: seq<UnspentTxOut>, us: seq<UnspentTxOut>, busy: set<KeyImage>, m: nat) {
    m <= |us| && forall u :: multiset(idle)[u] == if u.keyImage in busy then 0 else multiset(us[..m])[u]
  }

  /** All idle coins up to some place of the list: as many as asked for, or all there are. */
  lemma {:induction false} IdleTakes(us: seq<UnspentTxOut>, busy: set<KeyImage>, n: nat) returns (m: nat)
    ensures IdleAmong(Idle(us, busy, n), us, busy, m)
    ensures |Idle(us, busy, n)| == n || (|Idle(us, busy, n)| < n && m == |us|)
  {
    if us == [] || n == 0 {
      m := 0;
    } else {
      var taken := us[0].keyImage !in busy;
      var rest := IdleTakes(us[1..], busy, if taken then n - 1 else n);
      m := rest + 1;
      assert us[..m] == [us[0]] + us[1..][..rest];
      forall u: UnspentTxOut
        ensures multiset(Idle(us, busy, n))[u] == if u.keyImage in busy then 0 else multiset(us[..m])[u]
      {
        assert multiset(us[..m])[u] == multiset([us[0]])[u] + multiset(us[1..][..rest])[u];
      }
    }
  }

  lemma {:induction false} IdleDescends(us: seq<UnspentTxOut>, busy: set<KeyImage>, n: nat)
    requires Descending(us)
    ensures Descending(Idle(us, busy, n))
  {
    if us != [] && n > 0 {
      var k := if us[0].keyImage in busy then n else n - 1;
      IdleDescends(us[1..], busy, k);
      IdleApart(us[1..], busy, k);
    }
  }

  /** Of coins largest first, the idle ones but the largest. */
  lemma AfterLargestIs(us: seq<UnspentTxOut>, busy: set<KeyImage>, n: nat, u: UnspentTxOut)
    requires Descending(us) && u in Idle(us, busy, n)
    ensures var idle := Idle(us, busy, n);
            u.value <= idle[0].value && AfterLargest(idle) + idle[0].value == Sum(idle)
  {
    IdleDescends(us, busy, n);
  }

  function OtherValues(list: seq<UnspentTxOut>, tokenId: TokenId, target: nat): seq<UnspentTxOut> {
    if list == [] then []
    else if list[0].tokenId == tokenId && list[0].value != target then [list[0]] + OtherValues(list[1..], tokenId, target)
    else OtherValues(list[1..], tokenId, target)
  }

  lemma {:induction false} OtherValuesAre(list: seq<UnspentTxOut>, tokenId: TokenId, target: nat, u: UnspentTxOut)
    ensures multiset(OtherValues(list, tokenId, target))[u] ==
            if u.tokenId == tokenId && u.value != target then multiset(list)[u] else 0
  {
    if list != [] {
      assert list == [list[0]] + list[1..];
      OtherValuesAre(list[1..], tokenId, target, u);
    }
  }

  /** The tracked splits with, under its coin, the network's response to every split sent. */
  ghost function Responses(before: map<KeyImage, TxId>, network: Network, sent: seq<Request>): map<KeyImage, TxId> {
    if sent == [] then before else
      var earlier, q := Responses(before, network, sent[..|sent| - 1]), sent[|sent| - 1];
      if |q.inputs| == 1 && network(q).Some? then earlier[q.inputs[0].keyImage := network(q).value] else earlier
  }

  lemma ResponsesGrow(before: map<KeyImage, TxId>, network: Network, sent: seq<Request>, q: Request)
    requires |q.inputs| == 1 && network(q).Some?
    ensures Responses(before, network, sent + [q]) == Responses(before, network, sent)[q.inputs[0].keyImage := network(q).value]
  {
    assert (sent + [q])[..|sent|] == sent;
  }

  /** A request was sent to spend the coin, and the network answered with this id. */
  ghost predicate Answered(network: Network, sent: seq<Request>, k: KeyImage, tx: TxId) {
    exists q :: q in sent && k in Images(q.inputs) && network(q) == Some(tx)
  }

  ghost predicate AnsweredAny(network: Network, sent: seq<Request>, tx: Option<TxId>) {
    exists q :: q in sent && network(q) == tx
  }

  /** A transaction still in flight stays tracked; otherwise none is, or the one just sent. */
  ghost predicate Refreshed(before: Option<TxId>, after: Option<TxId>, stillInFlight: TxId -> bool, network: Network,
                            sent: seq<Request>) {
    if before.Some? && stillInFlight(before.value) then after == before
    else after.None? || AnsweredAny(network, sent, after)
  }

  /** Splits that were tracked stay, and what is new is the network's answer to a request just sent. */
  ghost predicate KeptOrAnswered(before: map<KeyImage, TxId>, after: map<KeyImage, TxId>, network: Network,
                                 sent: seq<Request>) {
    && (forall k :: k in before ==> k in after && after[k] == before[k])
    && (forall k :: k in after ==> k in before || Answered(network, sent, k, after[k]))
  }

  lemma {:induction false} ResponsesAre(before: map<KeyImage, TxId>, network: Network, sent: seq<Request>)
    requires Apart(sent, before.Keys)
    ensures KeptOrAnswered(before, Responses(before, network, sent), network, sent)
  {
    if sent != [] {
      var init, q := sent[..|sent| - 1], sent[|sent| - 1];
      ApartEarlier(sent, before.Keys);
      ResponsesAre(before, network, init);
      var earlier, after := Responses(before, network, init), Responses(before, network, sent);
      if |q.inputs| == 1 && network(q).Some? {
        assert q.inputs[0].keyImage in Images(q.inputs);
        assert Answered(network, sent, q.inputs[0].keyImage, network(q).value);
      }
      forall k | k in after && k !in before
        ensures Answered(network, sent, k, after[k])
      {
        if k in earlier && after[k] == earlier[k] {
          var p :| p in init && k in Images(p.inputs) && network(p) == Some(earlier[k]);
          assert p in sent;
        }
      }
    }
  }

  lemma ApartLess(sent: seq<Request>, busy: set<KeyImage>, less: set<KeyImage>)
    requires Apart(sent, busy) && less <= busy
    ensures Apart(sent, less)
  {
  }

  lemma ApartEarlier(sent: seq<Request>, busy: set<KeyImage>)
    requires Apart(sent, busy) && sent != []
    ensures Apart(sent[..|sent| - 1], busy) && Images(sent[|sent| - 1].inputs) !! busy
  {
    var init := sent[..|sent| - 1];
    forall i | 0 <= i < |init|
      ensures Images(init[i].inputs) !! busy + Consumed(init[..i])
    {
      assert init[..i] == sent[..i] && init[i] == sent[i];
    }
  }

  class WorkerTokenState {
    const tokenId: TokenId
    const fee: nat
    const target: nat
    ghost const valueOf: KeyImage -> nat
    var trackers: set<KeyImage>
    var splits: map<KeyImage, TxId>
    var rebalancing: Option<TxId>
    var rebalancingImages: set<KeyImage>
    var defragmentation: Option<TxId>
    var defragmentationImages: set<KeyImage>
    var fundsDepleted: bool

    function InFlight(): set<KeyImage>
      reads this
    {
      splits.Keys + rebalancingImages + defragmentationImages
    }

    /** The transactions in flight share no coin, and none spends a coin that may be queued for consumers. */
    ghost predicate Valid()
      reads this
    {
      && target >= 1
      && splits.Keys !! rebalancingImages !! defragmentationImages
      && (rebalancing.None? ==> rebalancingImages == {})
      && (defragmentation.None? ==> defragmentationImages == {})
      && (forall k :: k in InFlight() ==> valueOf(k) != target)
      && (forall k :: k in trackers ==> valueOf(k) == target)
    }

    /** A key image belongs to one coin, of one value. */
    ghost predicate Genuine(us: seq<UnspentTxOut>) {
      forall u :: u in us ==> valueOf(u.keyImage) == u.value
    }

    ghost predicate NonTarget(us: seq<UnspentTxOut>) {
      Genuine(us) && forall u :: u in us ==> u.value != target
    }

    lemma NoTargetSpent(us: seq<UnspentTxOut>)
      requires NonTarget(us)
      ensures forall k :: k in Images(us) ==> valueOf(k) != target
    {
    }

    constructor (tokenId: TokenId, fee: nat, target: nat, ghost valueOf: KeyImage -> nat)
      requires target >= 1
      ensures Valid() && InFlight() == {} && trackers == {}
      ensures this.tokenId == tokenId && this.fee == fee && this.target == target && this.valueOf == valueOf
    {
      this.tokenId, this.fee, this.target, this.valueOf := tokenId, fee, target, valueOf;
      trackers, splits, rebalancing, rebalancingImages := {}, map[], None, {};
      defragmentation, defragmentationImages, fundsDepleted := None, {}, false;
    }

    method CheckOnInFlightTxs(stillInFlight: TxId -> bool)
      requires Valid()
      modifies this`splits, this`rebalancing, this`rebalancingImages, this`defragmentation, this`defragmentationImages
      ensures Valid() && InFlight() <= old(InFlight())
      ensures forall k :: k in splits <==> k in old(splits) && stillInFlight(old(splits)[k])
      ensures forall k :: k in splits ==> splits[k] == old(splits)[k]
      ensures if old(rebalancing).Some? && stillInFlight(old(rebalancing).value)
              then rebalancing == old(rebalancing) && rebalancingImages == old(rebalancingImages)
              else rebalancing == None && rebalancingImages == {}
      ensures if old(defragmentation).Some? && stillInFlight(old(defragmentation).value)
              then defragmentation == old(defragmentation) && defragmentationImages == old(defragmentationImages)
              else defragmentation == None && defragmentationImages == {}
    {
      if rebalancing.Some? && !stillInFlight(rebalancing.value) {
        rebalancing, rebalancingImages := None, {};
      }
      splits := map k | k in splits && stillInFlight(splits[k]) :: splits[k];
      if defragmentation.Some? && !stillInFlight(defragmentation.value) {
        defragmentation, defragmentationImages := None, {};
      }
    }

    ghost predicate IsSplit(q: Request, u: UnspentTxOut) {
      target >= 1 && u.value >= fee + target && q == SplitRequest(u, fee, target)
    }

    ghost predicate AllSplits(sent: seq<Request>, top: seq<UnspentTxOut>) {
      forall q :: q in sent ==> exists u :: u in top && IsSplit(q, u)
    }

    /** Every coin large enough to split is in flight. */
    ghost predicate Splitting(us: seq<UnspentTxOut>, busy: set<KeyImage>) {
      forall u :: u in us && u.value >= fee + target ==> u.keyImage in busy
    }

    lemma SplittingGrows(top: seq<UnspentTxOut>, i: nat, before: set<KeyImage>, busy: set<KeyImage>)
      requires i < |top| && Splitting(top[..i], before) && before <= busy
      requires top[i].value >= fee + target ==> top[i].keyImage in busy
      ensures Splitting(top[..i + 1], busy)
    {
      assert top[..i + 1] == top[..i] + [top[i]];
    }

    /** A request for one more split, of a coin that is not in flight. */
    lemma SplitSent(sent: seq<Request>, busy: set<KeyImage>, top: seq<UnspentTxOut>, u: UnspentTxOut, q: Request)
      requires Apart(sent, busy) && AllSplits(sent, top) && IsSplit(q, u) && u in top
      requires u.keyImage !in busy + Consumed(sent)
      ensures Apart(sent + [q], busy) && AllSplits(sent + [q], top)
      ensures Consumed(sent + [q]) == Consumed(sent) + {u.keyImage}
    {
      assert Images(q.inputs) == {u.keyImage};
      ApartGrows(sent, busy, q);
    }

    /** Splits one coin unless it is too small or already in flight. */
    method SplitOne(u: UnspentTxOut, network: Network) returns (r: Result<Option<Request>, PollError>)
      requires Valid() && valueOf(u.keyImage) == u.value && u.value != target
      modifies this`splits
      ensures Valid()
      ensures match r
              case Ok(Some(q)) =>
                && IsSplit(q, u) && u.keyImage !in old(InFlight())
                && network(q).Some? && splits == old(splits)[u.keyImage := network(q).value]
                && InFlight() == old(InFlight()) + {u.keyImage}
              case Ok(None) => splits == old(splits) && (u.value < fee + target || u.keyImage in InFlight())
              case Err(_) =>
                && splits == old(splits) && u.value >= fee + target && u.keyImage !in old(InFlight())
                && network(SplitRequest(u, fee, target)).None?
    {
      if u.value < fee + target {
        return Ok(None);
      }
      if u.keyImage in InFlight() {
        return Ok(None);
      }
      var request := SplitRequest(u, fee, target);
      var submitted := network(request);
      if submitted.None? {
        return Err(RpcFailed);
      }
      splits := splits[u.keyImage := submitted.value];
      return Ok(Some(request));
    }

    /** The splits sent for the first i coins, beside what was in flight before. */
    ghost predicate Sending(before: map<KeyImage, TxId>, busy: set<KeyImage>, network: Network,
                            top: seq<UnspentTxOut>, i: nat, sent: seq<Request>)
      requires i <= |top|
      reads this
    {
      && Valid() && Apart(sent, busy) && InFlight() == busy + Consumed(sent)
      && AllSplits(sent, top) && splits == Responses(before, network, sent) && (splits == map[] ==> sent == [])
      && Splitting(top[..i], InFlight())
    }

    /** The network refused to split one of the coins not in flight. */
    ghost predicate FailedSplit(network: Network, top: seq<UnspentTxOut>, busy: set<KeyImage>) {
      && target >= 1
      && exists u :: u in top && u.keyImage !in busy && u.value >= fee + target && network(SplitRequest(u, fee, target)).None?
    }

    /** One turn of the split loop. */
    method SendNext(top: seq<UnspentTxOut>, i: nat, network: Network, sent: seq<Request>,
                    ghost before: map<KeyImage, TxId>, ghost busy: set<KeyImage>)
      returns (r: Result<(), PollError>, more: seq<Request>)
      requires i < |top| && Sending(before, busy, network, top, i, sent)
      requires valueOf(top[i].keyImage) == top[i].value && top[i].value != target
      modifies this`splits
      ensures r.Ok? ==> Sending(before, busy, network, top, i + 1, more)
      ensures r.Err? ==> Sending(before, busy, network, top, i, more) && FailedSplit(network, top, InFlight())
    {
      more := sent;
      ghost var flying := InFlight();
      var one := SplitOne(top[i], network);
      if one.Err? {
        return Err(RpcFailed), sent;
      }
      if one.value.Some? {
        SplitSent(sent, busy, top, top[i], one.value.value);
        ResponsesGrow(before, network, sent, one.value.value);
        more := sent + [one.value.value];
      }
      SplittingGrows(top, i, flying, InFlight());
      return Ok(()), more;
    }

    /** The splits sent, all of them tracked, and whether one failed. */
    method SendSplits(top: seq<UnspentTxOut>, network: Network) returns (r: Result<(), PollError>, sent: seq<Request>)
      requires Valid() && NonTarget(top)
      modifies this`splits
      ensures Valid()
      ensures Apart(sent, old(InFlight())) && InFlight() == old(InFlight()) + Consumed(sent)
      ensures AllSplits(sent, top) && splits == Responses(old(splits), network, sent) && (splits == map[] ==> sent == [])
      ensures r.Ok? ==> Splitting(top, InFlight())
      ensures r.Err? ==> FailedSplit(network, top, InFlight())
    {
      ghost var before, busy := splits, InFlight();
      sent := [];
      for i := 0 to |top|
        invariant Sending(before, busy, network, top, i, sent)
      {
        r, sent := SendNext(top, i, network, sent, before, busy);
        if r.Err? {
          return;
        }
      }
      assert top[..|top|] == top;
      return Ok(()), sent;
    }

    method MaybeSendSplitTxs(top: seq<UnspentTxOut>, queueDepth: nat, targetQueueDepth: nat, network: Network)
      returns (r: Result<bool, PollError>, sent: seq<Request>)
      requires Valid() && |top| <= MAX_OUTPUTS && NonTarget(top)
      modifies this`splits, this`rebalancing, this`rebalancingImages
      ensures Valid()
      ensures Apart(sent, old(InFlight())) && InFlight() == old(InFlight()) + Consumed(sent)
      ensures forall q :: q in sent ==> Pays(q, fee)
      ensures old(rebalancing).Some? ==> r == Ok(false) && sent == [] && rebalancing == old(rebalancing) && splits == old(splits)
      ensures old(rebalancing).None? && Sum(top) < fee ==> r == Ok(true) && sent == [] && rebalancing.None? && splits == old(splits)
      ensures old(rebalancing).None? && fee <= Sum(top) && Rebalance.Rebalances(target, fee, Values(top)) ==>
                && splits == old(splits)
                && (r.Ok? ==> if Images(top) !! old(InFlight())
                              then r.value == false && sent == [RebalanceRequest(top, fee)] && rebalancing.Some?
                                   && rebalancing == network(RebalanceRequest(top, fee)) && rebalancingImages == Images(top)
                              else r.value == false && sent == [] && rebalancing.None?)
      ensures old(rebalancing).None? && fee <= Sum(top) && !Rebalance.Rebalances(target, fee, Values(top)) ==>
                && rebalancing.None? && AllSplits(sent, top) && splits == Responses(old(splits), network, sent)
                && (if queueDepth < targetQueueDepth
                    then r.Ok? ==> r.value == (splits == map[]) && Splitting(top, InFlight())
                    else r == Ok(false) && sent == [])
      ensures r == Ok(true) ==> sent == [] && rebalancing.None? && (Sum(top) < fee || splits == map[])
      ensures KeptOrAnswered(old(splits), splits, network, sent)
      ensures r.Err? ==>
                && old(rebalancing).None? && rebalancing.None? && fee <= Sum(top)
                && (if Rebalance.Rebalances(target, fee, Values(top))
                    then Images(top) !! old(InFlight()) && sent == [] && network(RebalanceRequest(top, fee)).None?
                    else queueDepth < targetQueueDepth && FailedSplit(network, top, InFlight()))
    {
      sent := [];
      if rebalancing.Some? {
        return Ok(false), [];
      }
      var total := Sum(top);
      ValuesAgree(top);
      if total < fee {
        return Ok(true), [];
      }
      if Rebalance.Rebalances(target, fee, Values(top)) {
        if exists u :: u in top && u.keyImage in InFlight() {
          return Ok(false), [];
        }
        var request := RebalanceRequest(top, fee);
        var submitted := network(request);
        if submitted.None? {
          return Err(RpcFailed), [];
        }
        NoTargetSpent(top);
        rebalancing, rebalancingImages := submitted, Images(top);
        sent := [request];
        ApartOne(request, old(InFlight()));
        return Ok(false), sent;
      }
      if queueDepth < targetQueueDepth {
        var done;
        done, sent := SendSplits(top, network);
        ApartLess(sent, old(InFlight()), old(splits).Keys);
        ResponsesAre(old(splits), network, sent);
        if done.Err? {
          return Err(RpcFailed), sent;
        }
        return Ok(splits == map[]), sent;
      }
      return Ok(false), [];
    }

    method TrackDefragmentation(selected: seq<UnspentTxOut>, tx: TxId)
      requires Valid() && defragmentation.None? && NonTarget(selected) && Images(selected) !! InFlight()
      modifies this`defragmentation, this`defragmentationImages
      ensures Valid() && InFlight() == old(InFlight()) + Images(selected)
      ensures defragmentation == Some(tx) && defragmentationImages == Images(selected)
    {
      NoTargetSpent(selected);
      defragmentation, defragmentationImages := Some(tx), Images(selected);
    }

    method SelectIdle(utxos: seq<UnspentTxOut>) returns (selected: seq<UnspentTxOut>)
      requires NonTarget(utxos)
      ensures selected == Idle(utxos, InFlight(), MAX_INPUTS) && NonTarget(selected) && Images(selected) !! InFlight()
    {
      selected := Idle(utxos, InFlight(), MAX_INPUTS);
      IdleApart(utxos, InFlight(), MAX_INPUTS);
    }

    /** The network refused to merge the idle coins. */
    ghost predicate FailedMerge(network: Network, utxos: seq<UnspentTxOut>, busy: set<KeyImage>) {
      var idle := Idle(utxos, busy, MAX_INPUTS);
      target >= 1 && AfterLargest(idle) > fee && fee <= Sum(idle) && network(DefragmentRequest(idle, fee, target)).None?
    }

    /** Exactly if the idle coins but the largest are worth more than the fee, they are merged and the response is tracked. */
    ghost predicate Merged(network: Network, idle: seq<UnspentTxOut>, sent: seq<Request>)
      reads this
    {
      if AfterLargest(idle) > fee then
        && target >= 1 && fee <= Sum(idle) && sent == [DefragmentRequest(idle, fee, target)]
        && defragmentation.Some? && defragmentation == network(sent[0]) && defragmentationImages == Images(idle)
      else sent == [] && defragmentation.None?
    }

    /** Merges the largest idle coins if all but the largest are worth more than the fee. */
    method MaybeSendDefragmentationTx(utxos: seq<UnspentTxOut>, network: Network)
      returns (r: Result<bool, PollError>, sent: seq<Request>)
      requires Valid() && NonTarget(utxos)
      modifies this`defragmentation, this`defragmentationImages
      ensures Valid()
      ensures Apart(sent, old(InFlight())) && InFlight() == old(InFlight()) + Consumed(sent)
      ensures old(defragmentation).Some? ==> r == Ok(true) && sent == [] && defragmentation == old(defragmentation)
      ensures old(defragmentation).None? && r.Ok? ==> Merged(network, Idle(utxos, old(InFlight()), MAX_INPUTS), sent)
      ensures forall q :: q in sent ==> Pays(q, fee)
      ensures r.Ok? ==> r.value == defragmentation.Some?
      ensures r == Ok(false) ==> sent == [] && AfterLargest(Idle(utxos, InFlight(), MAX_INPUTS)) <= fee
      ensures r.Err? ==> old(defragmentation).None? && defragmentation.None? && sent == [] && FailedMerge(network, utxos, old(InFlight()))
    {
      if defragmentation.Some? {
        return Ok(true), [];
      }
      var selected := SelectIdle(utxos);
      var skipFirst := AfterLargest(selected);
      if skipFirst <= fee {
        return Ok(false), [];
      }
      var request := DefragmentRequest(selected, fee, target);
      var submitted := network(request);
      if submitted.None? {
        return Err(RpcFailed), [];
      }
      ApartOne(request, InFlight());
      TrackDefragmentation(selected, submitted.value);
      return Ok(true), [request];
    }

    /** Steps 1 and 2 of a poll: resolved trackers are dropped, new coins of the target value are queued, and
        trackers of coins no longer listed are dropped. */
    method UpdateTrackers(list: seq<UnspentTxOut>)
      requires Valid() && Genuine(list)
      modifies this`trackers
      ensures Valid() && trackers == TargetImages(list, tokenId, target)
    {
      var listed := {};
      for i := 0 to |list|
        invariant listed == TargetImages(list[..i], tokenId, target) <= trackers
        invariant forall k :: k in trackers ==> valueOf(k) == target
      {
        TargetImagesStep(list, i, tokenId, target);
        var u := list[i];
        if u.tokenId == tokenId && u.value == target {
          trackers := trackers + {u.keyImage};
          listed := listed + {u.keyImage};
        }
      }
      assert list[..|list|] == list;
      trackers := trackers * listed;
    }

    /** Step 4, when funds are depleted among the largest coins. */
    method DefragmentIfDepleted(depleted: bool, utxos: seq<UnspentTxOut>, network: Network)
      returns (r: Result<(), PollError>, sent: seq<Request>)
      requires Valid() && NonTarget(utxos)
      modifies this`defragmentation, this`defragmentationImages, this`fundsDepleted
      ensures Valid()
      ensures Apart(sent, old(InFlight())) && InFlight() == old(InFlight()) + Consumed(sent)
      ensures forall q :: q in sent ==> Pays(q, fee)
      ensures !depleted ==> r.Ok? && sent == [] && defragmentation == old(defragmentation)
      ensures defragmentation == old(defragmentation) || (old(defragmentation).None? && AnsweredAny(network, sent, defragmentation))
      ensures r.Ok? && fundsDepleted ==> AfterLargest(Idle(utxos, InFlight(), MAX_INPUTS)) <= fee
      ensures r.Err? ==> depleted && sent == [] && defragmentation.None? && FailedMerge(network, utxos, old(InFlight()))
      ensures old(defragmentation).Some? ==> sent == []
      ensures r.Ok? ==> fundsDepleted == (depleted && defragmentation.None?)
      ensures r.Ok? && fundsDepleted ==> sent == []
      ensures depleted && old(defragmentation).None? && r.Ok? ==> Merged(network, Idle(utxos, old(InFlight()), MAX_INPUTS), sent)
    {
      var merging := Ok(false);
      sent := [];
      if depleted {
        merging, sent := MaybeSendDefragmentationTx(utxos, network);
        if merging.Err? {
          return Err(RpcFailed), sent;
        }
      }
      fundsDepleted := depleted && !merging.value;
      return Ok(()), sent;
    }

    /** The top coins cannot pay the fee, or splits are wanted and none is in flight, and nothing is being rebalanced. */
    ghost predicate Short(utxos: seq<UnspentTxOut>, queueDepth: nat, targetQueueDepth: nat)
      reads this
    {
      var top := Rebalance.Top(utxos);
      && rebalancing.None?
      && (Sum(top) < fee ||
          (!Rebalance.Rebalances(target, fee, Values(top)) && queueDepth < targetQueueDepth && splits == map[]))
    }

    ghost predicate Depleted(utxos: seq<UnspentTxOut>, queueDepth: nat, targetQueueDepth: nat)
      reads this
    {
      Short(utxos, queueDepth, targetQueueDepth) && defragmentation.None?
    }

    /** Splits are sent only if the queue is short and the top coins pay the fee and are even. */
    ghost predicate MaySplit(utxos: seq<UnspentTxOut>, queueDepth: nat, targetQueueDepth: nat)
      reads this
    {
      var top := Rebalance.Top(utxos);
      rebalancing.None? && fee <= Sum(top) && !Rebalance.Rebalances(target, fee, Values(top)) && queueDepth < targetQueueDepth
    }

    /** The top coins are uneven and none is busy. */
    ghost predicate MayRebalance(utxos: seq<UnspentTxOut>, busy: set<KeyImage>) {
      var top := Rebalance.Top(utxos);
      fee <= Sum(top) && Rebalance.Rebalances(target, fee, Values(top)) && Images(top) !! busy
    }

    ghost predicate IsMerge(sent: seq<Request>, idle: seq<UnspentTxOut>) {
      target >= 1 && AfterLargest(idle) > fee && fee <= Sum(idle) && sent == [DefragmentRequest(idle, fee, target)]
    }

    /** Nothing, the rebalancing of uneven coins, or splits of top coins. */
    ghost predicate NoMerge(utxos: seq<UnspentTxOut>, busy: set<KeyImage>, queueDepth: nat, targetQueueDepth: nat, sent: seq<Request>)
      reads this
    {
      || sent == []
      || (MayRebalance(utxos, busy) && sent == [RebalanceRequest(Rebalance.Top(utxos), fee)])
      || (MaySplit(utxos, queueDepth, targetQueueDepth) && AllSplits(sent, Rebalance.Top(utxos)))
    }

    /** All that can be sent: that, or, if funds are short, one merge of idle coins. */
    ghost predicate OnlySent(utxos: seq<UnspentTxOut>, busy: set<KeyImage>, queueDepth: nat, targetQueueDepth: nat, sent: seq<Request>)
      reads this
    {
      || NoMerge(utxos, busy, queueDepth, targetQueueDepth, sent)
      || (Short(utxos, queueDepth, targetQueueDepth) && IsMerge(sent, Idle(utxos, busy, MAX_INPUTS)))
    }

    /** The network refused the very request that was due. */
    ghost predicate Refused(network: Network, utxos: seq<UnspentTxOut>, busy: set<KeyImage>, queueDepth: nat, targetQueueDepth: nat)
      reads this
    {
      || (MayRebalance(utxos, busy) && rebalancing.None? && network(RebalanceRequest(Rebalance.Top(utxos), fee)).None?)
      || (MaySplit(utxos, queueDepth, targetQueueDepth) && FailedSplit(network, Rebalance.Top(utxos), InFlight()))
      || (Depleted(utxos, queueDepth, targetQueueDepth) && FailedMerge(network, utxos, busy))
    }

    /** What a poll has seen to: uneven coins are being rebalanced unless one was busy, splits are made if wanted, and
        funds are called depleted only if merging would not pay. */
    ghost predicate Acted(utxos: seq<UnspentTxOut>, busy: set<KeyImage>, queueDepth: nat, targetQueueDepth: nat)
      reads this
    {
      var top := Rebalance.Top(utxos);
      && (rebalancing.None? && fee <= Sum(top) ==>
            if Rebalance.Rebalances(target, fee, Values(top)) then !(Images(top) !! busy)
            else queueDepth < targetQueueDepth ==> Splitting(top, InFlight()))
      && (fundsDepleted ==> AfterLargest(Idle(utxos, InFlight(), MAX_INPUTS)) <= fee)
    }

    /** Steps 3 and 4: new transactions from the coins not of the target value. */
    method SendNewTxs(utxos: seq<UnspentTxOut>, queueDepth: nat, targetQueueDepth: nat, network: Network)
      returns (r: Result<(), PollError>, sent: seq<Request>)
      requires Valid() && NonTarget(utxos)
      modifies this`splits, this`rebalancing, this`rebalancingImages, this`defragmentation, this`defragmentationImages, this`fundsDepleted
      ensures Valid()
      ensures Apart(sent, old(InFlight())) && InFlight() == old(InFlight()) + Consumed(sent)
      ensures forall q :: q in sent ==> Pays(q, fee)
      ensures r.Ok? && fundsDepleted ==> sent == []
      ensures r.Ok? ==> (fundsDepleted <==> Depleted(utxos, queueDepth, targetQueueDepth))
      ensures r.Ok? ==> Acted(utxos, old(InFlight()), queueDepth, targetQueueDepth)
      ensures KeptOrAnswered(old(splits), splits, network, sent)
      ensures rebalancing == old(rebalancing) || (old(rebalancing).None? && AnsweredAny(network, sent, rebalancing))
      ensures defragmentation == old(defragmentation) || (old(defragmentation).None? && AnsweredAny(network, sent, defragmentation))
      ensures OnlySent(utxos, old(InFlight()), queueDepth, targetQueueDepth, sent)
      ensures old(rebalancing).Some? ==> sent == []
      ensures old(defragmentation).Some? ==> NoMerge(utxos, old(InFlight()), queueDepth, targetQueueDepth, sent)
      ensures r.Err? ==> Refused(network, utxos, old(InFlight()), queueDepth, targetQueueDepth)
    {
      var top := Rebalance.Top(utxos);
      var depleted, split := MaybeSendSplitTxs(top, queueDepth, targetQueueDepth, network);
      if depleted.Err? {
        return Err(RpcFailed), split;
      }
      r, sent := DefragmentIfDepleted(depleted.value, utxos, network);
      if !depleted.value {
        sent := split;
      }
    }

    /** Steps 3 and 4 on the list of unspent coins. */
    method SendFromList(list: seq<UnspentTxOut>, queueDepth: nat, targetQueueDepth: nat, network: Network)
      returns (r: Result<(), PollError>, sent: seq<Request>)
      requires Valid() && Genuine(list)
      modifies this`splits, this`rebalancing, this`rebalancingImages, this`defragmentation, this`defragmentationImages, this`fundsDepleted
      ensures Valid()
      ensures Consumed(sent) <= InFlight() <= old(InFlight()) + Consumed(sent)
      ensures Apart(sent, InFlight() - Consumed(sent))
      ensures forall q :: q in sent ==> Pays(q, fee)
      ensures r.Ok? && fundsDepleted ==> sent == []
      ensures r.Ok? ==> (fundsDepleted <==> Depleted(Candidates(list, tokenId, target), queueDepth, targetQueueDepth))
      ensures r.Ok? ==> Acted(Candidates(list, tokenId, target), InFlight() - Consumed(sent), queueDepth, targetQueueDepth)
      ensures KeptOrAnswered(old(splits), splits, network, sent)
      ensures rebalancing == old(rebalancing) || (old(rebalancing).None? && AnsweredAny(network, sent, rebalancing))
      ensures defragmentation == old(defragmentation) || (old(defragmentation).None? && AnsweredAny(network, sent, defragmentation))
      ensures OnlySent(Candidates(list, tokenId, target), InFlight() - Consumed(sent), queueDepth, targetQueueDepth, sent)
      ensures old(rebalancing).Some? ==> sent == []
      ensures old(defragmentation).Some? ==>
                NoMerge(Candidates(list, tokenId, target), InFlight() - Consumed(sent), queueDepth, targetQueueDepth, sent)
      ensures r.Err? ==> Refused(network, Candidates(list, tokenId, target), InFlight() - Consumed(sent), queueDepth, targetQueueDepth)
    {
      ghost var busy := InFlight();
      var utxos := Candidates(list, tokenId, target);
      CandidatesAre(list, tokenId, target);
      r, sent := SendNewTxs(utxos, queueDepth, targetQueueDepth, network);
      ApartConsumed(sent, busy);
      assert InFlight() - Consumed(sent) == busy;
    }

    /** One poll. Everything sent is tracked, shares no coin with what was still in flight or with one another,
        and spends no coin that is queued for consumers. */
    method Poll(resolved: set<KeyImage>, stillInFlight: TxId -> bool, response: Option<seq<UnspentTxOut>>,
                queueDepth: nat, targetQueueDepth: nat, network: Network)
      returns (r: Result<(), PollError>, sent: seq<Request>)
      requires Valid() && (response.Some? ==> Genuine(response.value))
      modifies this
      ensures Valid()
      ensures Consumed(sent) <= InFlight() <= old(InFlight()) + Consumed(sent)
      ensures Apart(sent, InFlight() - Consumed(sent))
      ensures forall q :: q in sent ==> Pays(q, fee)
      ensures Consumed(sent) !! trackers
      ensures r.Ok? ==> response.Some? && trackers == TargetImages(response.value, tokenId, target)
      ensures r.Ok? && fundsDepleted ==> sent == []
      ensures r.Ok? ==> (fundsDepleted <==> Depleted(Candidates(response.value, tokenId, target), queueDepth, targetQueueDepth))
      ensures r.Ok? ==> Acted(Candidates(response.value, tokenId, target), InFlight() - Consumed(sent), queueDepth, targetQueueDepth)
      ensures forall k :: k in old(splits) && stillInFlight(old(splits)[k]) ==> k in splits && splits[k] == old(splits)[k]
      ensures forall k :: k in splits ==>
                (k in old(splits) && stillInFlight(old(splits)[k])) || Answered(network, sent, k, splits[k])
      ensures Refreshed(old(rebalancing), rebalancing, stillInFlight, network, sent)
      ensures Refreshed(old(defragmentation), defragmentation, stillInFlight, network, sent)
      ensures response.None? ==> r.Err? && sent == []
      ensures response.Some? ==>
                OnlySent(Candidates(response.value, tokenId, target), InFlight() - Consumed(sent), queueDepth, targetQueueDepth, sent)
      ensures old(rebalancing).Some? && stillInFlight(old(rebalancing).value) ==> sent == []
      ensures response.Some? && old(defragmentation).Some? && stillInFlight(old(defragmentation).value) ==>
                NoMerge(Candidates(response.value, tokenId, target), InFlight() - Consumed(sent), queueDepth, targetQueueDepth, sent)
      ensures response.Some? && r.Err? ==>
                Refused(network, Candidates(response.value, tokenId, target), InFlight() - Consumed(sent), queueDepth, targetQueueDepth)
      ensures response.Some? && (forall q :: network(q).Some?) ==> r.Ok?
    {
      trackers := trackers - resolved;
      CheckOnInFlightTxs(stillInFlight);
      if response.None? {
        return Err(RpcFailed), [];
      }
      UpdateTrackers(response.value);
      r, sent := SendFromList(response.value, queueDepth, targetQueueDepth, network);
    }
  }

  /** The coins to hand out: those of exactly the target value. */
  function TargetImages(list: seq<UnspentTxOut>, tokenId: TokenId, target: nat): set<KeyImage> {
    set u | u in list && u.tokenId == tokenId && u.value == target :: u.keyImage
  }

  lemma TargetImagesAre(list: seq<UnspentTxOut>, tokenId: TokenId, target: nat, k: KeyImage)
    ensures k in TargetImages(list, tokenId, target) <==>
            exists i :: 0 <= i < |list| && list[i].keyImage == k && list[i].tokenId == tokenId && list[i].value == target
  {
    if i :| 0 <= i < |list| && list[i].keyImage == k && list[i].tokenId == tokenId && list[i].value == target {
      assert list[i] in list;
    }
  }

  lemma TargetImagesStep(list: seq<UnspentTxOut>, i: nat, tokenId: TokenId, target: nat)
    requires i < |list|
    ensures TargetImages(list[..i + 1], tokenId, target) ==
            TargetImages(list[..i], tokenId, target) +
            (if list[i].tokenId == tokenId && list[i].value == target then {list[i].keyImage} else {})
  {
    assert list[..i + 1] == list[..i] + [list[i]];
  }

  function DefragmentRequest(selected: seq<UnspentTxOut>, fee: nat, target: nat): (q: Request)
    requires target >= 1 && fee <= Sum(selected)
    ensures q.inputs == selected && Pays(q, fee) && AllTarget(q.outlays, Sum(selected), fee, target)
  {
    var n := TargetCount(Sum(selected), fee, target);
    Rebalance.TotalConstant(n, target);
    Request(selected, Repeated(n, target))
  }

  /** The coins considered for new transactions, largest first. */
  function Candidates(list: seq<UnspentTxOut>, tokenId: TokenId, target: nat): seq<UnspentTxOut> {
    SortDescending(OtherValues(list, tokenId, target))
  }

  lemma CandidatesAre(list: seq<UnspentTxOut>, tokenId: TokenId, target: nat)
    ensures Descending(Candidates(list, tokenId, target))
    ensures forall u :: multiset(Candidates(list, tokenId, target))[u] ==
                        if u.tokenId == tokenId && u.value != target then multiset(list)[u] else 0
    ensures forall u :: u in Candidates(list, tokenId, target) <==> u in list && u.tokenId == tokenId && u.value != target
  {
    var others := OtherValues(list, tokenId, target);
    SortDescendingSorts(others);
    forall u: UnspentTxOut
      ensures multiset(others)[u] == if u.tokenId == tokenId && u.value != target then multiset(list)[u] else 0
    {
      OtherValuesAre(list, tokenId, target, u);
    }
    forall u: UnspentTxOut
      ensures u in SortDescending(others) <==> u in list && u.tokenId == tokenId && u.value != target
    {
      assert u in SortDescending(others) <==> u in multiset(SortDescending(others));
      assert u in list <==> u in multiset(list);
    }
  }

  function SplitRequest(u: UnspentTxOut, fee: nat, target: nat): (q: Request)
    requires target >= 1 && u.value >= fee + target
    ensures q.inputs == [u] && Pays(q, fee) && q.outlays != [] && AllTarget(q.outlays, u.value, fee, target)
  {
    var n := TargetCount(u.value, fee, target);
    Rebalance.TotalConstant(n, target);
    Request([u], Repeated(n, target))
  }

  function RebalanceRequest(top: seq<UnspentTxOut>, fee: nat): (q: Request)
    requires fee <= Sum(top)
    ensures q.inputs == top && Pays(q, fee) && |q.outlays| == MAX_OUTPUTS - 1
    ensures forall v :: v in q.outlays ==> v == Rebalance.Average(Sum(top), fee)
  {
    Rebalance.TotalConstant(MAX_OUTPUTS - 1, Rebalance.Average(Sum(top), fee));
    Request(top, Repeated(MAX_OUTPUTS - 1, Rebalance.Average(Sum(top), fee)))
  }
}
