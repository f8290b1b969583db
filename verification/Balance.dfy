// Building a transaction: the balance sheet computed before input selection,
// the selection of inputs for each token in need, and the sheet computed again
// while building, which decides the change outputs.

module Balance {
  import opened Common
  import opened Wallet
  import opened Selection

  datatype Amount = Amount(value: U64, token: TokenId)

  /** What an input signed by somebody else asks for and offers. */
  datatype Sci = Sci(
    pseudoOutput: Amount,
    requiredOutputs: seq<Amount>,
    partialFillOutputs: seq<Amount>,
    partialFillChange: Option<Amount>,
    partialFillValue: U64)

  datatype BuildError =
    | NoDestination
    | InvalidSci
    | SlotUnderflow        // MAX_INPUTS - selected - scis went below zero
    | OutOfSlots
    | EmptySelection       // the assertion in select_utxos_for_value
    | SelectionFailed(cause: SelectError)
    | Shortfall            // a token is still in need while building
    | ChangeOverflow
    | WrongToken
    | FeeExceedsInputs

  datatype Proposal = Proposal(inputs: seq<UnspentTxOut>, outlays: seq<Amount>, change: map<TokenId, U64>)

  // ---- Balance sheets ----

  /** One signed posting: outlays are positive, inputs negative. */
  datatype Entry = Entry(token: TokenId, delta: int)

  type Sheet = map<TokenId, int>

  function BalanceOf(sheet: Sheet, token: TokenId): int {
    if token in sheet then sheet[token] else 0
  }

  /** What a list of postings comes to for one token. */
  function Total(entries: seq<Entry>, token: TokenId): int {
    if entries == [] then 0 else
      var last := entries[|entries| - 1];
      Total(entries[..|entries| - 1], token) + (if last.token == token then last.delta else 0)
  }

  lemma {:induction false} TotalConcat(a: seq<Entry>, b: seq<Entry>, token: TokenId)
    ensures Total(a + b, token) == Total(a, token) + Total(b, token)
  {
    if b == [] {
      assert a + b == a;
    } else {
      assert (a + b)[..|a + b| - 1] == a + b[..|b| - 1];
      TotalConcat(a, b[..|b| - 1], token);
    }
  }

  function TokensIn(entries: seq<Entry>): set<TokenId> {
    set e | e in entries :: e.token
  }

  lemma {:induction false} TotalAbsent(entries: seq<Entry>, token: TokenId)
    requires token !in TokensIn(entries)
    ensures Total(entries, token) == 0
  {
    if entries != [] {
      var init, last := entries[..|entries| - 1], entries[|entries| - 1];
      assert last in entries && forall e :: e in init ==> e in entries;
      TotalAbsent(init, token);
    }
  }

  /** The sheet says, token by token, what the postings come to. */
  ghost predicate Records(sheet: Sheet, entries: seq<Entry>) {
    forall token :: BalanceOf(sheet, token) == Total(entries, token)
  }

  method PostAll(sheet: Sheet, entries: seq<Entry>, ghost earlier: seq<Entry>) returns (r: Sheet)
    requires Records(sheet, earlier)
    ensures Records(r, earlier + entries)
  {
    r := sheet;
    assert earlier + entries[..0] == earlier;
    for i := 0 to |entries|
      invariant Records(r, earlier + entries[..i])
    {
      var entry := entries[i];
      assert (earlier + entries[..i + 1])[..|earlier| + i] == earlier + entries[..i];
      r := r[entry.token := BalanceOf(r, entry.token) + entry.delta];
    }
    assert earlier + entries[..|entries|] == earlier + entries;
  }

  function Postings(amounts: seq<Amount>): seq<Entry> {
    seq(|amounts|, i requires 0 <= i < |amounts| => Entry(amounts[i].token, amounts[i].value))
  }

  function Spendings(us: seq<UnspentTxOut>): seq<Entry> {
    seq(|us|, i requires 0 <= i < |us| => Entry(us[i].tokenId, -(us[i].value as int)))
  }

  function RoundedUp(value: nat, num: nat, denom: nat): nat
    requires denom > 0
  {
    (value * num + (denom - 1)) / denom
  }

  /** Every partial fill output, scaled by the fill fraction and rounded up. */
  function ScaledOutputs(outputs: seq<Amount>, num: nat, denom: nat): seq<Entry>
    requires denom > 0
  {
    seq(|outputs|, i requires 0 <= i < |outputs| => Entry(outputs[i].token, RoundedUp(outputs[i].value, num, denom)))
  }

  /** SignedContingentInputAmounts::add_to_balance_sheet */
  function SciEntries(sci: Sci): Result<seq<Entry>, BuildError> {
    var fixedPart := [Entry(sci.pseudoOutput.token, -(sci.pseudoOutput.value as int))] + Postings(sci.requiredOutputs);
    match sci.partialFillChange
    case None => if sci.partialFillValue != 0 then Err(InvalidSci) else Ok(fixedPart)
    case Some(change) =>
      if change.value == 0 || sci.partialFillValue > change.value then Err(InvalidSci) else
        Ok(fixedPart + [Entry(change.token, change.value - sci.partialFillValue)]
           + ScaledOutputs(sci.partialFillOutputs, sci.partialFillValue, change.value))
  }

  function AllSciEntries(scis: seq<Sci>): Result<seq<Entry>, BuildError> {
    if scis == [] then Ok([]) else
      match (AllSciEntries(scis[..|scis| - 1]), SciEntries(scis[|scis| - 1]))
      case (Err(e), _) => Err(e)
      case (_, Err(e)) => Err(e)
      case (Ok(a), Ok(b)) => Ok(a + b)
  }

  lemma {:induction false} MulCancel(q: nat, m: nat, d: nat)
    requires d > 0 && q * d < m * d
    ensures q < m
  {
    if q > 0 {
      assert (q - 1) * d == q * d - d && (m - 1) * d == m * d - d;
      MulCancel(q - 1, m - 1, d);
    }
  }

  /** A fill within the change never asks for more than the full output. */
  lemma FillWithinOutput(value: nat, num: nat, denom: nat)
    requires denom > 0 && num <= denom
    ensures RoundedUp(value, num, denom) <= value
  {
    var top := value * num + (denom - 1);
    var q := top / denom;
    assert value * num <= value * denom;
    assert (value + 1) * denom == value * denom + denom;
    assert q * denom <= top;
    MulCancel(q, value + 1, denom);
  }

  /** The rounded share is the least whole number not below the exact one. */
  lemma RoundedUpLeast(value: nat, num: nat, denom: nat, k: nat)
    requires denom > 0
    ensures RoundedUp(value, num, denom) * denom >= value * num
    ensures k * denom >= value * num ==> RoundedUp(value, num, denom) <= k
  {
    var exact := value * num;
    var q := RoundedUp(value, num, denom);
    assert q * denom <= exact + denom - 1 < q * denom + denom;
    if k * denom >= exact {
      assert (k + 1) * denom == k * denom + denom;
      MulCancel(q, k + 1, denom);
    }
  }

  // ---- What foreign inputs come to ----

  /** The value of the amounts in one token. */
  function AmountSum(amounts: seq<Amount>, token: TokenId): nat {
    if amounts == [] then 0
    else (if amounts[0].token == token then amounts[0].value else 0) + AmountSum(amounts[1..], token)
  }

  /** The same with every amount taken in part, rounded up. */
  function ShareSum(amounts: seq<Amount>, num: nat, denom: nat, token: TokenId): nat
    requires denom > 0
  {
    if amounts == [] then 0
    else (if amounts[0].token == token then RoundedUp(amounts[0].value, num, denom) else 0) + ShareSum(amounts[1..], num, denom, token)
  }

  /** Without partial fill nothing can be filled; with it, at most the change, which is not zero. */
  predicate FillFits(sci: Sci) {
    match sci.partialFillChange
    case None => sci.partialFillValue == 0
    case Some(change) => 0 < change.value && sci.partialFillValue <= change.value
  }

  predicate Fillable(scis: seq<Sci>) {
    forall sci :: sci in scis ==> FillFits(sci)
  }

  /** What partial fill adds: the rest of the change, and the filled share of every partial output. */
  function PartialSum(sci: Sci, token: TokenId): nat
    requires FillFits(sci)
  {
    match sci.partialFillChange
    case None => 0
    case Some(change) =>
      (if change.token == token then change.value - sci.partialFillValue else 0)
      + ShareSum(sci.partialFillOutputs, sci.partialFillValue, change.value, token)
  }

  /** What a foreign input takes of a token, less what it brings. */
  function SciNet(sci: Sci, token: TokenId): int
    requires FillFits(sci)
  {
    AmountSum(sci.requiredOutputs, token) + PartialSum(sci, token)
    - (if sci.pseudoOutput.token == token then sci.pseudoOutput.value else 0)
  }

  function ForeignNet(scis: seq<Sci>, token: TokenId): int
    requires Fillable(scis)
  {
    if scis == [] then 0 else ForeignNet(scis[..|scis| - 1], token) + SciNet(scis[|scis| - 1], token)
  }

  lemma SingleTotal(entry: Entry, token: TokenId)
    ensures Total([entry], token) == if entry.token == token then entry.delta else 0
  {
    assert [entry][..0] == [];
  }

  lemma {:induction false} PostingsTotal(amounts: seq<Amount>, token: TokenId)
    ensures Total(Postings(amounts), token) == AmountSum(amounts, token)
  {
    if amounts != [] {
      PostingsTotal(amounts[1..], token);
      var first := Entry(amounts[0].token, amounts[0].value);
      assert Postings(amounts) == [first] + Postings(amounts[1..]);
      TotalConcat([first], Postings(amounts[1..]), token);
      SingleTotal(first, token);
    }
  }

  lemma {:induction false} SharesTotal(amounts: seq<Amount>, num: nat, denom: nat, token: TokenId)
    requires denom > 0
    ensures Total(ScaledOutputs(amounts, num, denom), token) == ShareSum(amounts, num, denom, token)
  {
    if amounts != [] {
      SharesTotal(amounts[1..], num, denom, token);
      var first := Entry(amounts[0].token, RoundedUp(amounts[0].value, num, denom));
      assert ScaledOutputs(amounts, num, denom) == [first] + ScaledOutputs(amounts[1..], num, denom);
      TotalConcat([first], ScaledOutputs(amounts[1..], num, denom), token);
      SingleTotal(first, token);
    }
  }

  /** The postings of a foreign input: refused exactly if the fill does not fit, and otherwise, for every token, the
      required amounts, the rest of the change and the filled shares, less the input itself. */
  lemma SciMeans(sci: Sci, token: TokenId)
    ensures SciEntries(sci).Ok? <==> FillFits(sci)
    ensures FillFits(sci) ==> Total(SciEntries(sci).value, token) == SciNet(sci, token)
    ensures SciEntries(sci).Err? ==> SciEntries(sci).error == InvalidSci
  {
    if FillFits(sci) {
      var input, required := Entry(sci.pseudoOutput.token, -(sci.pseudoOutput.value as int)), Postings(sci.requiredOutputs);
      TotalConcat([input], required, token);
      SingleTotal(input, token);
      PostingsTotal(sci.requiredOutputs, token);
      if sci.partialFillChange.Some? {
        var change := sci.partialFillChange.value;
        var rest := Entry(change.token, change.value - sci.partialFillValue);
        var shares := ScaledOutputs(sci.partialFillOutputs, sci.partialFillValue, change.value);
        TotalConcat([input] + required + [rest], shares, token);
        TotalConcat([input] + required, [rest], token);
        SingleTotal(rest, token);
        SharesTotal(sci.partialFillOutputs, sci.partialFillValue, change.value, token);
      }
    }
  }

  lemma {:induction false} AllScisMean(scis: seq<Sci>, token: TokenId)
    ensures AllSciEntries(scis).Ok? <==> Fillable(scis)
    ensures Fillable(scis) ==> Total(AllSciEntries(scis).value, token) == ForeignNet(scis, token)
  {
    if scis != [] {
      var init, last := scis[..|scis| - 1], scis[|scis| - 1];
      assert scis == init + [last];
      AllScisMean(init, token);
      SciMeans(last, token);
      if Fillable(scis) {
        TotalConcat(AllSciEntries(init).value, SciEntries(last).value, token);
      }
    }
  }

  lemma AllScisFill(scis: seq<Sci>)
    ensures AllSciEntries(scis).Ok? <==> Fillable(scis)
  {
    AllScisMean(scis, 0);
  }

  // ---- Values per token ----

  function TokenSum(us: seq<UnspentTxOut>, token: TokenId): nat {
    Sum(OfToken(us, token))
  }

  lemma {:induction false} OfTokenConcat(a: seq<UnspentTxOut>, b: seq<UnspentTxOut>, token: TokenId)
    ensures OfToken(a + b, token) == OfToken(a, token) + OfToken(b, token)
  {
    if a == [] {
      assert a + b == b;
    } else {
      assert (a + b)[1..] == a[1..] + b;
      OfTokenConcat(a[1..], b, token);
    }
  }

  lemma TokenSumConcat(a: seq<UnspentTxOut>, b: seq<UnspentTxOut>, token: TokenId)
    ensures TokenSum(a + b, token) == TokenSum(a, token) + TokenSum(b, token)
  {
    OfTokenConcat(a, b, token);
    SumConcat(OfToken(a, token), OfToken(b, token));
  }

  lemma {:induction false} OfTokenContents(us: seq<UnspentTxOut>, token: TokenId, u: UnspentTxOut)
    ensures multiset(OfToken(us, token))[u] == if u.tokenId == token then multiset(us)[u] else 0
  {
    if us != [] {
      assert us == [us[0]] + us[1..];
      OfTokenContents(us[1..], token, u);
    }
  }

  /** Coins of one token only: all of its value, and nothing of any other. */
  lemma {:induction false} OneToken(us: seq<UnspentTxOut>, token: TokenId, other: TokenId)
    requires forall u :: u in us ==> u.tokenId == token
    ensures OfToken(us, other) == if other == token then us else []
  {
    if us != [] {
      OneToken(us[1..], token, other);
    }
  }

  lemma {:induction false} SpendingsTotal(us: seq<UnspentTxOut>, token: TokenId)
    ensures Total(Spendings(us), token) == 0 - TokenSum(us, token)
    decreases |us|
  {
    if us != [] {
      var init, last := us[..|us| - 1], us[|us| - 1];
      assert us == init + [last];
      assert Spendings(us)[..|us| - 1] == Spendings(init);
      SpendingsTotal(init, token);
      TokenSumConcat(init, [last], token);
      OneToken([last], last.tokenId, token);
      assert Sum([last]) == last.value;
    }
  }

  // ---- Change ----

  /** A payment request: the fee, what goes out, and inputs signed by others. */
  datatype Request = Request(feeToken: TokenId, fee: U64, outlays: seq<Amount>, scis: seq<Sci>)

  ghost predicate WellFormed(q: Request) {
    (q.outlays != [] || q.scis != []) && Fillable(q.scis)
  }

  /** What our own inputs must supply of a token: outlays, fee, and what foreign inputs take less what they bring. */
  ghost function Need(q: Request, token: TokenId): int
    requires Fillable(q.scis)
  {
    (if token == q.feeToken then q.fee else 0) + AmountSum(q.outlays, token) + ForeignNet(q.scis, token)
  }

  /** One change output for each token in surplus, worth the surplus, and none for any other. */
  ghost predicate ChangeExact(change: map<TokenId, U64>, sheet: Sheet) {
    forall token :: if BalanceOf(sheet, token) < 0 then token in change && change[token] == -BalanceOf(sheet, token) else token !in change
  }

  /** The token is neither in need nor in surplus beyond a u64. */
  predicate Settled(sheet: Sheet, token: TokenId) {
    -TWO64 < BalanceOf(sheet, token) <= 0
  }

  function UnsettledIn(sheet: Sheet): set<TokenId> {
    set token | token in sheet && !Settled(sheet, token)
  }

  function SettleError(balance: int): BuildError {
    if balance > 0 then Shortfall else ChangeOverflow
  }

  /** The last loop of build_tx_proposal, in token order: at most one change output is added for a token,
      and the first token that is short or has too much surplus decides the error. */
  method WriteChange(sheet: Sheet) returns (r: Result<map<TokenId, U64>, BuildError>)
    ensures r.Ok? <==> UnsettledIn(sheet) == {}
    ensures r.Ok? ==> ChangeExact(r.value, sheet)
    ensures r.Err? ==> r.error == SettleError(BalanceOf(sheet, LeastOf(UnsettledIn(sheet))))
  {
    var change: map<TokenId, U64> := map[];
    var todo := sheet.Keys;
    while todo != {}
      invariant todo <= sheet.Keys
      invariant forall token :: token in sheet.Keys - todo ==> Settled(sheet, token)
      invariant forall token ::
                  if token in sheet.Keys - todo && BalanceOf(sheet, token) < 0 then token in change && change[token] == -BalanceOf(sheet, token)
                  else token !in change
      decreases |todo|
    {
      LeastExists(todo);
      var token :| IsLeast(todo, token);
      var balance := sheet[token];
      assert BalanceOf(sheet, token) == balance;
      if balance > 0 {
        assert IsLeast(UnsettledIn(sheet), token);
        return Err(Shortfall);
      }
      if balance <= -TWO64 {
        assert IsLeast(UnsettledIn(sheet), token);
        return Err(ChangeOverflow);
      }
      if balance < 0 {
        assert token !in change;
        change := change[token := -balance];
      }
      todo := todo - {token};
    }
    return Ok(change);
  }

  // ---- build_tx_proposal ----

  function ChangeOf(change: map<TokenId, U64>, token: TokenId): nat {
    if token in change then change[token] else 0
  }

  /** Inputs are outlays, fee, foreign delta and change, for every token, with change exactly where there is surplus. */
  ghost predicate Conserves(q: Request, p: Proposal)
    requires Fillable(q.scis)
  {
    forall token ::
      && TokenSum(p.inputs, token) == Need(q, token) + ChangeOf(p.change, token)
      && (token in p.change <==> TokenSum(p.inputs, token) > Need(q, token))
  }

  ghost predicate Balances(q: Request, inputs: seq<UnspentTxOut>, token: TokenId)
    requires Fillable(q.scis)
  {
    Need(q, token) <= TokenSum(inputs, token) < Need(q, token) + TWO64
  }

  /** The inputs cover every need, and no surplus exceeds a u64. */
  ghost predicate Covers(q: Request, inputs: seq<UnspentTxOut>)
    requires Fillable(q.scis)
  {
    forall token :: Balances(q, inputs, token)
  }

  /** The sheet kept while building: needs less inputs, whatever the order of posting. */
  lemma BuildSheet(q: Request, inputs: seq<UnspentTxOut>, sheet: Sheet, token: TokenId)
    requires Fillable(q.scis)
    requires AllSciEntries(q.scis).Ok?
    requires Records(sheet, [Entry(q.feeToken, q.fee)] + Spendings(inputs) + AllSciEntries(q.scis).value + Postings(q.outlays))
    ensures BalanceOf(sheet, token) == Need(q, token) - TokenSum(inputs, token)
  {
    var first, mid, scis, last := [Entry(q.feeToken, q.fee)], Spendings(inputs), AllSciEntries(q.scis).value, Postings(q.outlays);
    TotalConcat(first + mid + scis, last, token);
    TotalConcat(first + mid, scis, token);
    TotalConcat(first, mid, token);
    SpendingsTotal(inputs, token);
    SingleTotal(Entry(q.feeToken, q.fee), token);
    PostingsTotal(q.outlays, token);
    AllScisMean(q.scis, token);
  }

  function TokensAmong(amounts: seq<Amount>): set<TokenId> {
    set amount | amount in amounts :: amount.token
  }

  function SciTokens(sci: Sci): set<TokenId> {
    {sci.pseudoOutput.token} + TokensAmong(sci.requiredOutputs) + TokensAmong(sci.partialFillOutputs)
    + (if sci.partialFillChange.Some? then {sci.partialFillChange.value.token} else {})
  }

  /** The tokens a request mentions. */
  ghost function TokensOf(q: Request): set<TokenId> {
    {q.feeToken} + TokensAmong(q.outlays) + set sci, token | sci in q.scis && token in SciTokens(sci) :: token
  }

  lemma {:induction false} SumAbsent(amounts: seq<Amount>, num: nat, denom: nat, token: TokenId)
    requires token !in TokensAmong(amounts) && denom > 0
    ensures AmountSum(amounts, token) == 0 && ShareSum(amounts, num, denom, token) == 0
  {
    if amounts != [] {
      assert amounts[0] in amounts && forall amount :: amount in amounts[1..] ==> amount in amounts;
      SumAbsent(amounts[1..], num, denom, token);
    }
  }

  lemma {:induction false} ForeignAbsent(scis: seq<Sci>, token: TokenId)
    requires Fillable(scis) && forall sci :: sci in scis ==> token !in SciTokens(sci)
    ensures ForeignNet(scis, token) == 0
  {
    if scis != [] {
      var last := scis[|scis| - 1];
      assert last in scis;
      ForeignAbsent(scis[..|scis| - 1], token);
      SumAbsent(last.requiredOutputs, 0, 1, token);
      if last.partialFillChange.Some? {
        SumAbsent(last.partialFillOutputs, last.partialFillValue, last.partialFillChange.value.value, token);
      }
    }
  }

  lemma NeedAbsent(q: Request, token: TokenId)
    requires Fillable(q.scis) && token !in TokensOf(q)
    ensures Need(q, token) == 0
  {
    SumAbsent(q.outlays, 0, 1, token);
    ForeignAbsent(q.scis, token);
  }

  /** The tokens of which the inputs are too little, or more than a u64 too much. */
  ghost function Unbalanced(q: Request, inputs: seq<UnspentTxOut>): set<TokenId>
    requires Fillable(q.scis)
  {
    set token | token in TokensOf(q) + TokensIn(Spendings(inputs)) && !Balances(q, inputs, token)
  }

  lemma UnbalancedExact(q: Request, inputs: seq<UnspentTxOut>, token: TokenId)
    requires Fillable(q.scis)
    ensures token in Unbalanced(q, inputs) <==> !Balances(q, inputs, token)
  {
    if token !in TokensOf(q) + TokensIn(Spendings(inputs)) {
      NeedAbsent(q, token);
      TotalAbsent(Spendings(inputs), token);
      SpendingsTotal(inputs, token);
    }
  }

  lemma CoversExact(q: Request, inputs: seq<UnspentTxOut>)
    requires Fillable(q.scis)
    ensures Covers(q, inputs) <==> Unbalanced(q, inputs) == {}
  {
    forall token
      ensures token in Unbalanced(q, inputs) <==> !Balances(q, inputs, token)
    {
      UnbalancedExact(q, inputs, token);
    }
  }

  lemma UnsettledIsUnbalanced(q: Request, inputs: seq<UnspentTxOut>, sheet: Sheet)
    requires Fillable(q.scis)
    requires forall token :: BalanceOf(sheet, token) == Need(q, token) - TokenSum(inputs, token)
    ensures UnsettledIn(sheet) == Unbalanced(q, inputs)
  {
    forall token
      ensures token in UnsettledIn(sheet) <==> token in Unbalanced(q, inputs)
    {
      UnbalancedExact(q, inputs, token);
    }
  }

  lemma ChangeConserves(q: Request, p: Proposal, sheet: Sheet)
    requires Fillable(q.scis)
    requires forall token :: BalanceOf(sheet, token) == Need(q, token) - TokenSum(p.inputs, token)
    requires ChangeExact(p.change, sheet) && Covers(q, p.inputs)
    ensures Conserves(q, p)
  {
    forall token
      ensures TokenSum(p.inputs, token) == Need(q, token) + ChangeOf(p.change, token)
      ensures token in p.change <==> TokenSum(p.inputs, token) > Need(q, token)
    {
      assert BalanceOf(sheet, token) == Need(q, token) - TokenSum(p.inputs, token);
      assert Balances(q, p.inputs, token);
    }
  }

  /** What the first unbalanced token makes of a build. */
  ghost function BuildVerdict(q: Request, inputs: seq<UnspentTxOut>): Option<BuildError>
    requires Fillable(q.scis)
  {
    if Unbalanced(q, inputs) == {} then None else
      var token := LeastOf(Unbalanced(q, inputs));
      Some(SettleError(Need(q, token) - TokenSum(inputs, token)))
  }

  /** Builder library failures aside, succeeds exactly on inputs that cover the request, and conserves every token. */
  method BuildTxProposal(q: Request, inputs: seq<UnspentTxOut>) returns (r: Result<Proposal, BuildError>)
    ensures r.Ok? <==> WellFormed(q) && Covers(q, inputs)
    ensures r.Ok? ==> r.value.inputs == inputs && r.value.outlays == q.outlays && Conserves(q, r.value)
    ensures WellFormed(q) && r.Err? ==> Some(r.error) == BuildVerdict(q, inputs)
    ensures !WellFormed(q) ==> r == Err(if q.outlays == [] && q.scis == [] then NoDestination else InvalidSci)
  {
    if q.outlays == [] && q.scis == [] {
      return Err(NoDestination);
    }
    var sheet := PostAll(map[], [Entry(q.feeToken, q.fee)], []);
    sheet := PostAll(sheet, Spendings(inputs), [] + [Entry(q.feeToken, q.fee)]);
    var sci := AllSciEntries(q.scis);
    AllScisFill(q.scis);
    if sci.Err? {
      return Err(InvalidSci);
    }
    ghost var fee := [Entry(q.feeToken, q.fee)];
    assert [] + fee == fee;
    sheet := PostAll(sheet, sci.value, fee + Spendings(inputs));
    sheet := PostAll(sheet, Postings(q.outlays), fee + Spendings(inputs) + sci.value);
    forall token
      ensures BalanceOf(sheet, token) == Need(q, token) - TokenSum(inputs, token)
    {
      BuildSheet(q, inputs, sheet, token);
    }
    CoversExact(q, inputs);
    UnsettledIsUnbalanced(q, inputs, sheet);
    var change := WriteChange(sheet);
    if change.Err? {
      return Err(change.error);
    }
    var p := Proposal(inputs, q.outlays, change.value);
    ChangeConserves(q, p, sheet);
    return Ok(p);
  }

  // ---- build_mixed_transaction ----

  /** The selection holds coins of the wallet only, token by token. */
  ghost predicate Drawn(selected: seq<UnspentTxOut>, inputs: seq<UnspentTxOut>) {
    forall token :: multiset(OfToken(selected, token)) <= multiset(OfToken(inputs, token))
  }

  lemma DrawnIsPart(selected: seq<UnspentTxOut>, inputs: seq<UnspentTxOut>)
    requires Drawn(selected, inputs)
    ensures multiset(selected) <= multiset(inputs)
    ensures forall token :: TokenSum(selected, token) <= TokenSum(inputs, token)
  {
    forall u
      ensures multiset(selected)[u] <= multiset(inputs)[u]
    {
      OfTokenContents(selected, u.tokenId, u);
      OfTokenContents(inputs, u.tokenId, u);
      assert multiset(OfToken(selected, u.tokenId)) <= multiset(OfToken(inputs, u.tokenId));
    }
    forall token
      ensures TokenSum(selected, token) <= TokenSum(inputs, token)
    {
      SumPart(OfToken(selected, token), OfToken(inputs, token));
    }
  }

  lemma {:induction false} OfTokenIsToken(us: seq<UnspentTxOut>, token: TokenId)
    ensures forall u :: u in OfToken(us, token) ==> u.tokenId == token
  {
    if us != [] {
      OfTokenIsToken(us[1..], token);
    }
  }

  /** Every token in need that fits a u64 is supplied, and nothing of any other token is selected. */
  ghost predicate Supplied(needs: map<TokenId, int>, selected: seq<UnspentTxOut>) {
    forall token ::
      if token in needs then needs[token] < TWO64 ==> TokenSum(selected, token) >= needs[token]
      else OfToken(selected, token) == []
  }

  lemma PartIsToken(more: seq<UnspentTxOut>, inputs: seq<UnspentTxOut>, token: TokenId)
    requires multiset(more) <= multiset(OfToken(inputs, token))
    ensures forall u :: u in more ==> u.tokenId == token
  {
    OfTokenIsToken(inputs, token);
    forall u | u in more
      ensures u.tokenId == token
    {
      assert u in multiset(more);
      assert u in multiset(OfToken(inputs, token));
    }
  }

  lemma OfTokenJoined(first: seq<UnspentTxOut>, rest: seq<UnspentTxOut>, token: TokenId, other: TokenId)
    requires (forall u :: u in first ==> u.tokenId == token) && OfToken(rest, token) == []
    ensures OfToken(first + rest, other) == if other == token then first else OfToken(rest, other)
  {
    OfTokenConcat(first, rest, other);
    OneToken(first, token, other);
    assert first + [] == first && [] + OfToken(rest, other) == OfToken(rest, other);
  }

  /** Some coins within the cap reach the value. */
  ghost predicate Payable(own: seq<UnspentTxOut>, value: nat, cap: nat) {
    exists chosen :: Sufficient(own, chosen, value, cap)
  }

  /** What selecting for one token in need comes to: `as u64` drops what exceeds a machine word. */
  ghost function Drawing(token: TokenId, need: int, inputs: seq<UnspentTxOut>, used: nat): Result<seq<UnspentTxOut>, BuildError>
    requires need > 0
  {
    var own, value := OfToken(inputs, token), need % TWO64;
    if used > MAX_INPUTS then Err(SlotUnderflow)
    else if used == MAX_INPUTS then Err(OutOfSlots)
    else if value == 0 then Err(EmptySelection)
    else if Payable(own, value, MAX_INPUTS - used) then Ok(Picked(own, value, MAX_INPUTS - used))
    else Err(SelectionFailed(if Sum(own) >= value then InsufficientFundsFragmentedUtxos else InsufficientFunds))
  }

  /** Inputs for one token in need: succeeds exactly when a slot is left, the need does not truncate to nothing, and
      some choice within the slots reaches what is left of it. */
  method SelectForToken(token: TokenId, need: int, inputs: seq<UnspentTxOut>, used: nat) returns (r: Result<seq<UnspentTxOut>, BuildError>)
    requires need > 0 && TokenSum(inputs, token) < TWO64
    ensures r == Drawing(token, need, inputs, used)
    ensures r.Ok? <==> used < MAX_INPUTS && need % TWO64 > 0 && Payable(OfToken(inputs, token), need % TWO64, MAX_INPUTS - used)
    ensures r.Ok? ==> Sufficient(OfToken(inputs, token), r.value, need % TWO64, MAX_INPUTS - used)
    ensures r == Err(SlotUnderflow) <==> used > MAX_INPUTS
    ensures r == Err(OutOfSlots) <==> used == MAX_INPUTS
    ensures r == Err(EmptySelection) <==> used < MAX_INPUTS && need % TWO64 == 0
  {
    if used > MAX_INPUTS {
      return Err(SlotUnderflow);
    }
    var slots := MAX_INPUTS - used;
    if slots == 0 {
      return Err(OutOfSlots);
    }
    var value := need % TWO64;
    if value == 0 {
      return Err(EmptySelection);
    }
    var selected := SelectUtxosForValue(token, inputs, value, slots);
    if selected.Err? {
      return Err(SelectionFailed(selected.error));
    }
    return Ok(selected.value);
  }

  /** A way to select inputs for one token, given its need and the slots already used. */
  type Draw = (TokenId, int, nat) -> Result<seq<UnspentTxOut>, BuildError>

  ghost function DrawFrom(inputs: seq<UnspentTxOut>): Draw {
    (token: TokenId, need: int, used: nat) => if need > 0 then Drawing(token, need, inputs, used) else Ok([])
  }

  /** What is drawn are the wallet's own coins of the token, within the slots, and enough for a need that fits a u64. */
  ghost predicate Draws(draw: Draw, inputs: seq<UnspentTxOut>) {
    forall token: TokenId, need: int, used: nat :: need > 0 && draw(token, need, used).Ok? ==>
      DrawsFor(inputs, token, need, used, draw(token, need, used).value)
  }

  ghost predicate DrawsFor(inputs: seq<UnspentTxOut>, token: TokenId, need: int, used: nat, more: seq<UnspentTxOut>) {
    && multiset(more) <= multiset(OfToken(inputs, token)) && used + |more| <= MAX_INPUTS
    && (need < TWO64 ==> Sum(more) >= need)
  }

  lemma DrawingGood(token: TokenId, need: int, inputs: seq<UnspentTxOut>, used: nat)
    requires need > 0 && Drawing(token, need, inputs, used).Ok?
    ensures DrawsFor(inputs, token, need, used, Drawing(token, need, inputs, used).value)
  {
    PickedGood(OfToken(inputs, token), need % TWO64, MAX_INPUTS - used);
  }

  lemma DrawFromDraws(inputs: seq<UnspentTxOut>)
    ensures Draws(DrawFrom(inputs), inputs)
  {
    var draw := DrawFrom(inputs);
    forall token: TokenId, need: int, used: nat | need > 0 && draw(token, need, used).Ok?
      ensures DrawsFor(inputs, token, need, used, draw(token, need, used).value)
    {
      DrawingGood(token, need, inputs, used);
    }
  }

  /** Selection in token order: each token takes the slots the earlier ones have left. */
  ghost function Greedy(draw: Draw, needs: map<TokenId, int>, used: nat): Result<seq<UnspentTxOut>, BuildError>
    decreases |needs.Keys|
  {
    if needs.Keys == {} then Ok([]) else
      var token := LeastOf(needs.Keys);
      match draw(token, needs[token], used)
      case Err(e) => Err(e)
      case Ok(first) => Joined(first, Greedy(draw, needs - {token}, used + |first|))
  }

  /** The selection from the wallet's coins. */
  ghost function Chosen(needs: map<TokenId, int>, inputs: seq<UnspentTxOut>, used: nat): Result<seq<UnspentTxOut>, BuildError> {
    Greedy(DrawFrom(inputs), needs, used)
  }

  function Joined(first: seq<UnspentTxOut>, rest: Result<seq<UnspentTxOut>, BuildError>): Result<seq<UnspentTxOut>, BuildError> {
    match rest
    case Ok(more) => Ok(first + more)
    case Err(e) => Err(e)
  }

  function Wants(sheet: Sheet, todo: set<TokenId>): map<TokenId, int> {
    map token | token in sheet && token in todo && sheet[token] > 0 :: sheet[token]
  }

  lemma WantsStep(sheet: Sheet, todo: set<TokenId>, token: TokenId)
    requires todo <= sheet.Keys && IsLeast(todo, token)
    ensures sheet[token] <= 0 ==> Wants(sheet, todo) == Wants(sheet, todo - {token})
    ensures sheet[token] > 0 ==> Wants(sheet, todo) - {token} == Wants(sheet, todo - {token}) && IsLeast(Wants(sheet, todo).Keys, token)
  {
  }

  lemma GreedyStep(draw: Draw, sheet: Sheet, todo: set<TokenId>, used: nat, token: TokenId)
    requires todo <= sheet.Keys && IsLeast(todo, token)
    ensures var rest := Wants(sheet, todo - {token});
            Greedy(draw, Wants(sheet, todo), used) ==
            if sheet[token] <= 0 then Greedy(draw, rest, used)
            else match draw(token, sheet[token], used)
              case Err(e) => Err(e)
              case Ok(first) => Joined(first, Greedy(draw, rest, used + |first|))
  {
    WantsStep(sheet, todo, token);
  }

  lemma JoinedEmpty(rest: Result<seq<UnspentTxOut>, BuildError>)
    ensures Joined([], rest) == rest
  {
    if rest.Ok? {
      assert [] + rest.value == rest.value;
    }
  }

  lemma JoinedTwice(a: seq<UnspentTxOut>, b: seq<UnspentTxOut>, rest: Result<seq<UnspentTxOut>, BuildError>)
    ensures Joined(a, Joined(b, rest)) == Joined(a + b, rest)
  {
    if rest.Ok? {
      assert a + (b + rest.value) == a + b + rest.value;
    }
  }

  /** What is selected so far and what greedy selection makes of the rest come to the whole. */
  ghost predicate SoFar(draw: Draw, sheet: Sheet, numScis: nat, selected: seq<UnspentTxOut>, todo: set<TokenId>) {
    Greedy(draw, Wants(sheet, sheet.Keys), numScis) == Joined(selected, Greedy(draw, Wants(sheet, todo), numScis + |selected|))
  }

  lemma TurnSkipped(draw: Draw, sheet: Sheet, numScis: nat, selected: seq<UnspentTxOut>, todo: set<TokenId>, token: TokenId)
    requires todo <= sheet.Keys && IsLeast(todo, token) && sheet[token] <= 0
    requires SoFar(draw, sheet, numScis, selected, todo)
    ensures SoFar(draw, sheet, numScis, selected, todo - {token})
  {
    WantsStep(sheet, todo, token);
  }

  lemma TurnTaken(draw: Draw, sheet: Sheet, numScis: nat, selected: seq<UnspentTxOut>, todo: set<TokenId>, token: TokenId)
    requires todo <= sheet.Keys && IsLeast(todo, token) && sheet[token] > 0
    requires SoFar(draw, sheet, numScis, selected, todo)
    ensures var more := draw(token, sheet[token], numScis + |selected|);
            if more.Err? then Greedy(draw, Wants(sheet, sheet.Keys), numScis) == Err(more.error)
            else SoFar(draw, sheet, numScis, selected + more.value, todo - {token})
  {
    var used := numScis + |selected|;
    GreedyStep(draw, sheet, todo, used, token);
    var more := draw(token, sheet[token], used);
    if more.Ok? {
      JoinedTwice(selected, more.value, Greedy(draw, Wants(sheet, todo - {token}), used + |more.value|));
    }
  }

  ghost predicate DrawsAs(draw: Draw, inputs: seq<UnspentTxOut>, token: TokenId, need: int, used: nat) {
    need > 0 ==> draw(token, need, used) == Drawing(token, need, inputs, used)
  }

  method SelectNext(token: TokenId, need: int, inputs: seq<UnspentTxOut>, used: nat, ghost draw: Draw) returns (r: Result<seq<UnspentTxOut>, BuildError>)
    requires need > 0 && TokenSum(inputs, token) < TWO64
    requires forall token: TokenId, need: int, used: nat :: DrawsAs(draw, inputs, token, need, used)
    ensures r == draw(token, need, used)
  {
    assert DrawsAs(draw, inputs, token, need, used);
    r := SelectForToken(token, need, inputs, used);
  }

  /** Selects inputs for every token in need, in token order. */
  method SelectInputs(sheet: Sheet, inputs: seq<UnspentTxOut>, numScis: nat) returns (r: Result<seq<UnspentTxOut>, BuildError>)
    requires forall token :: TokenSum(inputs, token) < TWO64
    ensures r == Chosen(Wants(sheet, sheet.Keys), inputs, numScis)
    ensures r.Ok? ==> Drawn(r.value, inputs) && Supplied(Wants(sheet, sheet.Keys), r.value)
    ensures r.Ok? && numScis <= MAX_INPUTS ==> numScis + |r.value| <= MAX_INPUTS
    ensures r == Err(SlotUnderflow) ==> numScis > MAX_INPUTS
    ensures r == Err(EmptySelection) ==> exists token :: BalanceOf(sheet, token) >= TWO64
  {
    r := SelectEach(sheet, inputs, numScis, DrawFrom(inputs));
    var needs := Wants(sheet, sheet.Keys);
    if r.Ok? {
      SelectionGood(needs, inputs, numScis);
    } else {
      SelectionFails(needs, inputs, numScis);
      assert forall token :: token in needs ==> needs[token] == BalanceOf(sheet, token);
    }
  }

  method SelectTurn(sheet: Sheet, inputs: seq<UnspentTxOut>, numScis: nat, selected: seq<UnspentTxOut>, todo: set<TokenId>, token: TokenId, ghost draw: Draw)
    returns (r: Result<seq<UnspentTxOut>, BuildError>)
    requires todo <= sheet.Keys && IsLeast(todo, token) && TokenSum(inputs, token) < TWO64
    requires forall token: TokenId, need: int, used: nat :: DrawsAs(draw, inputs, token, need, used)
    requires SoFar(draw, sheet, numScis, selected, todo)
    ensures r.Ok? ==> SoFar(draw, sheet, numScis, r.value, todo - {token})
    ensures r.Err? ==> Greedy(draw, Wants(sheet, sheet.Keys), numScis) == r
  {
    if sheet[token] <= 0 {
      TurnSkipped(draw, sheet, numScis, selected, todo, token);
      return Ok(selected);
    }
    var more := SelectNext(token, sheet[token], inputs, numScis + |selected|, draw);
    TurnTaken(draw, sheet, numScis, selected, todo, token);
    if more.Err? {
      return more;
    }
    return Ok(selected + more.value);
  }

  /** The selection loop, whatever `draw` stands for the selection of one token. */
  method SelectEach(sheet: Sheet, inputs: seq<UnspentTxOut>, numScis: nat, ghost draw: Draw) returns (r: Result<seq<UnspentTxOut>, BuildError>)
    requires forall token :: TokenSum(inputs, token) < TWO64
    requires forall token: TokenId, need: int, used: nat :: DrawsAs(draw, inputs, token, need, used)
    ensures r == Greedy(draw, Wants(sheet, sheet.Keys), numScis)
  {
    var selected: seq<UnspentTxOut> := [];
    var todo := sheet.Keys;
    JoinedEmpty(Greedy(draw, Wants(sheet, sheet.Keys), numScis));
    while todo != {}
      invariant todo <= sheet.Keys
      invariant SoFar(draw, sheet, numScis, selected, todo)
      decreases |todo|
    {
      LeastExists(todo);
      var token :| IsLeast(todo, token);
      var turn := SelectTurn(sheet, inputs, numScis, selected, todo, token, draw);
      if turn.Err? {
        return turn;
      }
      selected := turn.value;
      todo := todo - {token};
    }
    assert Wants(sheet, {}).Keys == {};
    assert selected + [] == selected;
    return Ok(selected);
  }

  lemma SupplyStep(needs: map<TokenId, int>, inputs: seq<UnspentTxOut>, token: TokenId, first: seq<UnspentTxOut>, rest: seq<UnspentTxOut>)
    requires token in needs && multiset(first) <= multiset(OfToken(inputs, token))
    requires needs[token] < TWO64 ==> Sum(first) >= needs[token]
    requires Supplied(needs - {token}, rest) && Drawn(rest, inputs)
    ensures Supplied(needs, first + rest) && Drawn(first + rest, inputs)
  {
    PartIsToken(first, inputs, token);
    assert OfToken(rest, token) == [];
    forall other
      ensures OfToken(first + rest, other) == if other == token then first else OfToken(rest, other)
    {
      OfTokenJoined(first, rest, token, other);
    }
    SupplyJoined(needs, inputs, token, first, rest, first + rest);
  }

  lemma SupplyJoined(needs: map<TokenId, int>, inputs: seq<UnspentTxOut>, token: TokenId, first: seq<UnspentTxOut>, rest: seq<UnspentTxOut>, both: seq<UnspentTxOut>)
    requires token in needs && multiset(first) <= multiset(OfToken(inputs, token))
    requires needs[token] < TWO64 ==> Sum(first) >= needs[token]
    requires Supplied(needs - {token}, rest) && Drawn(rest, inputs)
    requires forall other :: OfToken(both, other) == if other == token then first else OfToken(rest, other)
    ensures Supplied(needs, both) && Drawn(both, inputs)
  {
    forall other
      ensures if other in needs then needs[other] < TWO64 ==> TokenSum(both, other) >= needs[other] else OfToken(both, other) == []
    {
      assert other != token ==> (other in needs <==> other in needs - {token});
    }
  }

  /** A selection holds the wallet's own coins, within the cap, and supplies every need that fits a u64. */
  lemma {:induction false} GreedyGood(draw: Draw, needs: map<TokenId, int>, inputs: seq<UnspentTxOut>, used: nat)
    requires Draws(draw, inputs) && forall token :: token in needs ==> needs[token] > 0
    requires Greedy(draw, needs, used).Ok?
    ensures var selected := Greedy(draw, needs, used).value;
            && Drawn(selected, inputs) && Supplied(needs, selected)
            && (used <= MAX_INPUTS ==> used + |selected| <= MAX_INPUTS)
    decreases |needs.Keys|
  {
    if needs.Keys != {} {
      var token := LeastOf(needs.Keys);
      var first := draw(token, needs[token], used).value;
      GreedyGood(draw, needs - {token}, inputs, used + |first|);
      SupplyStep(needs, inputs, token, first, Greedy(draw, needs - {token}, used + |first|).value);
    }
  }

  /** The ways a selection can fail, and what each takes. */
  ghost predicate FailsOnlyFor(draw: Draw, token: TokenId, need: int, used: nat) {
    var r := draw(token, need, used);
    && (r.Ok? && used <= MAX_INPUTS ==> used + |r.value| <= MAX_INPUTS)
    && (r.Err? ==> r.error.SlotUnderflow? || r.error.OutOfSlots? || r.error.EmptySelection? || r.error.SelectionFailed?)
    && (r == Err(SlotUnderflow) ==> used > MAX_INPUTS)
    && (r == Err(EmptySelection) ==> need >= TWO64)
  }

  lemma DrawFromFails(inputs: seq<UnspentTxOut>, token: TokenId, need: int, used: nat)
    ensures FailsOnlyFor(DrawFrom(inputs), token, need, used)
  {
    if need > 0 && Drawing(token, need, inputs, used).Ok? {
      DrawingGood(token, need, inputs, used);
    }
  }

  lemma {:induction false} GreedyFails(draw: Draw, needs: map<TokenId, int>, used: nat)
    requires forall token: TokenId, need: int, used: nat :: FailsOnlyFor(draw, token, need, used)
    requires Greedy(draw, needs, used).Err?
    ensures var e := Greedy(draw, needs, used).error;
            && (e.SlotUnderflow? || e.OutOfSlots? || e.EmptySelection? || e.SelectionFailed?)
            && (e == SlotUnderflow ==> used > MAX_INPUTS)
            && (e == EmptySelection ==> exists token :: token in needs && needs[token] >= TWO64)
    decreases |needs.Keys|
  {
    var token := LeastOf(needs.Keys);
    assert FailsOnlyFor(draw, token, needs[token], used);
    var first := draw(token, needs[token], used);
    if first.Ok? {
      GreedyFails(draw, needs - {token}, used + |first.value|);
    }
  }

  lemma SelectionFails(needs: map<TokenId, int>, inputs: seq<UnspentTxOut>, used: nat)
    requires Chosen(needs, inputs, used).Err?
    ensures var e := Chosen(needs, inputs, used).error;
            && (e.SlotUnderflow? || e.OutOfSlots? || e.EmptySelection? || e.SelectionFailed?)
            && (e == SlotUnderflow ==> used > MAX_INPUTS)
            && (e == EmptySelection ==> exists token :: token in needs && needs[token] >= TWO64)
  {
    var draw := DrawFrom(inputs);
    forall token: TokenId, need: int, used: nat
      ensures FailsOnlyFor(draw, token, need, used)
    {
      DrawFromFails(inputs, token, need, used);
    }
    GreedyFails(draw, needs, used);
  }

  lemma SelectionGood(needs: map<TokenId, int>, inputs: seq<UnspentTxOut>, used: nat)
    requires forall token :: token in needs ==> needs[token] > 0
    requires Chosen(needs, inputs, used).Ok?
    ensures var selected := Chosen(needs, inputs, used).value;
            && Drawn(selected, inputs) && Supplied(needs, selected)
            && (used <= MAX_INPUTS ==> used + |selected| <= MAX_INPUTS)
  {
    DrawFromDraws(inputs);
    GreedyGood(DrawFrom(inputs), needs, inputs, used);
  }

  /** One token in need: what selecting for it alone gives. */
  lemma GreedyOne(draw: Draw, needs: map<TokenId, int>, used: nat, token: TokenId)
    requires needs.Keys == {token}
    ensures Greedy(draw, needs, used) == draw(token, needs[token], used)
  {
    assert LeastOf(needs.Keys) == token;
    assert (needs - {token}).Keys == {};
    var first := draw(token, needs[token], used);
    if first.Ok? {
      assert first.value + [] == first.value;
    }
  }

  /** What decides a selection: whether a token can be paid with the slots used so far, how many of its smallest coins it
      takes, and whether its coins suffice at all. */
  datatype Measure = Measure(
    pays: (TokenId, int, nat) -> bool,
    fewest: (TokenId, int) -> nat,
    covers: (TokenId, int) -> bool)

  ghost function MeasureOf(inputs: seq<UnspentTxOut>): Measure {
    Measure((token: TokenId, need: int, used: nat) =>
              used < MAX_INPUTS && need > 0 && Payable(OfToken(inputs, token), need, MAX_INPUTS - used),
            (token: TokenId, need: int) => if need > 0 then Fewest(OfToken(inputs, token), need) else 0,
            (token: TokenId, need: int) => TokenSum(inputs, token) >= need)
  }

  /** Every token but the last has enough coins, and its smallest ones leave a slot; the last can be paid in what is left. */
  ghost predicate FitsBy(m: Measure, needs: map<TokenId, int>, used: nat)
    decreases |needs.Keys|
  {
    if needs.Keys == {} then true else
      var token := LeastOf(needs.Keys);
      var need := needs[token];
      if needs.Keys == {token} then m.pays(token, need, used)
      else
        && m.covers(token, need) && used + m.fewest(token, need) < MAX_INPUTS
        && FitsBy(m, needs - {token}, used + m.fewest(token, need))
  }

  ghost predicate Fits(needs: map<TokenId, int>, inputs: seq<UnspentTxOut>, used: nat) {
    FitsBy(MeasureOf(inputs), needs, used)
  }

  /** The measure describes the selection of one token. */
  ghost predicate Measures(m: Measure, draw: Draw, token: TokenId, need: int, used: nat) {
    0 < need < TWO64 ==>
      var r := draw(token, need, used);
      && (r.Ok? ==> used < MAX_INPUTS)
      && (r.Ok? <==> m.pays(token, need, used))
      && (r.Ok? && used + |r.value| < MAX_INPUTS <==> m.covers(token, need) && used + m.fewest(token, need) < MAX_INPUTS)
      && (m.covers(token, need) && used + m.fewest(token, need) < MAX_INPUTS ==> |r.value| == m.fewest(token, need))
  }

  lemma MeasureOfMeasures(inputs: seq<UnspentTxOut>, token: TokenId, need: int, used: nat)
    ensures Measures(MeasureOf(inputs), DrawFrom(inputs), token, need, used)
  {
    if 0 < need < TWO64 && used < MAX_INPUTS {
      assert need % TWO64 == need;
      SlotsLeft(OfToken(inputs, token), need, MAX_INPUTS - used);
    }
  }

  lemma {:induction false} GreedyOverfull(draw: Draw, m: Measure, needs: map<TokenId, int>, used: nat)
    requires forall token: TokenId, need: int, used: nat :: Measures(m, draw, token, need, used)
    requires needs.Keys != {} && (forall token :: token in needs ==> 0 < needs[token] < TWO64) && used >= MAX_INPUTS
    ensures Greedy(draw, needs, used).Err?
  {
    var token := LeastOf(needs.Keys);
    assert Measures(m, draw, token, needs[token], used);
  }

  lemma {:induction false} GreedyFits(draw: Draw, m: Measure, needs: map<TokenId, int>, used: nat)
    requires forall token: TokenId, need: int, used: nat :: Measures(m, draw, token, need, used)
    requires forall token :: token in needs ==> 0 < needs[token] < TWO64
    ensures Greedy(draw, needs, used).Ok? <==> FitsBy(m, needs, used)
    decreases |needs.Keys|
  {
    if needs.Keys != {} {
      var token := LeastOf(needs.Keys);
      assert Measures(m, draw, token, needs[token], used);
      if needs.Keys == {token} {
        GreedyOne(draw, needs, used, token);
      } else {
        var first, rest := draw(token, needs[token], used), needs - {token};
        assert rest.Keys == needs.Keys - {token};
        if first.Ok? {
          if used + |first.value| < MAX_INPUTS {
            GreedyFits(draw, m, rest, used + |first.value|);
          } else {
            GreedyOverfull(draw, m, rest, used + |first.value|);
          }
        }
      }
    }
  }

  /** For needs below 2^64 the selection succeeds exactly if it fits. */
  lemma SelectionFits(needs: map<TokenId, int>, inputs: seq<UnspentTxOut>, used: nat)
    requires forall token :: token in needs ==> 0 < needs[token] < TWO64
    ensures Chosen(needs, inputs, used).Ok? <==> Fits(needs, inputs, used)
  {
    var draw, m := DrawFrom(inputs), MeasureOf(inputs);
    forall token: TokenId, need: int, used: nat
      ensures Measures(m, draw, token, need, used)
    {
      MeasureOfMeasures(inputs, token, need, used);
    }
    GreedyFits(draw, m, needs, used);
  }

  /** The sheet computed before selection says what each token needs. */
  lemma NeedSheet(q: Request, sheet: Sheet, token: TokenId)
    requires Fillable(q.scis)
    requires AllSciEntries(q.scis).Ok?
    requires Records(sheet, [Entry(q.feeToken, q.fee)] + Postings(q.outlays) + AllSciEntries(q.scis).value)
    ensures BalanceOf(sheet, token) == Need(q, token)
  {
    var first, outlays, scis := [Entry(q.feeToken, q.fee)], Postings(q.outlays), AllSciEntries(q.scis).value;
    TotalConcat(first + outlays, scis, token);
    TotalConcat(first, outlays, token);
    SingleTotal(Entry(q.feeToken, q.fee), token);
    PostingsTotal(q.outlays, token);
    AllScisMean(q.scis, token);
  }

  /** What a request needs of each token. */
  ghost function Needs(q: Request): map<TokenId, int>
    requires Fillable(q.scis)
  {
    map token | token in TokensOf(q) && Need(q, token) > 0 :: Need(q, token)
  }

  /** Every need, and every surplus foreign inputs bring, is below 2^64. */
  ghost predicate Modest(q: Request)
    requires Fillable(q.scis)
  {
    forall token :: -TWO64 < Need(q, token) < TWO64
  }

  /** The outcome of a whole build: nothing on success, or the error. */
  ghost function Verdict(q: Request, inputs: seq<UnspentTxOut>): Option<BuildError> {
    if q.outlays == [] && q.scis == [] then Some(NoDestination)
    else if !Fillable(q.scis) then Some(InvalidSci)
    else match Chosen(Needs(q), inputs, |q.scis|)
      case Err(e) => Some(e)
      case Ok(selected) => BuildVerdict(q, selected)
  }

  lemma WantsAreNeeds(q: Request, sheet: Sheet)
    requires Fillable(q.scis)
    requires forall token :: BalanceOf(sheet, token) == Need(q, token)
    ensures Wants(sheet, sheet.Keys) == Needs(q)
  {
    forall token
      ensures token in Wants(sheet, sheet.Keys) <==> token in Needs(q)
    {
      assert BalanceOf(sheet, token) == Need(q, token);
      if token !in TokensOf(q) {
        NeedAbsent(q, token);
      }
    }
  }

  /** An Ok proposal conserves every token and keeps the input cap. */
  method BuildMixedTransaction(q: Request, inputs: seq<UnspentTxOut>) returns (r: Result<Proposal, BuildError>)
    requires forall token :: TokenSum(inputs, token) < TWO64
    ensures r.Ok? <==> Verdict(q, inputs) == None
    ensures r.Err? ==> Verdict(q, inputs) == Some(r.error)
    ensures r.Ok? ==> Conserves(q, r.value) && multiset(r.value.inputs) <= multiset(inputs) && r.value.outlays == q.outlays
    ensures r.Ok? && |q.scis| <= MAX_INPUTS ==> |r.value.inputs| + |q.scis| <= MAX_INPUTS
    ensures WellFormed(q) && Modest(q) ==> forall token :: Needs(q).Keys == {token} ==>
              (r.Ok? <==> |q.scis| < MAX_INPUTS && Payable(OfToken(inputs, token), Need(q, token), MAX_INPUTS - |q.scis|))
    ensures r.Ok? <==> WellFormed(q) && Modest(q) && Fits(Needs(q), inputs, |q.scis|)
    ensures |q.scis| <= MAX_INPUTS ==> r != Err(SlotUnderflow)
    ensures Fillable(q.scis) && (forall token :: Need(q, token) < TWO64) ==> r != Err(Shortfall) && r != Err(EmptySelection)
    ensures Fillable(q.scis) && (exists token :: Need(q, token) >= TWO64) ==> r.Err?
  {
    if q.outlays == [] && q.scis == [] {
      return Err(NoDestination);
    }
    var sheet := NeedsSheet(q);
    if sheet.Err? {
      return Err(InvalidSci);
    }
    r := SelectAndBuild(q, inputs, sheet.value);
    VerdictMeans(q, inputs);
    OneTokenPayable(q, inputs);
    if Modest(q) {
      SelectionFits(Needs(q), inputs, |q.scis|);
    }
    VerdictAvoids(q, inputs);
  }

  /** The balance sheet computed before selection. */
  method NeedsSheet(q: Request) returns (r: Result<Sheet, BuildError>)
    ensures r.Ok? <==> Fillable(q.scis)
    ensures r.Ok? ==> Wants(r.value, r.value.Keys) == Needs(q)
  {
    var sheet := PostAll(map[], [Entry(q.feeToken, q.fee)], []);
    ghost var fee := [Entry(q.feeToken, q.fee)];
    assert [] + fee == fee;
    sheet := PostAll(sheet, Postings(q.outlays), fee);
    var sci := AllSciEntries(q.scis);
    AllScisFill(q.scis);
    if sci.Err? {
      return Err(InvalidSci);
    }
    sheet := PostAll(sheet, sci.value, fee + Postings(q.outlays));
    forall token
      ensures BalanceOf(sheet, token) == Need(q, token)
    {
      NeedSheet(q, sheet, token);
    }
    WantsAreNeeds(q, sheet);
    return Ok(sheet);
  }

  method SelectAndBuild(q: Request, inputs: seq<UnspentTxOut>, sheet: Sheet) returns (r: Result<Proposal, BuildError>)
    requires forall token :: TokenSum(inputs, token) < TWO64
    requires WellFormed(q) && Wants(sheet, sheet.Keys) == Needs(q)
    ensures r.Ok? <==> Verdict(q, inputs) == None
    ensures r.Err? ==> Verdict(q, inputs) == Some(r.error)
    ensures r.Ok? ==> Conserves(q, r.value) && multiset(r.value.inputs) <= multiset(inputs) && r.value.outlays == q.outlays
    ensures r.Ok? && |q.scis| <= MAX_INPUTS ==> |r.value.inputs| + |q.scis| <= MAX_INPUTS
  {
    var selected := SelectInputs(sheet, inputs, |q.scis|);
    if selected.Err? {
      return Err(selected.error);
    }
    DrawnIsPart(selected.value, inputs);
    CoversExact(q, selected.value);
    r := BuildTxProposal(q, selected.value);
  }

  /** Errors that cannot happen: a slot underflow unless foreign inputs alone exceed the cap, and a shortfall or an
      empty selection unless some need exceeds a u64. */
  lemma VerdictAvoids(q: Request, inputs: seq<UnspentTxOut>)
    requires WellFormed(q)
    ensures |q.scis| <= MAX_INPUTS ==> Verdict(q, inputs) != Some(SlotUnderflow)
    ensures (forall token :: Need(q, token) < TWO64) ==> Verdict(q, inputs) != Some(Shortfall) && Verdict(q, inputs) != Some(EmptySelection)
  {
    var chosen := Chosen(Needs(q), inputs, |q.scis|);
    if chosen.Err? {
      SelectionFails(Needs(q), inputs, |q.scis|);
    } else {
      SelectionGood(Needs(q), inputs, |q.scis|);
      SuppliedCovers(q, chosen.value);
    }
  }

  /** Needs that fit a u64 are all supplied by the selection, so building finds no shortfall. */
  lemma SuppliedCovers(q: Request, selected: seq<UnspentTxOut>)
    requires Fillable(q.scis) && Supplied(Needs(q), selected)
    ensures (forall token :: Need(q, token) < TWO64) ==> BuildVerdict(q, selected) != Some(Shortfall)
  {
    if Unbalanced(q, selected) != {} {
      var token := LeastOf(Unbalanced(q, selected));
      if token !in TokensOf(q) {
        NeedAbsent(q, token);
      }
      assert token in Needs(q) <==> Need(q, token) > 0;
    }
  }

  lemma OneNeedPayable(needs: map<TokenId, int>, inputs: seq<UnspentTxOut>, used: nat, token: TokenId)
    requires needs.Keys == {token} && 0 < needs[token] < TWO64
    ensures Chosen(needs, inputs, used).Ok? <==> used < MAX_INPUTS && Payable(OfToken(inputs, token), needs[token], MAX_INPUTS - used)
  {
    GreedyOne(DrawFrom(inputs), needs, used, token);
    assert needs[token] % TWO64 == needs[token];
  }

  lemma OneTokenPayable(q: Request, inputs: seq<UnspentTxOut>)
    requires Fillable(q.scis)
    ensures Modest(q) ==> forall token :: Needs(q).Keys == {token} ==>
              (Chosen(Needs(q), inputs, |q.scis|).Ok? <==>
               |q.scis| < MAX_INPUTS && Payable(OfToken(inputs, token), Need(q, token), MAX_INPUTS - |q.scis|))
  {
    if Modest(q) {
      forall token | Needs(q).Keys == {token}
        ensures Chosen(Needs(q), inputs, |q.scis|).Ok? <==>
                |q.scis| < MAX_INPUTS && Payable(OfToken(inputs, token), Need(q, token), MAX_INPUTS - |q.scis|)
      {
        assert token in Needs(q).Keys;
        OneNeedPayable(Needs(q), inputs, |q.scis|, token);
      }
    }
  }

  /** A build succeeds exactly when the selection does and no need or surplus leaves a u64; so with a selection in
      hand the late shortfall check fires exactly for needs beyond a u64. */
  lemma VerdictMeans(q: Request, inputs: seq<UnspentTxOut>)
    requires forall token :: TokenSum(inputs, token) < TWO64
    ensures Verdict(q, inputs) == None <==> WellFormed(q) && Modest(q) && Chosen(Needs(q), inputs, |q.scis|).Ok?
    ensures WellFormed(q) && (forall token :: -TWO64 < Need(q, token)) && Chosen(Needs(q), inputs, |q.scis|).Ok? ==>
              (Verdict(q, inputs) == Some(Shortfall) <==> exists token :: Need(q, token) >= TWO64)
  {
    if WellFormed(q) && Chosen(Needs(q), inputs, |q.scis|).Ok? {
      var selected := Chosen(Needs(q), inputs, |q.scis|).value;
      SelectionGood(Needs(q), inputs, |q.scis|);
      DrawnIsPart(selected, inputs);
      forall token
        ensures Balances(q, selected, token) <==> -TWO64 < Need(q, token) < TWO64
        ensures token in Unbalanced(q, selected) <==> !Balances(q, selected, token)
      {
        UnbalancedExact(q, selected, token);
        SelectedBalances(q, inputs, selected, token);
      }
    }
  }

  lemma SelectedBalances(q: Request, inputs: seq<UnspentTxOut>, selected: seq<UnspentTxOut>, token: TokenId)
    requires Fillable(q.scis) && Supplied(Needs(q), selected)
    requires TokenSum(selected, token) <= TokenSum(inputs, token) < TWO64
    ensures Balances(q, selected, token) <==> -TWO64 < Need(q, token) < TWO64
  {
    if token !in TokensOf(q) {
      NeedAbsent(q, token);
    }
    assert token !in Needs(q) ==> OfToken(selected, token) == [];
  }

  // ---- Requests that fail ----

  /** With one token in need the outcome is exact: a need beyond a u64 either truncates to nothing, or to something
      that cannot be reached, or is reached and then falls short. */
  lemma OneTokenVerdict(q: Request, inputs: seq<UnspentTxOut>, token: TokenId)
    requires forall other :: TokenSum(inputs, other) < TWO64
    requires WellFormed(q) && Needs(q).Keys == {token} && forall other :: -TWO64 < Need(q, other)
    ensures var drawing := Drawing(token, Need(q, token), inputs, |q.scis|);
            Verdict(q, inputs) == if drawing.Err? then Some(drawing.error)
                                  else if Need(q, token) >= TWO64 then Some(Shortfall) else None
  {
    assert token in Needs(q).Keys;
    GreedyOne(DrawFrom(inputs), Needs(q), |q.scis|, token);
    VerdictMeans(q, inputs);
    forall other
      ensures other != token ==> Need(q, other) <= 0
    {
      assert other in Needs(q).Keys <==> other == token;
      if other !in TokensOf(q) {
        NeedAbsent(q, other);
      }
    }
  }

  /** Two outlays of token 0 and nothing else. */
  ghost function TwoOutlays(a: U64, b: U64): Request {
    Request(0, 0, [Amount(a, 0), Amount(b, 0)], [])
  }

  lemma TwoOutlaysNeed(a: U64, b: U64)
    requires a + b > 0
    ensures var q := TwoOutlays(a, b);
            WellFormed(q) && Needs(q).Keys == {0} && Need(q, 0) == a + b && forall other :: other != 0 ==> Need(q, other) == 0
  {
    var q := TwoOutlays(a, b);
    assert q.outlays[1..] == [Amount(b, 0)] && q.outlays[1..][1..] == [];
    assert AmountSum(q.outlays[1..], 0) == b;
    assert q.outlays[0] in q.outlays;
    assert TokensOf(q) == {0};
    forall other | other != 0
      ensures Need(q, other) == 0
    {
      NeedAbsent(q, other);
    }
  }

  /** A need of 2^64 truncates to nothing, and the assertion that something was selected fails, whatever the wallet holds. */
  lemma NeedBeyondU64(inputs: seq<UnspentTxOut>)
    requires forall token :: TokenSum(inputs, token) < TWO64
    ensures Need(TwoOutlays(TWO64 / 2, TWO64 / 2), 0) == TWO64
    ensures Verdict(TwoOutlays(TWO64 / 2, TWO64 / 2), inputs) == Some(EmptySelection)
  {
    TwoOutlaysNeed(TWO64 / 2, TWO64 / 2);
    OneTokenVerdict(TwoOutlays(TWO64 / 2, TWO64 / 2), inputs, 0);
  }

  /** A need of 2^64 + v truncates to v: one coin of that value is selected, and the late check finds the shortfall. */
  lemma LateShortfall(coin: UnspentTxOut)
    requires coin.tokenId == 0 && 0 < coin.value < TWO64 / 2
    ensures Verdict(TwoOutlays(TWO64 / 2, TWO64 / 2 + coin.value), [coin]) == Some(Shortfall)
  {
    var q := TwoOutlays(TWO64 / 2, TWO64 / 2 + coin.value);
    TwoOutlaysNeed(TWO64 / 2, TWO64 / 2 + coin.value);
    OneCoinDrawn(coin, Need(q, 0));
    OneTokenVerdict(q, [coin], 0);
  }

  lemma OneCoinDrawn(coin: UnspentTxOut, need: int)
    requires coin.tokenId == 0 && need > 0 && need % TWO64 == coin.value > 0
    ensures Drawing(0, need, [coin], 0).Ok? && forall token :: TokenSum([coin], token) < TWO64
  {
    forall token
      ensures OfToken([coin], token) == if token == 0 then [coin] else []
    {
      OneToken([coin], 0, token);
    }
    assert Sum([coin]) == coin.value;
    assert Sufficient([coin], [coin], coin.value, MAX_INPUTS);
  }

  function Coin(n: nat, value: U64, token: TokenId): UnspentTxOut {
    UnspentTxOut(0, 0, KeyImage(n), value, 0, 0, token, 0)
  }

  function Ones(n: nat): seq<UnspentTxOut> {
    seq(n, (i: nat) => Coin(i, 1, 0))
  }

  const BIG := Coin(16, 16, 0)
  const OTHER := Coin(17, 1, 1)

  lemma {:induction false} SumOfOnes(us: seq<UnspentTxOut>)
    requires forall i :: 0 <= i < |us| ==> us[i].value == 1
    ensures Sum(us) == |us|
  {
    if us != [] {
      SumOfOnes(us[1..]);
    }
  }

  /** Of n coins of 1 and a larger one, the n small ones are picked for a value of n. */
  lemma SmallCoinsFirst(big: UnspentTxOut, small: seq<UnspentTxOut>)
    requires small != [] && big.value >= 1 && forall i :: 0 <= i < |small| ==> small[i].value == 1
    ensures |Picked([big] + small, |small|, |small|)| == |small|
  {
    var own, n := [big] + small, |small|;
    var us := Reversed(own);
    SumOfOnes(us[..n - 1]);
    SumOfOnes(us[..n]);
    PickedPrefix(own, us, n - 1, n, n);
  }

  lemma WalletByToken(wallet: seq<UnspentTxOut>)
    requires wallet == [BIG] + Ones(16) + [OTHER]
    ensures OfToken(wallet, 0) == [BIG] + Ones(16) && OfToken(wallet, 1) == [OTHER]
  {
    var small := [BIG] + Ones(16);
    OfTokenConcat(small, [OTHER], 0);
    OfTokenConcat(small, [OTHER], 1);
    OneToken(small, 0, 0);
    OneToken(small, 0, 1);
    OneToken([OTHER], 1, 0);
    OneToken([OTHER], 1, 1);
    assert small + [] == small && [] + [OTHER] == [OTHER];
  }

  /** Greedy selection is not complete for several tokens: it spends all slots on small coins of the first token and has
      none left for the second, although two coins of the wallet would pay for both. */
  lemma GreedyRunsOutOfSlots(wallet: seq<UnspentTxOut>, q: Request)
    requires wallet == [BIG] + Ones(16) + [OTHER]
    requires q == Request(0, 0, [Amount(16, 0), Amount(1, 1)], [])
    ensures Verdict(q, wallet) == Some(OutOfSlots)
    ensures BIG in wallet && OTHER in wallet && Covers(q, [BIG, OTHER])
  {
    GapNeeds(q);
    WalletByToken(wallet);
    SmallCoinsFirst(BIG, Ones(16));
    var needs := Needs(q);
    assert IsLeast(needs.Keys, 0);
    assert Sufficient([BIG] + Ones(16), [BIG], 16, 16) by {
      assert Sum([BIG]) == 16 && multiset([BIG] + Ones(16)) == multiset([BIG]) + multiset(Ones(16));
    }
    var first := DrawFrom(wallet)(0, 16, 0);
    assert first.Ok? && |first.value| == 16;
    assert (needs - {0}).Keys == {1};
    GreedyOne(DrawFrom(wallet), needs - {0}, 16, 1);
    GapCovered(q);
  }

  lemma GapNeeds(q: Request)
    requires q == Request(0, 0, [Amount(16, 0), Amount(1, 1)], [])
    ensures WellFormed(q) && Needs(q) == map[0 := 16, 1 := 1]
    ensures forall token :: Need(q, token) == if token == 0 then 16 else if token == 1 then 1 else 0
  {
    var rest := q.outlays[1..];
    assert rest == [Amount(1, 1)] && rest[1..] == [];
    assert q.outlays[0] in q.outlays && q.outlays[1] in q.outlays;
    assert TokensOf(q) == {0, 1};
    forall token
      ensures Need(q, token) == if token == 0 then 16 else if token == 1 then 1 else 0
    {
      assert AmountSum(rest, token) == (if token == 1 then 1 else 0) + AmountSum(rest[1..], token);
    }
  }

  lemma GapCovered(q: Request)
    requires q == Request(0, 0, [Amount(16, 0), Amount(1, 1)], [])
    ensures Covers(q, [BIG, OTHER])
  {
    GapNeeds(q);
    forall token
      ensures Balances(q, [BIG, OTHER], token)
    {
      OfTokenConcat([BIG], [OTHER], token);
      OneToken([BIG], 0, token);
      OneToken([OTHER], 1, token);
      assert [BIG] + [OTHER] == [BIG, OTHER];
      assert Sum([BIG]) == BIG.value && Sum([OTHER]) == OTHER.value;
    }
  }

  // ---- Transactions that spend everything they are given ----

  /** Paying out the whole value less the fee balances without change. */
  lemma WholeValueBalances(inputs: seq<UnspentTxOut>, token: TokenId, fee: U64)
    requires forall u :: u in inputs ==> u.tokenId == token
    requires fee <= Sum(inputs) < TWO64
    ensures var q := Request(token, fee, [Amount(Sum(inputs) - fee, token)], []);
            forall other :: Need(q, other) == TokenSum(inputs, other)
  {
    var q := Request(token, fee, [Amount(Sum(inputs) - fee, token)], []);
    forall other
      ensures Need(q, other) == TokenSum(inputs, other)
    {
      OneToken(inputs, token, other);
      assert AmountSum(q.outlays, other) == (if other == token then Sum(inputs) - fee else 0) + AmountSum(q.outlays[1..], other);
      assert q.outlays[1..] == [];
    }
  }

  /** generate_tx_from_tx_list: sends the whole value of the inputs, minus the fee, and leaves no change. */
  method GenerateTxFromTxList(token: TokenId, inputs: seq<UnspentTxOut>, fee: U64) returns (r: Result<Proposal, BuildError>)
    requires Sum(inputs) < TWO64
    ensures r.Ok? <==> SameToken(inputs, token) && Sum(inputs) >= fee
    ensures r.Ok? ==> r.value == Proposal(inputs, [Amount(Sum(inputs) - fee, token)], map[])
    ensures r.Err? ==> r.error == if SameToken(inputs, token) then FeeExceedsInputs else WrongToken
  {
    if !SameToken(inputs, token) {
      return Err(WrongToken);
    }
    var totalValue := Sum(inputs);
    if totalValue < fee {
      return Err(FeeExceedsInputs);
    }
    WholeValueBalances(inputs, token, fee);
    var q := Request(token, fee, [Amount(totalValue - fee, token)], []);
    r := BuildTxProposal(q, inputs);
    assert r.value.change == map[];
  }

  /** The spendable coins without the largest, ascending. */
  function BelowLargest(inputs: seq<UnspentTxOut>, numBlocks: nat): seq<UnspentTxOut> {
    var sorted := SortAscending(Spendable(inputs, numBlocks));
    if sorted == [] then [] else sorted[..|sorted| - 1]
  }

  /** generate_optimization_tx: one output to ourselves, larger than any coin the wallet could spend, and no change. */
  method GenerateOptimizationTx(numBlocks: nat, utxos: seq<UnspentTxOut>, token: TokenId, fee: U64) returns (r: Result<Proposal, BuildError>)
    requires Sum(OfToken(utxos, token)) < TWO64
    ensures r.Ok? ==>
              && multiset(r.value.inputs) <= multiset(OfToken(utxos, token)) && |r.value.inputs| == MAX_INPUTS
              && r.value.change == map[] && |r.value.outlays| == 1 && r.value.outlays[0].token == token
              && r.value.outlays[0].value + fee == Sum(r.value.inputs)
              && (forall u :: u in r.value.inputs ==> numBlocks >= u.attemptedSpendTombstone)
              && (forall u :: u in utxos && u.tokenId == token && numBlocks >= u.attemptedSpendTombstone ==>
                    u.value < r.value.outlays[0].value)
    ensures r.Ok? <==> Mergeable(numBlocks, OfToken(utxos, token), MAX_INPUTS, token) &&
                       SomePay(BelowLargest(OfToken(utxos, token), numBlocks), MAX_INPUTS - 1, fee)
    ensures r.Err? ==> r.error == SelectionFailed(OptimizationNotBeneficial)
  {
    var inputs := OfToken(utxos, token);
    OfTokenIsToken(utxos, token);
    var selected := SelectUtxosForOptimization(numBlocks, inputs, MAX_INPUTS, token, fee);
    if selected.Err? {
      return Err(SelectionFailed(selected.error));
    }
    assert Mergeable(numBlocks, inputs, MAX_INPUTS, token);
    MergedCoins(numBlocks, inputs, MAX_INPUTS - 1, fee, selected.value);
    OwnIsOfToken(utxos, token);
    SumPart(selected.value, inputs);
    PartIsToken(selected.value, utxos, token);
    r := GenerateTxFromTxList(token, selected.value, fee);
  }

  lemma OwnIsOfToken(utxos: seq<UnspentTxOut>, token: TokenId)
    ensures forall u :: u in utxos && u.tokenId == token ==> u in OfToken(utxos, token)
  {
    forall u | u in utxos && u.tokenId == token
      ensures u in OfToken(utxos, token)
    {
      OfTokenContents(utxos, token, u);
      assert u in multiset(utxos);
      assert u in multiset(OfToken(utxos, token));
    }
  }

  /** What the merge selects outweighs every coin that is not pending by more than the fee. */
  lemma MergedCoins(numBlocks: nat, inputs: seq<UnspentTxOut>, width: nat, fee: nat, selected: seq<UnspentTxOut>)
    requires var sorted := SortAscending(Spendable(inputs, numBlocks));
             sorted != [] && MergesLowest(sorted, width, fee, selected) && Sum(selected) - fee > sorted[|sorted| - 1].value
    ensures forall u :: u in inputs && numBlocks >= u.attemptedSpendTombstone ==> u.value < Sum(selected) - fee
  {
    var spendable := Spendable(inputs, numBlocks);
    var sorted := SortAscending(spendable);
    SortAscendingSorts(spendable);
    forall u | u in inputs && numBlocks >= u.attemptedSpendTombstone
      ensures u.value <= sorted[|sorted| - 1].value
    {
      SpendableAre(inputs, numBlocks, u);
      assert u in multiset(inputs);
      assert u in multiset(spendable);
      LastIsLargest(spendable, sorted, u);
    }
  }

  lemma LastIsLargest(us: seq<UnspentTxOut>, sorted: seq<UnspentTxOut>, u: UnspentTxOut)
    requires Ascending(sorted) && multiset(sorted) == multiset(us) && u in us
    ensures sorted != [] && u.value <= sorted[|sorted| - 1].value
  {
    assert u in multiset(sorted);
    var i :| 0 <= i < |sorted| && sorted[i] == u;
  }
}
