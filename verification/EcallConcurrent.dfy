// Any number of callers crossing the enclave boundary at once.  Running the
// handler and taking the lock on the retry map are separate atomic steps, so
// callers interleave between them.

module EcallConcurrent {
  import opened Common
  import opened Ecall

  type CallerId = nat

  datatype Caller =
    | Ready(round: nat, used: nat, retryId: RetryId)                       // before ecall number round + 1
    | Handled(round: nat, outbufLen: nat, result: Result<Bytes, Status>)   // handler has run, lock not yet taken
    | Done(answer: Answer)

  datatype State = State(
    retryData: map<RetryId, Bytes>,
    callers: map<CallerId, Caller>,
    runs: map<CallerId, seq<Result<Bytes, Status>>>,    // what each caller's handler runs gave
    draws: map<CallerId, seq<RetryId>>)                 // the ids accepted for its long answers

  datatype Step =
    | Handle(c: CallerId, result: Result<Bytes, Status>)   // the handler runs, with whatever result
    | Store(c: CallerId, drawn: RetryId)
    | Retry(c: CallerId)

  function Init(callers: set<CallerId>): State {
    State(map[], map c | c in callers :: Ready(0, INITIAL_BUFFER, 0), map c | c in callers :: [],
          map c | c in callers :: [])
  }

  /** What the untrusted loop does with an error. */
  function OnError(status: Status, round: nat, used: nat, retryId: RetryId): Caller {
    if status == OutOfMemory then Ready(round, used, retryId)
    else Done(if IsFatal(status) then Panicked else Failed(status))
  }

  function SetCaller(s: State, c: CallerId, k: Caller): State {
    s.(callers := s.callers[c := k])
  }

  function StoreStep(s: State, c: CallerId, drawn: RetryId): State
    requires c in s.callers && c in s.draws && s.callers[c].Handled?
  {
    var Handled(round, outbufLen, result) := s.callers[c];
    match result
    case Err(e) => SetCaller(s, c, OnError(e, round, outbufLen, 0))
    case Ok(bytes) =>
      if |bytes| <= outbufLen then SetCaller(s, c, Done(Returned(bytes)))
      else if drawn in s.retryData then s   // the draw is rejected and repeated
      else
        SetCaller(s.(retryData := s.retryData[drawn := bytes], draws := s.draws[c := s.draws[c] + [drawn]]), c,
                  Ready(round, |bytes|, drawn))
  }

  function RetryStep(s: State, c: CallerId): State
    requires c in s.callers && s.callers[c].Ready? && s.callers[c].retryId > 0
  {
    var Ready(round, used, retryId) := s.callers[c];
    if retryId !in s.retryData then
      SetCaller(s, c, OnError(InvalidParameter, round + 1, used, retryId))
    else if |s.retryData[retryId]| > used then
      SetCaller(s, c, OnError(OutOfMemory, round + 1, |s.retryData[retryId]|, retryId))
    else
      SetCaller(s.(retryData := s.retryData - {retryId}), c, Done(Returned(s.retryData[retryId])))
  }

  predicate Turn(s: State, c: CallerId, retrying: bool) {
    c in s.callers && c in s.runs && s.callers[c].Ready? && (s.callers[c].retryId > 0) == retrying
  }

  /** A step that is not enabled leaves the state alone; a third round panics. */
  function Apply(s: State, step: Step): State {
    match step
    case Handle(c, result) =>
      if !Turn(s, c, false) then s
      else if s.callers[c].round >= 2 then SetCaller(s, c, Done(Panicked))
      else SetCaller(s.(runs := s.runs[c := s.runs[c] + [result]]), c, Handled(s.callers[c].round + 1, s.callers[c].used, result))
    case Store(c, drawn) =>
      if c in s.callers && c in s.draws && s.callers[c].Handled? then StoreStep(s, c, drawn) else s
    case Retry(c) =>
      if !Turn(s, c, true) then s
      else if s.callers[c].round >= 2 then SetCaller(s, c, Done(Panicked))
      else RetryStep(s, c)
  }

  function Run(callers: set<CallerId>, steps: seq<Step>): State {
    if steps == [] then Init(callers) else Apply(Run(callers, steps[..|steps| - 1]), steps[|steps| - 1])
  }

  // ---- What every interleaving keeps ----

  /** The handler's first result suffices: it is not out of memory, and if it is long the id drawn for it is not zero. */
  predicate Once(runs: seq<Result<Bytes, Status>>, draws: seq<RetryId>)
    requires runs != []
  {
    runs[0] != Err(OutOfMemory) && (Overflows(runs[0], INITIAL_BUFFER) ==> draws != [] && draws[0] != 0)
  }

  /** The buffer of the second round, if the handler runs again. */
  function Buffer(first: Result<Bytes, Status>): nat {
    if first.Ok? then |first.value| else INITIAL_BUFFER
  }

  /** What a finished caller has: the answer of its one run; or of its second run, a panic if that one is too long. */
  predicate Answered(answer: Answer, runs: seq<Result<Bytes, Status>>, draws: seq<RetryId>) {
    && runs != []
    && if Once(runs, draws) then |runs| == 1 && answer == Expected(runs[0])
       else |runs| == 2 && answer == if Overflows(runs[1], Buffer(runs[0])) then Panicked else Expected(runs[1])
  }

  /** The ids drawn for the first result alone. */
  predicate DrewFirst(first: Result<Bytes, Status>, draws: seq<RetryId>) {
    if Overflows(first, INITIAL_BUFFER) then |draws| == 1 else draws == []
  }

  /** A caller about to run its handler for the second time, or past that. */
  predicate Again(runs: seq<Result<Bytes, Status>>, draws: seq<RetryId>) {
    && runs != [] && !Once(runs, draws)
    && (runs[0] == Err(OutOfMemory) || (Overflows(runs[0], INITIAL_BUFFER) && draws != []))
  }

  /** The state of a caller agrees with its own results and draws. */
  ghost predicate OnTrack(s: State, c: CallerId)
    requires c in s.callers && c in s.runs && c in s.draws
  {
    var runs, draws := s.runs[c], s.draws[c];
    match s.callers[c]
    case Ready(round, used, retryId) =>
      && |runs| == round <= 2
      && (round == 0 ==> retryId == 0 && used == INITIAL_BUFFER && draws == [])
      && (retryId > 0 ==>
            && retryId in s.retryData && |s.retryData[retryId]| == used && runs != [] && runs[|runs| - 1] == Ok(s.retryData[retryId])
            && draws != [] && draws[|draws| - 1] == retryId)
      && (round == 1 && retryId > 0 ==> used > INITIAL_BUFFER && draws == [retryId])
      && (round == 1 && retryId == 0 ==> Again(runs, draws) && used == Buffer(runs[0]) && DrewFirst(runs[0], draws))
      && (round == 2 ==> Again(runs, draws) && (runs[1] == Err(OutOfMemory) || Overflows(runs[1], Buffer(runs[0]))))
    case Handled(round, outbufLen, result) =>
      && |runs| == round && 1 <= round <= 2 && runs[round - 1] == result
      && (round == 1 ==> outbufLen == INITIAL_BUFFER && draws == [])
      && (round == 2 ==> Again(runs, draws) && outbufLen == Buffer(runs[0]) && DrewFirst(runs[0], draws))
    case Done(answer) => Answered(answer, runs, draws) && (Once(runs, draws) ==> DrewFirst(runs[0], draws))
  }

  /** An id that caller c drew and has not collected: its wait is on, or it never waits for it. */
  predicate Keeps(s: State, c: CallerId, id: RetryId) {
    && c in s.callers && c in s.runs && c in s.draws && id in s.draws[c]
    && (s.callers[c].Done? ==> s.runs[c] != [] && !Once(s.runs[c], s.draws[c]))
  }

  ghost predicate Inv(s: State) {
    && s.callers.Keys == s.runs.Keys == s.draws.Keys
    && (forall c :: c in s.callers ==> OnTrack(s, c))
    && (forall c, id :: Keeps(s, c, id) ==> id in s.retryData)
    && (forall c, d, id :: Keeps(s, c, id) && Keeps(s, d, id) ==> c == d)
    && (forall id :: id in s.retryData ==> exists c :: Keeps(s, c, id))
  }

  /** Of two states, every caller but c has in both the same state, results, draws and parked answers. */
  ghost predicate OthersSame(s: State, r: State, c: CallerId) {
    && r.callers.Keys == s.callers.Keys && r.runs.Keys == s.runs.Keys && r.draws.Keys == s.draws.Keys
    && (forall d :: d in s.callers && d != c ==> r.callers[d] == s.callers[d])
    && (forall d :: d in s.runs && d != c ==> r.runs[d] == s.runs[d])
    && (forall d :: d in s.draws && d != c ==> r.draws[d] == s.draws[d])
    && (forall d, id :: d != c && Keeps(s, d, id) && id in s.retryData ==> id in r.retryData && r.retryData[id] == s.retryData[id])
  }

  lemma WaitIsKept(s: State, d: CallerId)
    requires d in s.callers && d in s.runs && d in s.draws && OnTrack(s, d)
    ensures s.callers[d].Ready? && s.callers[d].retryId > 0 ==> Keeps(s, d, s.callers[d].retryId)
  {
  }

  lemma OthersOnTrack(s: State, r: State, d: CallerId)
    requires d in s.callers && d in s.runs && d in s.draws && OnTrack(s, d)
    requires d in r.callers && d in r.runs && d in r.draws
    requires r.callers[d] == s.callers[d] && r.runs[d] == s.runs[d] && r.draws[d] == s.draws[d]
    requires forall id :: Keeps(s, d, id) && id in s.retryData ==> id in r.retryData && r.retryData[id] == s.retryData[id]
    ensures OnTrack(r, d)
  {
    WaitIsKept(s, d);
  }

  /** A step of c keeps the invariant if c is on track and the map gains or loses exactly what c comes to keep or collects. */
  lemma StepKeeps(s: State, r: State, c: CallerId)
    requires Inv(s) && OthersSame(s, r, c) && c in s.callers
    requires OnTrack(r, c)
    requires forall id :: Keeps(r, c, id) ==> id in r.retryData && (Keeps(s, c, id) || id !in s.retryData)
    requires forall id :: id in r.retryData ==> Keeps(r, c, id) || (id in s.retryData && !Keeps(s, c, id))
    ensures Inv(r)
  {
    forall d | d in r.callers
      ensures OnTrack(r, d)
    {
      if d != c {
        assert OnTrack(s, d);
        OthersOnTrack(s, r, d);
      }
    }
    forall d, id
      ensures d != c ==> (Keeps(r, d, id) <==> Keeps(s, d, id))
    {
    }
    forall id | id in r.retryData
      ensures exists d :: Keeps(r, d, id)
    {
      if !Keeps(r, c, id) {
        var d :| Keeps(s, d, id);
        assert Keeps(r, d, id);
      }
    }
  }

  lemma HandleKeeps(s: State, c: CallerId, result: Result<Bytes, Status>)
    requires Inv(s)
    ensures Inv(Apply(s, Handle(c, result)))
  {
    if Turn(s, c, false) {
      var r := Apply(s, Handle(c, result));
      assert OnTrack(s, c);
      assert forall id :: Keeps(r, c, id) <==> Keeps(s, c, id);
      StepKeeps(s, r, c);
    }
  }

  /** A long answer is parked under the drawn id. */
  lemma ParkKeeps(s: State, c: CallerId, drawn: RetryId)
    requires Inv(s) && c in s.callers && s.callers[c].Handled? && drawn !in s.retryData
    requires Overflows(s.callers[c].result, s.callers[c].outbufLen)
    ensures Inv(StoreStep(s, c, drawn))
  {
    var r := StoreStep(s, c, drawn);
    assert OnTrack(s, c);
    ParkOnTrack(s, c, drawn);
    assert forall id :: Keeps(r, c, id) <==> Keeps(s, c, id) || id == drawn;
    assert OthersSame(s, r, c);
    StepKeeps(s, r, c);
  }

  lemma ParkOnTrack(s: State, c: CallerId, drawn: RetryId)
    requires c in s.callers && c in s.runs && c in s.draws && OnTrack(s, c) && s.callers[c].Handled? && drawn !in s.retryData
    requires Overflows(s.callers[c].result, s.callers[c].outbufLen)
    ensures OnTrack(StoreStep(s, c, drawn), c)
  {
    var draws := StoreStep(s, c, drawn).draws[c];
    assert draws == s.draws[c] + [drawn] && draws[|draws| - 1] == drawn;
  }

  /** An error or an answer that fits changes the caller alone. */
  lemma EndKeeps(s: State, c: CallerId, drawn: RetryId)
    requires Inv(s) && c in s.callers && s.callers[c].Handled?
    requires !Overflows(s.callers[c].result, s.callers[c].outbufLen)
    ensures Inv(StoreStep(s, c, drawn))
  {
    var r := StoreStep(s, c, drawn);
    assert OnTrack(s, c);
    EndOnTrack(s, c, drawn);
    EndKeepsIds(s, c, drawn);
    assert OthersSame(s, r, c);
    StepKeeps(s, r, c);
  }

  lemma EndOnTrack(s: State, c: CallerId, drawn: RetryId)
    requires c in s.callers && c in s.runs && c in s.draws && OnTrack(s, c) && s.callers[c].Handled?
    requires !Overflows(s.callers[c].result, s.callers[c].outbufLen)
    ensures OnTrack(StoreStep(s, c, drawn), c)
  {
  }

  lemma EndKeepsIds(s: State, c: CallerId, drawn: RetryId)
    requires c in s.callers && c in s.runs && c in s.draws && OnTrack(s, c) && s.callers[c].Handled?
    requires !Overflows(s.callers[c].result, s.callers[c].outbufLen)
    ensures forall id :: Keeps(StoreStep(s, c, drawn), c, id) <==> Keeps(s, c, id)
  {
  }

  lemma StoreKeeps(s: State, c: CallerId, drawn: RetryId)
    requires Inv(s)
    ensures Inv(Apply(s, Store(c, drawn)))
  {
    if c in s.callers && s.callers[c].Handled? {
      if !Overflows(s.callers[c].result, s.callers[c].outbufLen) {
        EndKeeps(s, c, drawn);
      } else if drawn !in s.retryData {
        ParkKeeps(s, c, drawn);
      }
    }
  }

  /** In the second round the parked answer is collected. */
  lemma CollectKeeps(s: State, c: CallerId)
    requires Inv(s) && Turn(s, c, true) && s.callers[c].round == 1
    ensures Inv(Apply(s, Retry(c)))
  {
    var r := Apply(s, Retry(c));
    assert OnTrack(s, c);
    WaitIsKept(s, c);
    assert forall id :: Keeps(s, c, id) <==> id == s.callers[c].retryId;
    assert forall id :: !Keeps(r, c, id);
    StepKeeps(s, r, c);
  }

  /** In a third round the caller panics and leaves it. */
  lemma PanicKeeps(s: State, c: CallerId)
    requires Inv(s) && Turn(s, c, true) && s.callers[c].round != 1
    ensures Inv(Apply(s, Retry(c)))
  {
    var r := Apply(s, Retry(c));
    assert OnTrack(s, c);
    WaitIsKept(s, c);
    assert forall id :: Keeps(r, c, id) <==> Keeps(s, c, id);
    StepKeeps(s, r, c);
  }

  lemma RetryKeeps(s: State, c: CallerId)
    requires Inv(s)
    ensures Inv(Apply(s, Retry(c)))
  {
    if Turn(s, c, true) {
      if s.callers[c].round == 1 {
        CollectKeeps(s, c);
      } else {
        PanicKeeps(s, c);
      }
    }
  }

  lemma {:induction false} RunKeeps(callers: set<CallerId>, steps: seq<Step>)
    ensures Inv(Run(callers, steps)) && Run(callers, steps).callers.Keys == callers
  {
    if steps != [] {
      var s, step := Run(callers, steps[..|steps| - 1]), steps[|steps| - 1];
      RunKeeps(callers, steps[..|steps| - 1]);
      match step
      case Handle(c, result) => HandleKeeps(s, c, result);
      case Store(c, drawn) => StoreKeeps(s, c, drawn);
      case Retry(c) => RetryKeeps(s, c);
    }
  }

  /** However callers interleave and whatever they draw: a caller that has finished ran its handler once and got that
      run's answer exactly if its own first result was not out of memory and, if long, was given an id other than zero;
      otherwise it ran the handler twice, and panicked if the second answer did not fit either. */
  lemma EveryCallAnswered(callers: set<CallerId>, steps: seq<Step>, c: CallerId)
    requires c in callers
    ensures var s := Run(callers, steps);
            && c in s.callers && c in s.runs && c in s.draws
            && (s.callers[c].Done? ==> Answered(s.callers[c].answer, s.runs[c], s.draws[c]))
            && (s.callers[c].Done? ==> (|s.runs[c]| == 1 <==> Once(s.runs[c], s.draws[c])))
            && |s.runs[c]| <= 2
  {
    RunKeeps(callers, steps);
    assert OnTrack(Run(callers, steps), c);
  }

  /** The steps of one caller: its handler never reports out of memory, and it never draws zero. */
  predicate Tame(step: Step, c: CallerId) {
    match step
    case Handle(d, result) => d == c ==> result != Err(OutOfMemory)
    case Store(d, drawn) => d == c ==> drawn != 0
    case Retry(_) => true
  }

  lemma {:induction false} TameStays(callers: set<CallerId>, steps: seq<Step>, c: CallerId)
    requires forall i :: 0 <= i < |steps| ==> Tame(steps[i], c)
    ensures var s := Run(callers, steps);
            (c in s.runs ==> Err(OutOfMemory) !in s.runs[c]) && (c in s.draws ==> 0 !in s.draws[c])
  {
    if steps != [] {
      TameStays(callers, steps[..|steps| - 1], c);
      assert Tame(steps[|steps| - 1], c);
    }
  }

  /** Whatever the others do, a caller that keeps to that runs its handler once, is given that answer, and waits at most once. */
  lemma TameCallAnswered(callers: set<CallerId>, steps: seq<Step>, c: CallerId)
    requires forall i :: 0 <= i < |steps| ==> Tame(steps[i], c)
    requires c in callers
    ensures var s := Run(callers, steps);
            && c in s.callers && c in s.runs && |s.runs[c]| <= 1
            && (s.callers[c].Done? ==> |s.runs[c]| == 1 && s.callers[c].answer == Expected(s.runs[c][0]) && s.runs[c][0] != Err(OutOfMemory))
            && (s.callers[c].Ready? ==> s.callers[c].round <= 1)
  {
    RunKeeps(callers, steps);
    TameStays(callers, steps, c);
    assert OnTrack(Run(callers, steps), c);
  }

  /** When every caller is done the map holds exactly the ids drawn by callers that ran their handler twice. */
  lemma LeftBehind(callers: set<CallerId>, steps: seq<Step>, id: RetryId)
    requires forall c :: c in callers ==> c in Run(callers, steps).callers && Run(callers, steps).callers[c].Done?
    ensures var s := Run(callers, steps);
            id in s.retryData <==> exists c :: c in s.runs && c in s.draws && id in s.draws[c] && |s.runs[c]| == 2
  {
    RunKeeps(callers, steps);
    var s := Run(callers, steps);
    forall c
      ensures Keeps(s, c, id) <==> c in s.runs && c in s.draws && id in s.draws[c] && |s.runs[c]| == 2
    {
      if c in s.callers {
        assert OnTrack(s, c);
      }
    }
    if id in s.retryData {
      var c :| Keeps(s, c, id);
    }
  }

  /** It is empty, in particular, if no caller drew zero and no handler reported out of memory. */
  lemma NothingLeftBehind(callers: set<CallerId>, steps: seq<Step>)
    requires forall i, c :: 0 <= i < |steps| ==> Tame(steps[i], c)
    requires forall c :: c in callers ==> c in Run(callers, steps).callers && Run(callers, steps).callers[c].Done?
    ensures Run(callers, steps).retryData == map[]
  {
    RunKeeps(callers, steps);
    var s := Run(callers, steps);
    forall id
      ensures id !in s.retryData
    {
      LeftBehind(callers, steps, id);
      forall c | c in s.runs
        ensures |s.runs[c]| != 2
      {
        TameCallAnswered(callers, steps, c);
      }
    }
  }

  /** In a whole run at most one caller is ever given the id zero, and it never collects that entry. */
  lemma OneZeroDraw(callers: set<CallerId>, steps: seq<Step>, c: CallerId, d: CallerId)
    requires var s := Run(callers, steps); c in s.draws && 0 in s.draws[c] && d in s.draws && 0 in s.draws[d]
    ensures c == d && 0 in Run(callers, steps).retryData
  {
    RunKeeps(callers, steps);
    var s := Run(callers, steps);
    ZeroIsKept(s, c);
    ZeroIsKept(s, d);
  }

  lemma ZeroIsKept(s: State, c: CallerId)
    requires Inv(s) && c in s.draws && 0 in s.draws[c]
    ensures Keeps(s, c, 0)
  {
    assert OnTrack(s, c);
  }

  /** A zero draw is taken for "no retry": the handler runs again and its first answer stays in the map. */
  lemma ZeroDrawRunsTwice(answer: Bytes)
    requires |answer| > INITIAL_BUFFER
    ensures var s := Apply(Apply(Apply(Apply(Init({0}), Handle(0, Ok(answer))), Store(0, 0)), Handle(0, Ok(answer))), Store(0, 0));
            && 0 in s.callers && s.callers[0] == Done(Returned(answer))
            && 0 in s.runs && s.runs[0] == [Ok(answer), Ok(answer)]
            && s.retryData == map[0 := answer]
  {
    var s1 := Apply(Init({0}), Handle(0, Ok(answer)));
    assert 0 in s1.callers && s1.callers[0] == Handled(1, INITIAL_BUFFER, Ok(answer));
    var s2 := Apply(s1, Store(0, 0));
    assert s2.callers[0] == Ready(1, |answer|, 0) && s2.retryData == map[0 := answer];
  }

  /** A handler that keeps reporting out of memory makes the untrusted side panic. */
  lemma OutOfMemoryHandlerPanics()
    ensures var oom: Step := Handle(0, Err(OutOfMemory));
            var s := Apply(Apply(Apply(Apply(Apply(Init({0}), oom), Store(0, 1)), oom), Store(0, 1)), oom);
            0 in s.callers && s.callers[0] == Done(Panicked)
  {
    var oom: Step := Handle(0, Err(OutOfMemory));
    var s2 := Apply(Apply(Init({0}), oom), Store(0, 1));
    assert 0 in s2.callers && s2.callers[0] == Ready(1, INITIAL_BUFFER, 0);
    var s4 := Apply(Apply(s2, oom), Store(0, 1));
    assert s4.callers[0] == Ready(2, INITIAL_BUFFER, 0);
  }
}
