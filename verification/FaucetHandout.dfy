// How the faucet hands coins to consumers: the worker thread queues a record
// per coin and keeps a tracker, consumers pop records and report or drop them.
// Every step below is one atomic action, interleaved with those of other threads.

module FaucetHandout {
  import opened Common
  import opened Wallet

  /** Where the sending half of a record's one-shot channel is. */
  datatype Place =
    | Queued
    | Popped     // received by a consumer that has not yet lowered the queue depth
    | Counted    // lowered, but not yet checked for closure
    | Held
    | Reported
    | Dropped

  datatype Record = Record(utxo: KeyImage, place: Place)

  datatype Worker =
    | Ready
    | Added(utxo: KeyImage)               // the queue depth is raised, the record not yet sent
    | Pushed(utxo: KeyImage, id: nat)     // the record is sent, the tracker not yet inserted

  datatype State = State(
    records: seq<Record>,
    channel: seq<nat>,
    depth: int,
    trackers: map<KeyImage, nat>,
    worker: Worker,
    listed: set<KeyImage>,     // the last unspent list, of coins with the target value
    seen: set<KeyImage>,       // listed at some time
    gone: set<KeyImage>)       // missing from some list after it had been seen

  datatype Step =
    | Resolve(utxo: KeyImage, settled: bool)
    | List(utxos: set<KeyImage>)
    | Add(utxo: KeyImage)
    | Push
    | Insert
    | Purge(utxo: KeyImage)
    | Pop
    | Count(id: nat)
    | Check(id: nat)
    | Report(id: nat)
    | Drop(id: nat)

  const START := State([], [], 0, map[], Ready, {}, {}, {})

  predicate Live(r: Record) {
    r.place.Queued? || r.place.Popped? || r.place.Counted? || r.place.Held?
  }

  /** The receiving half of a record's channel still exists. */
  predicate Open(s: State, id: nat)
    requires id < |s.records|
  {
    var utxo := s.records[id].utxo;
    (utxo in s.trackers && s.trackers[utxo] == id) || s.worker == Pushed(utxo, id)
  }

  function Moved(s: State, id: nat, place: Place): State
    requires id < |s.records|
  {
    s.(records := s.records[id := s.records[id].(place := place)])
  }

  predicate At(s: State, id: nat, place: Place) {
    id < |s.records| && s.records[id].place == place
  }

  /** A tracker is dropped when its record was dropped, or was reported in a transaction that has settled. */
  predicate Resolves(s: State, utxo: KeyImage, settled: bool) {
    && utxo in s.trackers
    && (At(s, s.trackers[utxo], Dropped) || (settled && At(s, s.trackers[utxo], Reported)))
  }

  function Apply(s: State, step: Step): State {
    match step
    case Resolve(utxo, settled) =>
      if s.worker.Ready? && Resolves(s, utxo, settled) then s.(trackers := s.trackers - {utxo}) else s
    case List(utxos) =>
      if s.worker.Ready? then s.(listed := utxos, gone := s.gone + (s.seen - utxos), seen := s.seen + utxos) else s
    case Add(utxo) =>
      if s.worker.Ready? && utxo in s.listed && utxo !in s.trackers
      then s.(depth := s.depth + 1, worker := Added(utxo)) else s
    case Push =>
      if s.worker.Added?
      then s.(records := s.records + [Record(s.worker.utxo, Queued)], channel := s.channel + [|s.records|],
              worker := Pushed(s.worker.utxo, |s.records|))
      else s
    case Insert =>
      if s.worker.Pushed? then s.(trackers := s.trackers[s.worker.utxo := s.worker.id], worker := Ready) else s
    case Purge(utxo) =>
      if s.worker.Ready? && utxo in s.trackers && utxo !in s.listed then s.(trackers := s.trackers - {utxo}) else s
    case Pop =>
      if s.channel != [] && s.channel[0] < |s.records|
      then Moved(s, s.channel[0], Popped).(channel := s.channel[1..]) else s
    case Count(id) =>
      if At(s, id, Popped) then Moved(s, id, Counted).(depth := s.depth - 1) else s
    case Check(id) =>
      if At(s, id, Counted) then Moved(s, id, if Open(s, id) then Held else Dropped) else s
    case Report(id) =>
      if At(s, id, Held) then Moved(s, id, Reported) else s
    case Drop(id) =>
      if At(s, id, Held) then Moved(s, id, Dropped) else s
  }

  function Run(steps: seq<Step>): State {
    if steps == [] then START else Apply(Run(steps[..|steps| - 1]), steps[|steps| - 1])
  }

  /** A consumer holds the coin, but the worker has dropped its tracker. */
  predicate Orphan(s: State, id: nat) {
    id < |s.records| && s.records[id].place.Held? && !Open(s, id)
  }

  /** The list does not bring back a coin that a consumer still holds unknown to the worker. */
  ghost predicate KeepsAway(s: State, step: Step) {
    step.List? && s.worker.Ready? ==> forall id: nat :: Orphan(s, id) ==> s.records[id].utxo !in step.utxos
  }

  /** No list of the run does. */
  ghost predicate OrphansStayAway(steps: seq<Step>) {
    forall i :: 0 <= i < |steps| ==> KeepsAway(Run(steps[..i]), steps[i])
  }

  /** No list brings back a coin that an earlier list had lost. */
  ghost predicate NeverReturns(steps: seq<Step>) {
    forall i :: 0 <= i < |steps| && steps[i].List? ==> steps[i].utxos !! Lost(steps, i)
  }

  ghost function Lost(steps: seq<Step>, i: nat): set<KeyImage>
    requires i <= |steps|
  {
    Run(steps[..i]).gone
  }

  /** A tracker is forgotten exactly if the consumer gave the coin up, or has reported a transaction that is settled. */
  lemma ResolveExact(s: State, utxo: KeyImage, settled: bool)
    requires s.worker.Ready? && utxo in s.trackers && s.trackers[utxo] < |s.records|
    ensures var place := s.records[s.trackers[utxo]].place;
            Apply(s, Resolve(utxo, settled)) ==
            if place == Dropped || (place == Reported && settled) then s.(trackers := s.trackers - {utxo}) else s
  {
  }

  /** A coin that is listed and that its consumer gave up goes back to the end of the queue, with a record of its own. */
  lemma GivenUpIsRequeued(s: State, utxo: KeyImage)
    requires s.worker.Ready? && utxo in s.trackers && At(s, s.trackers[utxo], Dropped) && utxo in s.listed
    ensures var r := Apply(Apply(Apply(Apply(s, Resolve(utxo, false)), Add(utxo)), Push), Insert);
            && r.records == s.records + [Record(utxo, Queued)] && r.channel == s.channel + [|s.records|]
            && r.trackers == s.trackers[utxo := |s.records|] && r.depth == s.depth + 1 && r.worker.Ready?
  {
    var r := Apply(Apply(Apply(Apply(s, Resolve(utxo, false)), Add(utxo)), Push), Insert);
    assert r.trackers == (s.trackers - {utxo})[utxo := |s.records|];
  }

  // ---- The count of popped records ----

  function PoppedCount(records: seq<Record>): nat {
    if records == [] then 0
    else PoppedCount(records[..|records| - 1]) + (if records[|records| - 1].place.Popped? then 1 else 0)
  }

  lemma {:induction false} PoppedUpdate(records: seq<Record>, id: nat, r: Record)
    requires id < |records|
    ensures PoppedCount(records[id := r]) + (if records[id].place.Popped? then 1 else 0)
         == PoppedCount(records) + (if r.place.Popped? then 1 else 0)
  {
    var n := |records| - 1;
    var updated := records[id := r];
    if id == n {
      assert updated[..n] == records[..n];
    } else {
      assert updated[..n] == records[..n][id := r];
      PoppedUpdate(records[..n], id, r);
    }
  }

  lemma PoppedAppend(records: seq<Record>, r: Record)
    ensures PoppedCount(records + [r]) == PoppedCount(records) + (if r.place.Popped? then 1 else 0)
  {
    assert (records + [r])[..|records|] == records;
  }

  // ---- What every step keeps ----

  ghost predicate ChannelExact(s: State) {
    && Distinct(s.channel)
    && (forall k :: 0 <= k < |s.channel| ==> s.channel[k] < |s.records| && s.records[s.channel[k]].place.Queued?)
    && (forall id :: 0 <= id < |s.records| && s.records[id].place.Queued? ==> Sits(s.channel, id))
  }

  ghost predicate Sits(channel: seq<nat>, id: nat) {
    exists k :: 0 <= k < |channel| && channel[k] == id
  }

  ghost predicate DepthExact(s: State) {
    s.depth == |s.channel| + PoppedCount(s.records) + (if s.worker.Added? then 1 else 0)
  }

  /** A record that gives its coin away, or can still do so. */
  predicate Claims(s: State, id: nat)
    requires id < |s.records|
  {
    s.records[id].place.Held? || (Live(s.records[id]) && Open(s, id))
  }

  ghost predicate ClaimsApart(s: State) {
    forall i, j :: 0 <= i < j < |s.records| && Claims(s, i) && Claims(s, j) ==> s.records[i].utxo != s.records[j].utxo
  }

  /** A coin held unknown to the worker is neither listed nor tracked. */
  ghost predicate OrphansAway(s: State) {
    forall id: nat :: Orphan(s, id) ==> s.records[id].utxo !in s.listed && s.records[id].utxo !in s.trackers
  }

  ghost predicate WorkerSane(s: State) {
    && (forall utxo :: utxo in s.trackers ==> s.trackers[utxo] < |s.records| && s.records[s.trackers[utxo]].utxo == utxo)
    && (!s.worker.Ready? ==> s.worker.utxo in s.listed && s.worker.utxo !in s.trackers)
    && (s.worker.Pushed? ==> s.worker.id < |s.records| && s.records[s.worker.id].utxo == s.worker.utxo)
  }

  ghost predicate Inv(s: State) {
    ChannelExact(s) && DepthExact(s) && ClaimsApart(s) && OrphansAway(s) && WorkerSane(s)
  }

  lemma MovedKeeps(s: State, id: nat, place: Place)
    requires Inv(s) && id < |s.records| && !s.records[id].place.Queued? && !place.Queued?
    requires Claims(Moved(s, id, place), id) ==> Claims(s, id)
    requires Orphan(Moved(s, id, place), id) ==> Orphan(s, id)
    ensures ChannelExact(Moved(s, id, place)) && ClaimsApart(Moved(s, id, place))
    ensures OrphansAway(Moved(s, id, place)) && WorkerSane(Moved(s, id, place))
  {
    var r := Moved(s, id, place);
    forall i: nat | i < |s.records|
      ensures r.records[i].utxo == s.records[i].utxo && (Open(r, i) <==> Open(s, i))
      ensures i != id ==> r.records[i] == s.records[i]
    {
    }
  }

  lemma ConsumerKeeps(s: State, step: Step)
    requires Inv(s) && (step.Count? || step.Check? || step.Report? || step.Drop?)
    ensures Inv(Apply(s, step))
  {
    var r := Apply(s, step);
    if r != s {
      PoppedUpdate(s.records, step.id, r.records[step.id]);
      MovedKeeps(s, step.id, r.records[step.id].place);
    }
  }

  lemma PopChannel(s: State)
    requires ChannelExact(s) && s.channel != []
    ensures ChannelExact(Apply(s, Pop))
  {
    var r := Apply(s, Pop);
    forall id | 0 <= id < |r.records| && r.records[id].place.Queued?
      ensures Sits(r.channel, id)
    {
      assert Sits(s.channel, id);
      var k :| 0 <= k < |s.channel| && s.channel[k] == id;
      assert r.channel[k - 1] == id;
    }
  }

  lemma PopClaims(s: State, id: nat)
    requires ClaimsApart(s) && OrphansAway(s) && WorkerSane(s) && id < |s.records| && s.records[id].place.Queued?
    ensures ClaimsApart(Moved(s, id, Popped)) && OrphansAway(Moved(s, id, Popped)) && WorkerSane(Moved(s, id, Popped))
  {
    var r := Moved(s, id, Popped);
    forall i: nat | i < |s.records|
      ensures r.records[i].utxo == s.records[i].utxo && (Open(r, i) <==> Open(s, i))
      ensures (Claims(r, i) <==> Claims(s, i)) && (Orphan(r, i) <==> Orphan(s, i))
    {
    }
  }

  lemma PopKeeps(s: State)
    requires Inv(s)
    ensures Inv(Apply(s, Pop))
  {
    if s.channel != [] {
      var first, r := s.channel[0], Apply(s, Pop);
      PopChannel(s);
      PoppedUpdate(s.records, first, s.records[first].(place := Popped));
      PopClaims(s, first);
      var moved := Moved(s, first, Popped);
      assert r == moved.(channel := r.channel);
      forall i: nat | i < |s.records|
        ensures Open(r, i) <==> Open(moved, i)
      {
      }
    }
  }

  /** Nobody claims the coin that is about to be queued. */
  lemma PushKeeps(s: State)
    requires Inv(s)
    ensures Inv(Apply(s, Push))
  {
    if s.worker.Added? {
      var r := Apply(s, Push);
      PoppedAppend(s.records, Record(s.worker.utxo, Queued));
      PushChannel(s);
      PushClaims(s);
    }
  }

  lemma PushClaims(s: State)
    requires ClaimsApart(s) && OrphansAway(s) && WorkerSane(s) && s.worker.Added?
    ensures ClaimsApart(Apply(s, Push)) && OrphansAway(Apply(s, Push)) && WorkerSane(Apply(s, Push))
  {
    var r := Apply(s, Push);
    forall id: nat | id < |s.records|
      ensures r.records[id] == s.records[id] && (Open(r, id) <==> Open(s, id))
      ensures Claims(s, id) ==> s.records[id].utxo != s.worker.utxo
    {
      assert Orphan(s, id) ==> s.records[id].utxo !in s.listed;
    }
    assert r.records[|s.records|] == Record(s.worker.utxo, Queued);
  }

  lemma PushChannel(s: State)
    requires ChannelExact(s) && s.worker.Added?
    ensures ChannelExact(Apply(s, Push))
  {
    QueuedChannel(s, Apply(s, Push), s.worker.utxo);
  }

  lemma InsertKeeps(s: State)
    requires Inv(s)
    ensures Inv(Apply(s, Insert))
  {
    var r := Apply(s, Insert);
    forall id: nat | id < |s.records|
      ensures r.records[id] == s.records[id] && (Open(r, id) <==> Open(s, id))
    {
    }
    forall id: nat | Orphan(r, id)
      ensures r.records[id].utxo !in r.listed && r.records[id].utxo !in r.trackers
    {
      assert Orphan(s, id);
    }
  }

  lemma AddKeeps(s: State, utxo: KeyImage)
    requires Inv(s)
    ensures Inv(Apply(s, Add(utxo)))
  {
    var r := Apply(s, Add(utxo));
    forall id: nat | id < |s.records|
      ensures Open(r, id) <==> Open(s, id)
    {
    }
  }

  /** A tracker goes only with a record that is reported or dropped, or with a coin that has left the list. */
  lemma TrackerDropKeeps(s: State, step: Step)
    requires Inv(s) && (step.Resolve? || step.Purge?)
    ensures Inv(Apply(s, step))
  {
    var r := Apply(s, step);
    if r != s {
      var utxo := step.utxo;
      forall id: nat | id < |s.records|
        ensures Open(r, id) <==> Open(s, id) && s.records[id].utxo != utxo
      {
      }
      forall id: nat | Orphan(r, id)
        ensures r.records[id].utxo !in r.listed && r.records[id].utxo !in r.trackers
      {
        if Orphan(s, id) {
        } else {
          assert s.records[id].utxo == utxo && s.trackers[utxo] == id;
        }
      }
    }
  }

  lemma ListKeeps(s: State, utxos: set<KeyImage>)
    requires Inv(s) && KeepsAway(s, List(utxos))
    ensures Inv(Apply(s, List(utxos)))
  {
    var r := Apply(s, List(utxos));
    forall id: nat | id < |s.records|
      ensures Open(r, id) <==> Open(s, id)
    {
    }
    forall id: nat | Orphan(r, id)
      ensures r.records[id].utxo !in r.listed && r.records[id].utxo !in r.trackers
    {
      assert Orphan(s, id);
    }
  }

  lemma {:induction false} RunKeeps(steps: seq<Step>)
    requires OrphansStayAway(steps)
    ensures Inv(Run(steps))
  {
    if steps != [] {
      var n := |steps| - 1;
      var s, step := Run(steps[..n]), steps[n];
      EarlierStayAway(steps);
      RunKeeps(steps[..n]);
      match step
      case Resolve(_, _) => TrackerDropKeeps(s, step);
      case Purge(_) => TrackerDropKeeps(s, step);
      case List(utxos) => ListKeeps(s, utxos);
      case Add(utxo) => AddKeeps(s, utxo);
      case Push => PushKeeps(s);
      case Insert => InsertKeeps(s);
      case Pop => PopKeeps(s);
      case _ => ConsumerKeeps(s, step);
    }
  }

  lemma EarlierStayAway(steps: seq<Step>)
    requires OrphansStayAway(steps) && steps != []
    ensures OrphansStayAway(steps[..|steps| - 1])
    ensures KeepsAway(Run(steps[..|steps| - 1]), steps[|steps| - 1])
  {
    var earlier := steps[..|steps| - 1];
    forall i | 0 <= i < |earlier|
      ensures KeepsAway(Run(earlier[..i]), earlier[i])
    {
      assert earlier[..i] == steps[..i] && earlier[i] == steps[i];
    }
  }

  /** No interleaving lets two consumers hold the same coin, and the queue depth is never below the length of
      the channel: lowering it never underflows. */
  lemma HandoutSafe(steps: seq<Step>)
    requires OrphansStayAway(steps)
    ensures var s := Run(steps);
            && (forall i, j :: 0 <= i < j < |s.records| && s.records[i].place.Held? && s.records[j].place.Held? ==>
                  s.records[i].utxo != s.records[j].utxo)
            && s.depth >= |s.channel|
            && (forall id: nat :: At(s, id, Popped) ==> s.depth >= |s.channel| + 1)
  {
    RunKeeps(steps);
    var s := Run(steps);
    forall id: nat | At(s, id, Popped)
      ensures s.depth >= |s.channel| + 1
    {
      PoppedUpdate(s.records, id, s.records[id].(place := Counted));
    }
  }

  lemma Then(steps: seq<Step>, s: State, step: Step) returns (more: seq<Step>, r: State)
    requires Run(steps) == s
    ensures Run(more) == r == Apply(s, step)
  {
    more, r := steps + [step], Apply(s, step);
    assert more[..|steps|] == steps;
  }

  /** The worker queues a listed coin that has no tracker. */
  lemma QueueUp(steps: seq<Step>, s: State, u: KeyImage) returns (more: seq<Step>, r: State)
    requires Run(steps) == s && s.worker == Ready && u in s.listed && u !in s.trackers
    ensures Run(more) == r
    ensures r == s.(records := s.records + [Record(u, Queued)], channel := s.channel + [|s.records|],
                    depth := s.depth + 1, trackers := s.trackers[u := |s.records|])
  {
    more, r := Then(steps, s, Add(u));
    more, r := Then(more, r, Push);
    more, r := Then(more, r, Insert);
  }

  /** A consumer takes the only queued coin. */
  lemma TakeOut(steps: seq<Step>, s: State, u: KeyImage, id: nat) returns (more: seq<Step>, r: State)
    requires Run(steps) == s && s.channel == [id] && id < |s.records| && s.records[id] == Record(u, Queued)
    requires u in s.trackers && s.trackers[u] == id
    ensures Run(more) == r == s.(records := s.records[id := Record(u, Held)], channel := [], depth := s.depth - 1)
  {
    more, r := Then(steps, s, Pop);
    more, r := Then(more, r, Count(id));
    more, r := Then(more, r, Check(id));
    assert r.records == s.records[id := Record(u, Held)];
  }

  lemma HeldOnce(u: KeyImage) returns (steps: seq<Step>, s: State)
    ensures Run(steps) == s == State([Record(u, Held)], [], 0, map[u := 0], Ready, {u}, {u}, {})
  {
    steps, s := Then([], START, List({u}));
    assert s == START.(listed := {u}, seen := {u});
    steps, s := QueueUp(steps, s, u);
    assert s.records == [Record(u, Queued)] && s.channel == [0];
    steps, s := TakeOut(steps, s, u, 0);
    assert s.records == [Record(u, Held)] && s.trackers == map[u := 0];
  }

  lemma LostAndListedAgain(steps: seq<Step>, s: State, u: KeyImage) returns (more: seq<Step>, r: State)
    requires Run(steps) == s == State([Record(u, Held)], [], 0, map[u := 0], Ready, {u}, {u}, {})
    ensures Run(more) == r == State([Record(u, Held)], [], 0, map[], Ready, {u}, {u}, {u})
  {
    more, r := Then(steps, s, List({}));
    assert r == s.(listed := {}, gone := {u});
    more, r := Then(more, r, Purge(u));
    assert r.trackers == map[];
    more, r := Then(more, r, List({u}));
    assert r.gone == {u} && r.seen == {u};
  }

  lemma HeldTwice(u: KeyImage) returns (steps: seq<Step>, s: State)
    ensures Run(steps) == s && s.records == [Record(u, Held), Record(u, Held)]
  {
    steps, s := HeldOnce(u);
    steps, s := LostAndListedAgain(steps, s, u);
    steps, s := QueueUp(steps, s, u);
    assert s.records == [Record(u, Held), Record(u, Queued)] && s.channel == [1];
    steps, s := TakeOut(steps, s, u, 1);
  }

  /** Without it the promise fails: a coin that is lost and listed again is handed out twice. */
  lemma ReturningCoinHeldTwice(u: KeyImage) returns (steps: seq<Step>)
    ensures !OrphansStayAway(steps) && !NeverReturns(steps)
    ensures Run(steps).records == [Record(u, Held), Record(u, Held)]
  {
    var s;
    steps, s := HeldTwice(u);
    HeldTwiceReturns(steps, u);
    NeverReturnsSuffices(steps);
  }

  ghost predicate SharedHold(s: State) {
    exists i, j :: 0 <= i < j < |s.records| && s.records[i].place.Held? && s.records[j].place.Held? &&
      s.records[i].utxo == s.records[j].utxo
  }

  lemma HeldTwiceReturns(steps: seq<Step>, u: KeyImage)
    requires Run(steps).records == [Record(u, Held), Record(u, Held)]
    ensures !OrphansStayAway(steps)
  {
    var records := Run(steps).records;
    assert records[0] == records[1] == Record(u, Held);
    assert SharedHold(Run(steps));
    SharedHoldReturns(steps);
  }

  lemma SharedHoldReturns(steps: seq<Step>)
    requires SharedHold(Run(steps))
    ensures !OrphansStayAway(steps)
  {
    if OrphansStayAway(steps) {
      HandoutSafe(steps);
    }
  }

  // ---- A coin that leaves the list and never returns ----

  /** A coin held unknown to the worker has left the list. */
  ghost predicate OrphansGone(s: State) {
    && WorkerSane(s)
    && s.listed <= s.seen <= s.listed + s.gone && s.trackers.Keys <= s.seen
    && forall id: nat :: Orphan(s, id) ==> s.records[id].utxo in s.gone
  }

  lemma GoneTrackerDrop(s: State, step: Step)
    requires OrphansGone(s) && (step.Resolve? || step.Purge?)
    ensures OrphansGone(Apply(s, step))
  {
    var r := Apply(s, step);
    if r != s {
      forall id: nat | Orphan(r, id)
        ensures r.records[id].utxo in r.gone
      {
        assert Orphan(s, id) || (s.records[id].utxo == step.utxo && s.trackers[step.utxo] == id);
      }
    }
  }

  lemma GoneWorker(s: State, step: Step)
    requires OrphansGone(s) && (step.Add? || step.Push? || step.Insert? || step.List?)
    ensures OrphansGone(Apply(s, step))
  {
    var r := Apply(s, step);
    forall id: nat | Orphan(r, id)
      ensures r.records[id].utxo in r.gone
    {
      assert Orphan(s, id);
    }
  }

  lemma GoneConsumer(s: State, step: Step)
    requires OrphansGone(s) && (step.Pop? || step.Count? || step.Check? || step.Report? || step.Drop?)
    ensures OrphansGone(Apply(s, step))
  {
    var r := Apply(s, step);
    forall id: nat | Orphan(r, id)
      ensures r.records[id].utxo in r.gone
    {
      assert Orphan(s, id);
    }
  }

  lemma {:induction false} RunOrphansGone(steps: seq<Step>)
    ensures OrphansGone(Run(steps))
  {
    if steps != [] {
      var s, step := Run(steps[..|steps| - 1]), steps[|steps| - 1];
      RunOrphansGone(steps[..|steps| - 1]);
      match step
      case Resolve(_, _) => GoneTrackerDrop(s, step);
      case Purge(_) => GoneTrackerDrop(s, step);
      case Add(_) => GoneWorker(s, step);
      case Push => GoneWorker(s, step);
      case Insert => GoneWorker(s, step);
      case List(_) => GoneWorker(s, step);
      case _ => GoneConsumer(s, step);
    }
  }

  /** So it is enough that no coin which has left the list ever returns. */
  lemma NeverReturnsSuffices(steps: seq<Step>)
    ensures NeverReturns(steps) ==> OrphansStayAway(steps)
  {
    if NeverReturns(steps) {
      forall i | 0 <= i < |steps|
        ensures KeepsAway(Run(steps[..i]), steps[i])
      {
        RunOrphansGone(steps[..i]);
        assert steps[i].List? ==> steps[i].utxos !! Lost(steps, i);
      }
    }
  }

  // ---- The condition is needed ----

  /** Consumers take records until the last one of the channel is out. */
  lemma {:induction false} PopAll(steps: seq<Step>, s: State, id: nat) returns (more: seq<Step>, r: State)
    requires Run(steps) == s && ChannelExact(s) && s.channel != [] && s.channel[|s.channel| - 1] == id
    ensures Run(more) == r && r.trackers == s.trackers && r.worker == s.worker && |r.records| == |s.records|
    ensures id < |r.records| && r.records[id] == s.records[id].(place := Popped)
    ensures forall k :: 0 <= k < |s.records| && !s.records[k].place.Queued? ==> r.records[k] == s.records[k]
    decreases |s.channel|
  {
    PopChannel(s);
    more, r := Then(steps, s, Pop);
    if |s.channel| > 1 {
      assert r.channel == s.channel[1..];
      assert id != s.channel[0];
      more, r := PopAll(more, r, id);
    }
  }

  /** A popped record whose tracker exists is handed to its consumer. */
  lemma HandOver(steps: seq<Step>, s: State, id: nat) returns (more: seq<Step>, r: State)
    requires Run(steps) == s && id < |s.records| && s.records[id].place == Popped
    requires s.records[id].utxo in s.trackers && s.trackers[s.records[id].utxo] == id
    ensures Run(more) == r && r.records == s.records[id := s.records[id].(place := Held)]
  {
    more, r := Then(steps, s, Count(id));
    more, r := Then(more, r, Check(id));
    assert r.records == s.records[id := s.records[id].(place := Held)];
  }

  /** A coin held unknown to the worker, listed again, can be handed to a second consumer: the hypothesis of HandoutSafe
      cannot be weakened. */
  lemma OrphanReturnBreaks(steps: seq<Step>, s: State, id: nat) returns (more: seq<Step>, r: State)
    requires OrphansStayAway(steps) && Run(steps) == s && s.worker.Ready? && Orphan(s, id)
    ensures Run(more) == r && SharedHold(r)
  {
    var u, n := s.records[id].utxo, |s.records|;
    RunKeeps(steps);
    assert u !in s.trackers;
    more, r := Then(steps, s, List({u}));
    var listed := r;
    more, r := QueueUp(more, r, u);
    QueuedChannel(listed, r, u);
    more, r := PopAll(more, r, n);
    assert r.records[id] == Record(u, Held) && r.records[n] == Record(u, Popped);
    more, r := HandOver(more, r, n);
    assert r.records[id] == Record(u, Held) && r.records[n] == Record(u, Held);
  }

  lemma QueuedChannel(s: State, r: State, u: KeyImage)
    requires ChannelExact(s)
    requires r.records == s.records + [Record(u, Queued)] && r.channel == s.channel + [|s.records|]
    ensures ChannelExact(r)
  {
    forall id | 0 <= id < |r.records| && r.records[id].place.Queued?
      ensures Sits(r.channel, id)
    {
      if id < |s.records| {
        assert Sits(s.channel, id);
        var k :| 0 <= k < |s.channel| && s.channel[k] == id;
        assert r.channel[k] == id;
      } else {
        assert r.channel[|s.channel|] == id;
      }
    }
  }
}
