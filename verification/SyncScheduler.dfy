// The sync threads: a main thread that queues monitors, workers that sync them
// a batch at a time, and a shared set of queued ids that keeps two workers off
// the same monitor.  Every step below is one atomic action of one thread.

module SyncScheduler {
  import opened Common
  import opened Keys

  type WorkerId = nat

  datatype Msg = SyncMonitor(id: MonitorId) | Stop

  datatype SyncResult = NoMoreBlocks | MoreBlocks | Failed

  datatype Worker =
    | Waiting
    | Starting(id: MonitorId)
    | Committing(id: MonitorId, next: nat, height: nat, count: nat, done: nat)   // height: of the ledger, as read
    | Finishing(id: MonitorId, height: nat, result: SyncResult)
    | Stopped

  datatype Main = Polling | Sending(id: MonitorId)

  datatype State = State(
    channel: seq<Msg>,
    queued: set<MonitorId>,
    workers: map<WorkerId, Worker>,
    main: Main,
    cursors: map<MonitorId, nat>,   // next_block of the live monitors
    height: nat,                    // blocks in the ledger
    failed: set<MonitorId>,         // ids whose sync returned an error
    mismatch: bool)                 // a commit met a block other than the expected one

  datatype Step =
    | MainInsert(id: MonitorId)             // insert into the set, under the lock
    | MainSend
    | MainStop
    | Take(w: WorkerId)                     // receive from the channel
    | Read(w: WorkerId, numWorkers: nat)    // read the cursor and the ledger height
    | Commit(w: WorkerId, stored: bool)     // block_processed; false is any error but the block check
    | Finish(w: WorkerId)
    | Add(id: MonitorId, firstBlock: nat)
    | Remove(id: MonitorId)
    | Grow

  function Init(workers: set<WorkerId>): State {
    State([], {}, map w | w in workers :: Waiting, Polling, map[], 0, {}, false)
  }

  function ReadStep(s: State, w: WorkerId, numWorkers: nat): State
    requires w in s.workers && s.workers[w].Starting?
  {
    var id := s.workers[w].id;
    if id !in s.cursors then
      s.(workers := s.workers[w := Finishing(id, s.height, Failed)])
    else if s.cursors[id] >= s.height then
      s.(workers := s.workers[w := Finishing(id, s.height, NoMoreBlocks)])
    else
      s.(workers := s.workers[w := Committing(id, s.cursors[id], s.height, Min(numWorkers, s.height - s.cursors[id]), 0)])
  }

  function CommitStep(s: State, w: WorkerId, stored: bool): State
    requires w in s.workers && s.workers[w].Committing?
  {
    var k := s.workers[w];
    if k.done >= k.count then
      var remaining := k.height - k.next;
      s.(workers := s.workers[w := Finishing(k.id, k.height, if remaining == k.count then NoMoreBlocks else MoreBlocks)])
    else if k.id !in s.cursors then
      s.(workers := s.workers[w := Finishing(k.id, k.height, Failed)])
    else if s.cursors[k.id] != k.next + k.done then
      s.(workers := s.workers[w := Finishing(k.id, k.height, Failed)], mismatch := true)
    else if !stored then
      s.(workers := s.workers[w := Finishing(k.id, k.height, Failed)])
    else
      s.(workers := s.workers[w := k.(done := k.done + 1)], cursors := s.cursors[k.id := s.cursors[k.id] + 1])
  }

  function FinishStep(s: State, w: WorkerId): State
    requires w in s.workers && s.workers[w].Finishing?
  {
    var id := s.workers[w].id;
    var idle := s.(workers := s.workers[w := Waiting]);
    match s.workers[w].result
    case NoMoreBlocks => idle.(queued := s.queued - {id})
    case MoreBlocks => idle.(channel := s.channel + [SyncMonitor(id)])
    case Failed => idle.(failed := s.failed + {id})   // the id stays in the set
  }

  /** A step that is not enabled leaves the state alone. */
  function Apply(s: State, step: Step): State {
    match step
    case MainInsert(id) =>
      if s.main.Polling? && id !in s.queued then s.(queued := s.queued + {id}, main := Sending(id)) else s
    case MainSend =>
      if s.main.Sending? then s.(channel := s.channel + [SyncMonitor(s.main.id)], main := Polling) else s
    case MainStop =>
      s.(channel := s.channel + [Stop])
    case Take(w) =>
      if w in s.workers && s.workers[w].Waiting? && s.channel != [] then
        s.(channel := s.channel[1..],
           workers := s.workers[w := if s.channel[0].Stop? then Stopped else Starting(s.channel[0].id)])
      else s
    case Read(w, numWorkers) => if w in s.workers && s.workers[w].Starting? then ReadStep(s, w, numWorkers) else s
    case Commit(w, stored) => if w in s.workers && s.workers[w].Committing? then CommitStep(s, w, stored) else s
    case Finish(w) => if w in s.workers && s.workers[w].Finishing? then FinishStep(s, w) else s
    case Add(id, firstBlock) => if id in s.cursors then s else s.(cursors := s.cursors[id := firstBlock])
    case Remove(id) => s.(cursors := s.cursors - {id})
    case Grow => s.(height := s.height + 1)
  }

  function Run(workers: set<WorkerId>, steps: seq<Step>): State {
    if steps == [] then Init(workers) else Apply(Run(workers, steps[..|steps| - 1]), steps[|steps| - 1])
  }

  // ---- Mutual exclusion ----

  /** Where a claim on a monitor can be. */
  datatype Place = InChannel(i: nat) | AtWorker(w: WorkerId) | AtMain

  predicate Busy(k: Worker, id: MonitorId) {
    (k.Starting? || k.Committing? || k.Finishing?) && k.id == id
  }

  predicate Holds(s: State, p: Place, id: MonitorId) {
    match p
    case InChannel(i) => i < |s.channel| && s.channel[i] == SyncMonitor(id)
    case AtWorker(w) => w in s.workers && Busy(s.workers[w], id)
    case AtMain => s.main == Sending(id)
  }

  /** At most one place holds a monitor, and then its id is in the set; an id in the set that no
      place holds is one whose sync failed. */
  ghost predicate Exclusive(s: State) {
    && (forall id, p, q :: Holds(s, p, id) && Holds(s, q, id) ==> p == q)
    && (forall id, p :: Holds(s, p, id) ==> id in s.queued && id !in s.failed)
    && (forall id :: id in s.queued ==> id in s.failed || exists p :: Holds(s, p, id))
    && s.failed <= s.queued
  }

  /** A step that only moves claims from place to place keeps exclusion. */
  lemma ClaimsMoved(s: State, r: State, from: Place -> Place, to: Place -> Place)
    requires Exclusive(s) && r.queued == s.queued && r.failed == s.failed
    requires forall p, q :: from(p) == from(q) ==> p == q
    requires forall p, id :: Holds(r, p, id) ==> Holds(s, from(p), id)
    requires forall p, id :: Holds(s, p, id) ==> Holds(r, to(p), id)
    ensures Exclusive(r)
  {
    forall id, p, q | Holds(r, p, id) && Holds(r, q, id)
      ensures p == q
    {
      assert from(p) == from(q);
    }
    forall id | id in r.queued && id !in r.failed
      ensures exists p :: Holds(r, p, id)
    {
      var p :| Holds(s, p, id);
      assert Holds(r, to(p), id);
    }
  }

  lemma TakeExcludes(s: State, w: WorkerId)
    requires Exclusive(s)
    ensures Exclusive(Apply(s, Take(w)))
  {
    var r := Apply(s, Take(w));
    if w in s.workers && s.workers[w].Waiting? && s.channel != [] {
      var from := (p: Place) => match p
        case InChannel(i) => InChannel(i + 1)
        case AtWorker(v) => if v == w then InChannel(0) else p
        case AtMain => p;
      var to := (p: Place) => match p
        case InChannel(i) => if i == 0 then AtWorker(w) else InChannel(i - 1)
        case _ => p;
      ClaimsMoved(s, r, from, to);
    }
  }

  lemma SendExcludes(s: State)
    requires Exclusive(s)
    ensures Exclusive(Apply(s, MainSend))
  {
    var r := Apply(s, MainSend);
    if s.main.Sending? {
      var end := InChannel(|s.channel|);
      var swap := (p: Place) => if p == end then AtMain else if p == AtMain then end else p;
      ClaimsMoved(s, r, swap, swap);
    }
  }

  lemma InsertExcludes(s: State, id: MonitorId)
    requires Exclusive(s)
    ensures Exclusive(Apply(s, MainInsert(id)))
  {
    var r := Apply(s, MainInsert(id));
    if r != s {
      forall other, p | Holds(r, p, other)
        ensures if other == id then p == AtMain else Holds(s, p, other)
      {
        assert p != AtMain ==> Holds(s, p, other);
      }
      assert Holds(r, AtMain, id);
      forall other | other in r.queued && other !in r.failed
        ensures exists p :: Holds(r, p, other)
      {
        if other != id {
          var p :| Holds(s, p, other);
          assert Holds(r, p, other);
        }
      }
    }
  }

  lemma FinishExcludes(s: State, w: WorkerId)
    requires Exclusive(s)
    ensures Exclusive(Apply(s, Finish(w)))
  {
    if w in s.workers && s.workers[w].Finishing? {
      var id := s.workers[w].id;
      assert Holds(s, AtWorker(w), id);
      var r := Apply(s, Finish(w));
      if s.workers[w].result == MoreBlocks {
        var end := InChannel(|s.channel|);
        var swap := (p: Place) => if p == end then AtWorker(w) else if p == AtWorker(w) then end else p;
        ClaimsMoved(s, r, swap, swap);
      } else {
        forall other, p | Holds(r, p, other)
          ensures Holds(s, p, other) && p != AtWorker(w) && other != id
        {
          assert Holds(s, p, other);
        }
        forall other | other in r.queued && other !in r.failed
          ensures exists p :: Holds(r, p, other)
        {
          var p :| Holds(s, p, other);
          assert Holds(r, p, other);
        }
      }
    }
  }

  lemma StayExcludes(s: State, step: Step)
    requires Exclusive(s) && !step.Take? && !step.MainSend? && !step.MainInsert? && !step.Finish?
    ensures Exclusive(Apply(s, step))
  {
    var r := Apply(s, step);
    forall p, id
      ensures Holds(r, p, id) <==> Holds(s, p, id)
    {
    }
    ClaimsMoved(s, r, p => p, p => p);
  }

  lemma StepExcludes(s: State, step: Step)
    requires Exclusive(s)
    ensures Exclusive(Apply(s, step))
  {
    match step
    case Take(w) => TakeExcludes(s, w);
    case MainSend => SendExcludes(s);
    case MainInsert(id) => InsertExcludes(s, id);
    case Finish(w) => FinishExcludes(s, w);
    case _ => StayExcludes(s, step);
  }

  /** In every interleaving, a monitor is claimed in at most one place, and is in the set while it is. */
  lemma {:induction false} MutualExclusion(workers: set<WorkerId>, steps: seq<Step>)
    ensures Exclusive(Run(workers, steps))
  {
    if steps != [] {
      MutualExclusion(workers, steps[..|steps| - 1]);
      StepExcludes(Run(workers, steps[..|steps| - 1]), steps[|steps| - 1]);
    }
  }

  // ---- The expected-block check ----

  /** A worker half-way through its batch is exactly where the database is. */
  ghost predicate InStep(s: State) {
    && !s.mismatch
    && forall w :: w in s.workers && s.workers[w].Committing? ==>
         var k := s.workers[w];
         k.id in s.cursors && s.cursors[k.id] == k.next + k.done
  }

  lemma StepInStep(s: State, step: Step)
    requires Exclusive(s) && InStep(s) && !step.Remove?
    ensures InStep(Apply(s, step))
  {
    if step.Commit? && step.w in s.workers && s.workers[step.w].Committing? {
      var id := s.workers[step.w].id;
      assert Holds(s, AtWorker(step.w), id);
      forall v | v in s.workers && v != step.w && s.workers[v].Committing?
        ensures s.workers[v].id != id
      {
        assert Holds(s, AtWorker(v), s.workers[v].id);
      }
    }
  }

  /** In a run that removes no monitor, no commit is ever refused for its block number. */
  lemma {:induction false} BlockCheckNeverFails(workers: set<WorkerId>, steps: seq<Step>)
    requires forall i :: 0 <= i < |steps| ==> !steps[i].Remove?
    ensures !Run(workers, steps).mismatch && InStep(Run(workers, steps))
  {
    if steps != [] {
      var init := steps[..|steps| - 1];
      BlockCheckNeverFails(workers, init);
      MutualExclusion(workers, init);
      StepInStep(Run(workers, init), steps[|steps| - 1]);
    }
  }

  /** A worker reads the cursor and the height of the ledger, and takes as many blocks as there are workers, or all that
      remain if those are fewer. */
  lemma ReadSizes(s: State, w: WorkerId, numWorkers: nat)
    requires w in s.workers && s.workers[w].Starting? && s.workers[w].id in s.cursors
    ensures var r, id := Apply(s, Read(w, numWorkers)), s.workers[w].id;
            && w in r.workers
            && match r.workers[w]
               case Finishing(i, height, result) =>
                 i == id && height == s.height && result == NoMoreBlocks && s.cursors[id] >= s.height
               case Committing(i, next, height, count, done) =>
                 && i == id && next == s.cursors[id] < height == s.height && done == 0
                 && count <= numWorkers && next + count <= height && (count == numWorkers || next + count == height)
               case _ => false
  {
  }

  /** A worker that is done without an error says that there are no more blocks exactly if the cursor has come to the height
      it read. */
  ghost predicate TellsRight(s: State) {
    forall w :: w in s.workers ==> WorkerTells(s.workers[w], s.cursors)
  }

  predicate WorkerTells(k: Worker, cursors: map<MonitorId, nat>) {
    match k
    case Committing(id, next, height, count, done) => done <= count && next + count <= height
    case Finishing(id, height, result) =>
      result != Failed ==> id in cursors && (result == NoMoreBlocks <==> cursors[id] >= height)
    case _ => true
  }

  lemma CommitTells(s: State, w: WorkerId, stored: bool)
    requires Exclusive(s) && InStep(s) && TellsRight(s) && w in s.workers && s.workers[w].Committing?
    ensures TellsRight(CommitStep(s, w, stored))
  {
    var id, r := s.workers[w].id, CommitStep(s, w, stored);
    assert Holds(s, AtWorker(w), id) && WorkerTells(s.workers[w], s.cursors);
    forall v | v in r.workers
      ensures WorkerTells(r.workers[v], r.cursors)
    {
      assert WorkerTells(s.workers[v], s.cursors);
      if v != w && s.workers[v].Finishing? {
        assert Holds(s, AtWorker(v), s.workers[v].id);
      }
    }
  }

  lemma StepTellsRight(s: State, step: Step)
    requires Exclusive(s) && InStep(s) && TellsRight(s) && !step.Remove?
    ensures TellsRight(Apply(s, step))
  {
    if step.Commit? && step.w in s.workers && s.workers[step.w].Committing? {
      CommitTells(s, step.w, step.stored);
    }
  }

  lemma {:induction false} RunTellsRight(workers: set<WorkerId>, steps: seq<Step>)
    requires forall i :: 0 <= i < |steps| ==> !steps[i].Remove?
    ensures TellsRight(Run(workers, steps))
  {
    if steps != [] {
      var init := steps[..|steps| - 1];
      RunTellsRight(workers, init);
      BlockCheckNeverFails(workers, init);
      MutualExclusion(workers, init);
      StepTellsRight(Run(workers, init), steps[|steps| - 1]);
    }
  }

  /** The step commits a block other than the one the database expects. */
  predicate Mismatches(s: State, step: Step) {
    && step.Commit? && step.w in s.workers && s.workers[step.w].Committing?
    && var k := s.workers[step.w];
    k.done < k.count && k.id in s.cursors && s.cursors[k.id] != k.next + k.done
  }

  ghost predicate MismatchAt(workers: set<WorkerId>, steps: seq<Step>, n: nat) {
    n < |steps| && Mismatches(Run(workers, steps[..n]), steps[n])
  }

  lemma StepMismatches(s: State, step: Step)
    ensures Apply(s, step).mismatch <==> s.mismatch || Mismatches(s, step)
  {
  }

  lemma MismatchEarlier(workers: set<WorkerId>, steps: seq<Step>, init: seq<Step>)
    requires steps != [] && init == steps[..|steps| - 1]
    ensures (exists n: nat :: MismatchAt(workers, steps, n)) <==>
            (exists n: nat :: MismatchAt(workers, init, n)) || MismatchAt(workers, steps, |steps| - 1)
  {
    forall n: nat | n < |init|
      ensures MismatchAt(workers, steps, n) <==> MismatchAt(workers, init, n)
    {
      assert init[..n] == steps[..n];
    }
  }

  /** The check is recorded as failed exactly if some step met another block. */
  lemma {:induction false} MismatchIff(workers: set<WorkerId>, steps: seq<Step>)
    ensures Run(workers, steps).mismatch <==> exists n: nat :: MismatchAt(workers, steps, n)
  {
    if steps != [] {
      var init, last := steps[..|steps| - 1], steps[|steps| - 1];
      MismatchIff(workers, init);
      StepMismatches(Run(workers, init), last);
      MismatchEarlier(workers, steps, init);
    }
  }

  /** Whether the monitor is in the database: it was added and not removed since. */
  function Registered(steps: seq<Step>, id: MonitorId): bool {
    steps != [] &&
      match steps[|steps| - 1]
      case Add(i, _) => i == id || Registered(steps[..|steps| - 1], id)
      case Remove(i) => i != id && Registered(steps[..|steps| - 1], id)
      case _ => Registered(steps[..|steps| - 1], id)
  }

  lemma {:induction false} LiveIffRegistered(workers: set<WorkerId>, steps: seq<Step>, id: MonitorId)
    ensures id in Run(workers, steps).cursors <==> Registered(steps, id)
  {
    if steps != [] {
      LiveIffRegistered(workers, steps[..|steps| - 1], id);
    }
  }

  // ---- Stopping ----

  function StopsWaiting(channel: seq<Msg>): nat {
    if channel == [] then 0 else (if channel[0].Stop? then 1 else 0) + StopsWaiting(channel[1..])
  }

  function StopsSent(steps: seq<Step>): nat {
    if steps == [] then 0 else StopsSent(steps[..|steps| - 1]) + (if steps[|steps| - 1].MainStop? then 1 else 0)
  }

  function StoppedIn(workers: map<WorkerId, Worker>): set<WorkerId> {
    set w | w in workers && workers[w].Stopped?
  }

  lemma {:induction false} StopsAppended(channel: seq<Msg>, msg: Msg)
    ensures StopsWaiting(channel + [msg]) == StopsWaiting(channel) + (if msg.Stop? then 1 else 0)
  {
    if channel == [] {
      assert ([] + [msg])[1..] == [];
    } else {
      assert (channel + [msg])[1..] == channel[1..] + [msg];
      StopsAppended(channel[1..], msg);
    }
  }

  lemma StoppedAfter(workers: map<WorkerId, Worker>, w: WorkerId, k: Worker)
    requires w in workers && !workers[w].Stopped?
    ensures |StoppedIn(workers[w := k])| == |StoppedIn(workers)| + (if k.Stopped? then 1 else 0)
  {
    assert StoppedIn(workers[w := k]) == if k.Stopped? then StoppedIn(workers) + {w} else StoppedIn(workers);
  }

  /** Messages waiting and workers stopped. */
  ghost function Stops(s: State): nat {
    StopsWaiting(s.channel) + |StoppedIn(s.workers)|
  }

  lemma WorkerStops(s: State, step: Step)
    requires step.Read? || step.Commit? || step.Finish? || step.Take?
    ensures Stops(Apply(s, step)) == Stops(s)
  {
    var w, r := step.w, Apply(s, step);
    if w in s.workers && r != s {
      StoppedAfter(s.workers, w, r.workers[w]);
      if step.Finish? {
        StopsAppended(s.channel, SyncMonitor(s.workers[w].id));
      }
    }
  }

  lemma StepStops(s: State, step: Step)
    ensures Stops(Apply(s, step)) == Stops(s) + (if step.MainStop? then 1 else 0)
  {
    match step {
      case MainStop => StopsAppended(s.channel, Stop);
      case MainSend => if s.main.Sending? { StopsAppended(s.channel, SyncMonitor(s.main.id)); }
      case Take(_) => WorkerStops(s, step);
      case Read(_, _) => WorkerStops(s, step);
      case Commit(_, _) => WorkerStops(s, step);
      case Finish(_) => WorkerStops(s, step);
      case _ =>
    }
  }

  /** Every stop message sent is still waiting or has stopped a worker of its own. */
  lemma {:induction false} StopsCounted(workers: set<WorkerId>, steps: seq<Step>)
    ensures Stops(Run(workers, steps)) == StopsSent(steps)
  {
    if steps == [] {
      assert StoppedIn(Init(workers).workers) == {};
    } else {
      var init := steps[..|steps| - 1];
      StopsCounted(workers, init);
      StepStops(Run(workers, init), steps[|steps| - 1]);
    }
  }

  // ---- Requeueing ----

  /** After any run, an id the main thread would skip is either being worked on or was given up. */
  lemma SkippedIffHeldOrFailed(workers: set<WorkerId>, steps: seq<Step>, id: MonitorId)
    ensures var s := Run(workers, steps);
            id in s.queued <==> id in s.failed || exists p :: Holds(s, p, id)
  {
    MutualExclusion(workers, steps);
  }

  /** The step makes the sync of this monitor fail: the monitor is gone when its cursor is read, or at a block still to be
      committed the monitor is gone, its cursor is elsewhere, or the database refuses to store the block. */
  predicate Errs(s: State, step: Step, id: MonitorId) {
    match step
    case Read(w, _) => w in s.workers && s.workers[w] == Starting(id) && id !in s.cursors
    case Commit(w, stored) =>
      && w in s.workers && s.workers[w].Committing? && s.workers[w].id == id && s.workers[w].done < s.workers[w].count
      && (id !in s.cursors || s.cursors[id] != s.workers[w].next + s.workers[w].done || !stored)
    case _ => false
  }

  predicate GivingUp(k: Worker, id: MonitorId) {
    k.Finishing? && k.id == id && k.result == Failed
  }

  ghost predicate GivenUp(s: State, id: MonitorId) {
    id in s.failed || exists w :: w in s.workers && GivingUp(s.workers[w], id)
  }

  /** A step of one worker that gives its monitor up, or does not. */
  lemma WorkerGivesUp(s: State, r: State, w: WorkerId, id: MonitorId, erred: bool)
    requires w in s.workers && w in r.workers && r.failed == s.failed && r.workers == s.workers[w := r.workers[w]]
    requires !GivingUp(s.workers[w], id) && (GivingUp(r.workers[w], id) <==> erred)
    ensures GivenUp(r, id) <==> GivenUp(s, id) || erred
  {
    if v :| v in s.workers && GivingUp(s.workers[v], id) {
      assert GivingUp(r.workers[v], id);
    }
  }

  lemma FinishGivesUp(s: State, w: WorkerId, id: MonitorId)
    requires w in s.workers && s.workers[w].Finishing?
    ensures GivenUp(Apply(s, Finish(w)), id) <==> GivenUp(s, id)
  {
    var r := Apply(s, Finish(w));
    if v :| v in s.workers && v != w && GivingUp(s.workers[v], id) {
      assert GivingUp(r.workers[v], id);
    }
  }

  lemma StepGivesUp(s: State, step: Step, id: MonitorId)
    ensures GivenUp(Apply(s, step), id) <==> GivenUp(s, id) || Errs(s, step, id)
  {
    var r := Apply(s, step);
    match step
    case Read(w, _) => if w in s.workers && s.workers[w].Starting? { WorkerGivesUp(s, r, w, id, Errs(s, step, id)); }
    case Commit(w, _) => if w in s.workers && s.workers[w].Committing? { WorkerGivesUp(s, r, w, id, Errs(s, step, id)); }
    case Take(w) => if w in s.workers && s.workers[w].Waiting? && s.channel != [] { WorkerGivesUp(s, r, w, id, false); }
    case Finish(w) => if w in s.workers && s.workers[w].Finishing? { FinishGivesUp(s, w, id); }
    case _ =>
  }

  ghost predicate ErredAt(workers: set<WorkerId>, steps: seq<Step>, i: nat, id: MonitorId) {
    i < |steps| && Errs(Run(workers, steps[..i]), steps[i], id)
  }

  /** Some step of the run met an error for the monitor. */
  ghost predicate Erred(workers: set<WorkerId>, steps: seq<Step>, id: MonitorId) {
    exists i: nat :: ErredAt(workers, steps, i, id)
  }

  lemma ErredEarlier(workers: set<WorkerId>, steps: seq<Step>, id: MonitorId)
    requires steps != []
    ensures var init := steps[..|steps| - 1];
            Erred(workers, steps, id) <==> Erred(workers, init, id) || Errs(Run(workers, init), steps[|steps| - 1], id)
  {
    var n := |steps| - 1;
    var init := steps[..n];
    forall i: nat | i < n
      ensures ErredAt(workers, steps, i, id) <==> ErredAt(workers, init, i, id)
    {
      assert steps[..i] == init[..i] && steps[i] == init[i];
    }
    assert ErredAt(workers, steps, n, id) <==> Errs(Run(workers, init), steps[n], id);
  }

  /** A monitor is given up exactly when some step of the run met an error for it. */
  lemma {:induction false} GivenUpIffErred(workers: set<WorkerId>, steps: seq<Step>, id: MonitorId)
    ensures GivenUp(Run(workers, steps), id) <==> Erred(workers, steps, id)
  {
    if steps != [] {
      var init := steps[..|steps| - 1];
      GivenUpIffErred(workers, init, id);
      StepGivesUp(Run(workers, init), steps[|steps| - 1], id);
      ErredEarlier(workers, steps, id);
    }
  }

  /** Once nobody holds a monitor, the main thread skips it exactly when an error was met for it: the documentation says
      that it can then be queued again. */
  lemma SkippedIffErred(workers: set<WorkerId>, steps: seq<Step>, id: MonitorId)
    requires forall p :: !Holds(Run(workers, steps), p, id)
    ensures id in Run(workers, steps).queued <==> Erred(workers, steps, id)
  {
    var s := Run(workers, steps);
    SkippedIffHeldOrFailed(workers, steps, id);
    GivenUpIffErred(workers, steps, id);
    forall w | w in s.workers
      ensures !GivingUp(s.workers[w], id)
    {
      assert !Holds(s, AtWorker(w), id);
    }
  }

  // ---- Runs without errors ----

  /** No monitor is removed, those queued are in the database, and every block is stored. */
  ghost predicate Smooth(workers: set<WorkerId>, steps: seq<Step>) {
    forall i :: 0 <= i < |steps| ==> SmoothStep(Run(workers, steps[..i]), steps[i])
  }

  predicate SmoothStep(s: State, step: Step) {
    match step
    case Remove(_) => false
    case MainInsert(id) => id in s.cursors
    case Commit(_, stored) => stored
    case _ => true
  }

  ghost predicate HeldLive(s: State) {
    forall p, id :: Holds(s, p, id) ==> id in s.cursors
  }

  /** Every claim after a step was somewhere before it, or is a monitor just queued. */
  lemma ClaimBefore(s: State, step: Step, p: Place, id: MonitorId)
    requires Holds(Apply(s, step), p, id) && step != MainInsert(id)
    ensures exists q :: Holds(s, q, id)
  {
    if Holds(s, p, id) {
    } else {
      match step
      case Take(w) =>
        if p.InChannel? {
          assert Holds(s, InChannel(p.i + 1), id);
        } else {
          assert Holds(s, InChannel(0), id);
        }
      case MainSend => assert Holds(s, AtMain, id);
      case Finish(w) => assert Holds(s, AtWorker(w), id);
      case _ =>
    }
  }

  lemma SmoothKeepsLive(s: State, step: Step)
    requires HeldLive(s) && SmoothStep(s, step)
    ensures HeldLive(Apply(s, step))
  {
    var r := Apply(s, step);
    forall p, id | Holds(r, p, id)
      ensures id in r.cursors
    {
      if step != MainInsert(id) {
        ClaimBefore(s, step, p, id);
        var q :| Holds(s, q, id);
      }
    }
  }

  lemma SmoothNeverErrs(s: State, step: Step, id: MonitorId)
    requires HeldLive(s) && InStep(s) && SmoothStep(s, step)
    ensures !Errs(s, step, id)
  {
    if (step.Read? || step.Commit?) && step.w in s.workers && Busy(s.workers[step.w], id) {
      assert Holds(s, AtWorker(step.w), id);
    }
  }

  lemma SmoothPrefix(workers: set<WorkerId>, steps: seq<Step>)
    requires steps != [] && Smooth(workers, steps)
    ensures Smooth(workers, steps[..|steps| - 1])
    ensures SmoothStep(Run(workers, steps[..|steps| - 1]), steps[|steps| - 1])
  {
    var init := steps[..|steps| - 1];
    forall i | 0 <= i < |init|
      ensures SmoothStep(Run(workers, init[..i]), init[i])
    {
      assert init[..i] == steps[..i] && init[i] == steps[i];
    }
  }

  lemma {:induction false} SmoothRun(workers: set<WorkerId>, steps: seq<Step>)
    requires Smooth(workers, steps)
    ensures HeldLive(Run(workers, steps)) && InStep(Run(workers, steps)) && Exclusive(Run(workers, steps))
    ensures forall id :: !GivenUp(Run(workers, steps), id)
  {
    if steps != [] {
      var init, step := steps[..|steps| - 1], steps[|steps| - 1];
      SmoothPrefix(workers, steps);
      SmoothRun(workers, init);
      var s := Run(workers, init);
      SmoothKeepsLive(s, step);
      StepInStep(s, step);
      StepExcludes(s, step);
      forall id
        ensures !GivenUp(Apply(s, step), id)
      {
        SmoothNeverErrs(s, step, id);
        StepGivesUp(s, step, id);
      }
    }
  }

  /** Without errors a monitor is in the queued set exactly while somebody holds it, so it can be queued again as soon
      as its worker is done with it. */
  lemma RequeuedWithoutErrors(workers: set<WorkerId>, steps: seq<Step>, id: MonitorId)
    requires Smooth(workers, steps)
    ensures var s := Run(workers, steps);
            s.failed == {} && (id in s.queued <==> exists p :: Holds(s, p, id))
  {
    SmoothRun(workers, steps);
    SkippedIffHeldOrFailed(workers, steps, id);
    var s := Run(workers, steps);
    forall other
      ensures other !in s.failed
    {
      assert !GivenUp(s, other);
    }
  }

  // ---- Runs with an error ----

  lemma Then(workers: set<WorkerId>, steps: seq<Step>, s: State, step: Step) returns (more: seq<Step>, r: State)
    requires Run(workers, steps) == s
    ensures Run(workers, more) == r == Apply(s, step)
  {
    more, r := steps + [step], Apply(s, step);
    assert more[..|steps|] == steps;
  }

  /** A monitor one block behind, in the hands of the only worker. */
  lemma BehindAndTaken(m: MonitorId) returns (steps: seq<Step>, s: State)
    ensures Run({0}, steps) == s == State([], {m}, map[0 := Starting(m)], Polling, map[m := 0], 1, {}, false)
  {
    steps, s := Then({0}, [], Init({0}), Add(m, 0));
    steps, s := Then({0}, steps, s, Grow);
    assert s == State([], {}, map[0 := Waiting], Polling, map[m := 0], 1, {}, false);
    steps, s := Then({0}, steps, s, MainInsert(m));
    steps, s := Then({0}, steps, s, MainSend);
    assert s == State([SyncMonitor(m)], {m}, map[0 := Waiting], Polling, map[m := 0], 1, {}, false);
    steps, s := Then({0}, steps, s, Take(0));
    assert s.workers == map[0 := Starting(m)];
  }

  /** One block that the database fails to store: nobody holds the monitor any more, it is behind, and it stays in the set. */
  lemma FailureReached(m: MonitorId) returns (steps: seq<Step>, s: State)
    ensures Run({0}, steps) == s && m in s.failed && m in s.queued && forall p :: !Holds(s, p, m)
    ensures m in s.cursors && s.cursors[m] < s.height
  {
    steps, s := BehindAndTaken(m);
    steps, s := Then({0}, steps, s, Read(0, 1));
    assert s.workers == map[0 := Committing(m, 0, 1, 1, 0)];
    steps, s := Then({0}, steps, s, Commit(0, false));
    assert s.workers == map[0 := Finishing(m, 1, Failed)];
    steps, s := Then({0}, steps, s, Finish(0));
    assert s == State([], {m}, map[0 := Waiting], Polling, map[m := 0], 1, {m}, false);
  }

  /** An id whose sync failed once is never claimed again, whatever the threads do, and even if the
      monitor is removed and added anew: the error arms leave it in the set. */
  lemma {:induction false} FailedStaysStuck(s: State, steps: seq<Step>, id: MonitorId)
    requires Exclusive(s) && id in s.failed
    ensures id in After(s, steps).failed && id in After(s, steps).queued && Exclusive(After(s, steps))
    ensures forall p :: !Holds(After(s, steps), p, id)
  {
    if steps != [] {
      var init := steps[..|steps| - 1];
      FailedStaysStuck(s, init, id);
      StepExcludes(After(s, init), steps[|steps| - 1]);
    }
  }

  /** So no thread moves its cursor any more. */
  lemma FailedCursorFrozen(s: State, step: Step, id: MonitorId)
    requires Exclusive(s) && id in s.failed
    requires step != Remove(id) && !(step.Add? && step.id == id)
    ensures id in Apply(s, step).cursors <==> id in s.cursors
    ensures id in s.cursors ==> Apply(s, step).cursors[id] == s.cursors[id]
  {
    if step.Commit? && step.w in s.workers && s.workers[step.w].Committing? {
      assert Holds(s, AtWorker(step.w), s.workers[step.w].id);
    }
  }

  function After(s: State, steps: seq<Step>): State {
    if steps == [] then s else Apply(After(s, steps[..|steps| - 1]), steps[|steps| - 1])
  }
}
