// The outbox of transparent transactions waiting to be sent to T3, and the
// thread that delivers them: dequeue, submit, and remove once acknowledged.

module T3Outbox {
  import opened Common
  import opened Keys

  datatype Tx = Tx(contents: nat)

  datatype Error = KeyExist | NotFound | CounterOverflow

  /** The three tables: indexes waiting (as big-endian dup values of one key), the counter, the data. */
  datatype Store = Store(queue: set<U64>, counter: Option<U64>, indexToTx: map<U64, Tx>)

  const EMPTY := Store({}, None, map[])

  function Count(store: Store): U64 {
    if store.counter.Some? then store.counter.value else 0
  }

  function Append(store: Store, tx: Tx): Result<Store, Error> {
    var index := Count(store);
    if index in store.indexToTx || index in store.queue then Err(KeyExist)
    else if index + 1 >= TWO64 then Err(CounterOverflow)
    else Ok(Store(store.queue + {index}, Some(index + 1), store.indexToTx[index := tx]))
  }

  function Remove(store: Store, index: U64): Result<Store, Error> {
    if index !in store.indexToTx || index !in store.queue then Err(NotFound)
    else Ok(store.(queue := store.queue - {index}, indexToTx := store.indexToTx - {index}))
  }

  function Entry(store: Store, i: U64): Result<Option<(U64, Tx)>, Error> {
    if i in store.indexToTx then Ok(Some((i, store.indexToTx[i]))) else Err(NotFound)
  }

  /** dequeue_transparent_tx: the first index in the order of the dup values. */
  ghost predicate Dequeues(store: Store, r: Result<Option<(U64, Tx)>, Error>) {
    if store.queue == {} then r == Ok(None)
    else exists i :: IsLeast(store.queue, i) && r == Entry(store, i)
  }

  // ---- The tables as a queue ----

  /** After `appended` went in and the first `removed` went out, the tables hold exactly the rest. */
  ghost predicate Queues(store: Store, appended: seq<Tx>, removed: nat) {
    && removed <= |appended| < TWO64
    && Count(store) == |appended|
    && (forall i: U64 :: i in store.queue <==> removed <= i < |appended|)
    && (forall i: U64 :: i in store.indexToTx <==> removed <= i < |appended|)
    && (forall i: U64 :: i in store.indexToTx ==> store.indexToTx[i] == appended[i])
  }

  /** A fresh index for every append: it never fails but by running out of indexes. */
  lemma AppendQueues(store: Store, appended: seq<Tx>, removed: nat, tx: Tx)
    requires Queues(store, appended, removed)
    ensures Append(store, tx).Ok? <==> |appended| + 1 < TWO64
    ensures Append(store, tx).Ok? ==> Queues(Append(store, tx).value, appended + [tx], removed)
  {
  }

  lemma DequeueIsFront(store: Store, appended: seq<Tx>, removed: nat, r: Result<Option<(U64, Tx)>, Error>)
    requires Queues(store, appended, removed) && Dequeues(store, r)
    ensures r == Ok(if removed < |appended| then Some((removed, appended[removed])) else None)
  {
    if removed < |appended| {
      var first: U64 := removed;
      assert first in store.queue;
    }
    assert forall i :: IsLeast(store.queue, i) ==> i == removed;
  }

  lemma RemoveFrontQueues(store: Store, appended: seq<Tx>, removed: nat)
    requires Queues(store, appended, removed) && removed < |appended|
    ensures Remove(store, removed).Ok? && Queues(Remove(store, removed).value, appended, removed + 1)
  {
    var first: U64 := removed;
    assert first in store.queue && first in store.indexToTx;
  }

  // ---- The store object ----

  predicate ByteLess(a: U64, b: U64) {
    KeyWidths();
    LexLess(BigEndian(a, 8), BigEndian(b, 8))
  }

  lemma ByteOrder(a: U64, b: U64)
    ensures ByteLess(a, b) <==> a < b
  {
    KeyWidths();
    BigEndianOrder(a, b, 8);
  }

  /** Some index stands first in byte order, and whichever does is the least. */
  lemma FirstInByteOrder(s: set<U64>)
    requires s != {}
    ensures exists x :: x in s && forall y :: y in s ==> !ByteLess(y, x)
    ensures forall x | x in s && (forall y :: y in s ==> !ByteLess(y, x)) :: IsLeast(s, x)
  {
    forall a: U64, b: U64
      ensures ByteLess(a, b) <==> a < b
    {
      ByteOrder(a, b);
    }
    LeastExists(s);
    var x :| IsLeast(s, x);
    assert x in s && forall y :: y in s ==> !ByteLess(y, x);
  }

  class T3Store {
    var queue: set<U64>
    var counter: Option<U64>
    var indexToTx: map<U64, Tx>

    function Tables(): Store
      reads this
    {
      Store(queue, counter, indexToTx)
    }

    constructor ()
      ensures Tables() == EMPTY && Queues(Tables(), [], 0)
    {
      queue, counter, indexToTx := {}, None, map[];
    }

    method AppendTransparentTx(tx: Tx) returns (r: Result<(), Error>)
      modifies this
      ensures match Append(old(Tables()), tx)
              case Ok(after) => r == Ok(()) && Tables() == after
              case Err(e) => r == Err(e) && Tables() == old(Tables())
    {
      var index := if counter.Some? then counter.value else 0;
      if index in indexToTx || index in queue {
        return Err(KeyExist);
      }
      if index + 1 >= TWO64 {
        return Err(CounterOverflow);
      }
      indexToTx := indexToTx[index := tx];
      queue := queue + {index};
      counter := Some(index + 1);
      return Ok(());
    }

    /** The cursor stands on the smallest dup value in byte order, which is the smallest index. */
    method DequeueTransparentTx() returns (r: Result<Option<(U64, Tx)>, Error>)
      ensures Dequeues(Tables(), r)
    {
      if queue == {} {
        return Ok(None);
      }
      FirstInByteOrder(queue);
      var first :| first in queue && forall i :: i in queue ==> !ByteLess(i, first);
      if first !in indexToTx {
        return Err(NotFound);
      }
      return Ok(Some((first, indexToTx[first])));
    }

    method RemoveTransparentTx(index: U64) returns (r: Result<(), Error>)
      modifies this
      ensures match Remove(old(Tables()), index)
              case Ok(after) => r == Ok(()) && Tables() == after
              case Err(e) => r == Err(e) && Tables() == old(Tables())
    {
      if index !in indexToTx || index !in queue {
        return Err(NotFound);
      }
      indexToTx := indexToTx - {index};
      queue := queue - {index};
      return Ok(());
    }
  }

  const MAX_TRANSPARENT_TRANSACTIONS_PER_POLL := 10

  /** The first n submissions of a poll go through: all are accepted, and all but perhaps the last are removed. */
  ghost predicate GoThrough(accepted: nat -> bool, removable: nat -> bool, n: nat) {
    forall i: nat :: i < n ==> accepted(i) && (i + 1 < n ==> removable(i))
  }

  /** The entries are the transactions from position `removed` on, each with its index. */
  ghost predicate NextInOrder(entries: seq<(U64, Tx)>, appended: seq<Tx>, removed: nat) {
    && removed + |entries| <= |appended|
    && forall i :: 0 <= i < |entries| ==> entries[i] == (removed + i, appended[removed + i])
  }

  /** One turn: the front transaction is submitted, and removed once accepted; the poll goes on only if both succeed. */
  method DeliverNext(store: T3Store, accepted: bool, removable: bool, ghost appended: seq<Tx>, ghost removed: nat)
    returns (sent: Option<(U64, Tx)>, goOn: bool)
    requires Queues(store.Tables(), appended, removed)
    modifies store
    ensures if removed < |appended| && accepted
            then sent == Some((removed, appended[removed])) && goOn == removable
                 && Queues(store.Tables(), appended, if removable then removed + 1 else removed)
            else sent.None? && !goOn && Queues(store.Tables(), appended, removed)
  {
    var next := store.DequeueTransparentTx();
    DequeueIsFront(store.Tables(), appended, removed, next);
    if next == Ok(None) {
      return None, false;
    }
    if !accepted {
      return None, false;
    }
    var (index, tx) := next.value.value;
    if !removable {
      return Some((index, tx)), false;
    }
    RemoveFrontQueues(store.Tables(), appended, removed);
    var r := store.RemoveTransparentTx(index);
    return Some((index, tx)), true;
  }

  /** One poll of the delivery thread, with the outcome of every submission and removal given.  As many of the waiting
      transactions as go through, and ten at most, are acknowledged in order; what is acknowledged is removed, unless the
      last removal failed, and nothing else is. */
  method Poll(store: T3Store, accepted: nat -> bool, removable: nat -> bool, ghost appended: seq<Tx>, ghost removed: nat)
    returns (acked: seq<(U64, Tx)>)
    requires Queues(store.Tables(), appended, removed)
    modifies store
    ensures |acked| <= MAX_TRANSPARENT_TRANSACTIONS_PER_POLL
    ensures NextInOrder(acked, appended, removed)
    ensures GoThrough(accepted, removable, |acked|)
    ensures |acked| < Min(MAX_TRANSPARENT_TRANSACTIONS_PER_POLL, |appended| - removed) ==> !GoThrough(accepted, removable, |acked| + 1)
    ensures var kept := if |acked| > 0 && !removable(|acked| - 1) then 1 else 0;
            Queues(store.Tables(), appended, removed + |acked| - kept)
  {
    acked := [];
    for n := 0 to MAX_TRANSPARENT_TRANSACTIONS_PER_POLL
      invariant |acked| == n
      invariant NextInOrder(acked, appended, removed)
      invariant GoThrough(accepted, removable, n) && (n > 0 ==> removable(n - 1))
      invariant Queues(store.Tables(), appended, removed + n)
    {
      var sent, goOn := DeliverNext(store, accepted(n), removable(n), appended, removed + n);
      if sent.Some? {
        acked := acked + [sent.value];
      }
      if !goOn {
        break;
      }
    }
  }

  // ---- The delivery thread against a stream of appends ----

  datatype Delivery = Idle | Holding(index: U64, tx: Tx) | Acknowledged(index: U64)

  datatype State = State(
    store: Store,
    delivery: Delivery,
    appended: seq<Tx>,        // everything ever appended
    acked: seq<(U64, Tx)>,    // every acknowledged submission, with repetitions
    removed: nat)             // how many have been removed

  datatype Step =
    | AppendStep(tx: Tx)
    | DequeueStep
    | SubmitStep(accepted: bool)
    | RemoveStep(succeeds: bool)

  const START := State(EMPTY, Idle, [], [], 0)

  ghost function Apply(s: State, step: Step): State {
    match step
    case AppendStep(tx) =>
      (match Append(s.store, tx)
       case Ok(after) => s.(store := after, appended := s.appended + [tx])
       case Err(_) => s)
    case DequeueStep =>
      if s.delivery.Idle? && s.store.queue != {} && exists i :: IsLeast(s.store.queue, i) && i in s.store.indexToTx then
        var i :| IsLeast(s.store.queue, i) && i in s.store.indexToTx;
        s.(delivery := Holding(i, s.store.indexToTx[i]))
      else s
    case SubmitStep(accepted) =>
      if s.delivery.Holding? then
        if accepted then s.(delivery := Acknowledged(s.delivery.index), acked := s.acked + [(s.delivery.index, s.delivery.tx)])
        else s.(delivery := Idle)
      else s
    case RemoveStep(succeeds) =>
      if s.delivery.Acknowledged? then
        (match Remove(s.store, s.delivery.index)
         case Ok(after) => if succeeds then s.(store := after, delivery := Idle, removed := s.removed + 1) else s.(delivery := Idle)
         case Err(_) => s.(delivery := Idle))
      else s
  }

  ghost function Run(steps: seq<Step>): State {
    if steps == [] then START else Apply(Run(steps[..|steps| - 1]), steps[|steps| - 1])
  }

  /** Adjacent repetitions collapsed. */
  function Collapsed<T(==)>(s: seq<T>): seq<T> {
    if |s| <= 1 then s
    else if s[|s| - 2] == s[|s| - 1] then Collapsed(s[..|s| - 1])
    else Collapsed(s[..|s| - 1]) + [s[|s| - 1]]
  }

  /** The first k transactions in the order they were appended, each with its index. */
  ghost function FirstAppended(appended: seq<Tx>, k: nat): seq<(U64, Tx)>
    requires k <= |appended| < TWO64
  {
    seq(k, i requires 0 <= i < k => (i, appended[i]))
  }

  /** How many distinct transactions have been acknowledged: those removed, and perhaps the next. */
  ghost predicate AckedCount(s: State, k: nat) {
    && s.removed <= k <= s.removed + 1
    && k <= |s.appended| < TWO64
    && Collapsed(s.acked) == FirstAppended(s.appended, k)
    && (s.acked == [] <==> k == 0)
    && (k > 0 ==> s.acked[|s.acked| - 1] == (k - 1, s.appended[k - 1]))
  }

  ghost predicate Inv(s: State) {
    && Queues(s.store, s.appended, s.removed)
    && (s.delivery.Holding? ==> s.removed < |s.appended| && s.delivery.index == s.removed && s.delivery.tx == s.appended[s.removed])
    && (s.delivery.Acknowledged? ==> s.delivery.index == s.removed && AckedCount(s, s.removed + 1))
    && exists k: nat :: AckedCount(s, k)
  }

  lemma AppendKeeps(s: State, tx: Tx)
    requires Inv(s)
    ensures Inv(Apply(s, AppendStep(tx)))
  {
    AppendQueues(s.store, s.appended, s.removed, tx);
    var r := Apply(s, AppendStep(tx));
    if Append(s.store, tx).Ok? {
      forall k: nat | AckedCount(s, k)
        ensures AckedCount(r, k)
      {
        assert FirstAppended(r.appended, k) == FirstAppended(s.appended, k);
      }
    }
  }

  lemma DequeueKeeps(s: State)
    requires Inv(s)
    ensures Inv(Apply(s, DequeueStep))
  {
    var r := Apply(s, DequeueStep);
    if r != s {
      var i := r.delivery.index;
      DequeueIsFront(s.store, s.appended, s.removed, Ok(Some((i, s.store.indexToTx[i]))));
    }
    var k: nat :| AckedCount(s, k);
    assert AckedCount(r, k);
  }

  /** Acknowledging the transaction at the front, for the first time or again. */
  lemma SubmitKeeps(s: State, accepted: bool)
    requires Inv(s)
    ensures Inv(Apply(s, SubmitStep(accepted)))
  {
    var r := Apply(s, SubmitStep(accepted));
    var k: nat :| AckedCount(s, k);
    if s.delivery.Holding? && accepted {
      var front := (s.delivery.index, s.delivery.tx);
      assert r.acked[..|s.acked|] == s.acked;
      if k == s.removed {
        assert FirstAppended(s.appended, k + 1) == FirstAppended(s.appended, k) + [front];
        assert AckedCount(r, k + 1);
      } else {
        assert AckedCount(r, k);
      }
    } else {
      assert AckedCount(r, k);
    }
  }

  lemma RemoveKeeps(s: State, succeeds: bool)
    requires Inv(s)
    ensures Inv(Apply(s, RemoveStep(succeeds)))
  {
    var r := Apply(s, RemoveStep(succeeds));
    if s.delivery.Acknowledged? {
      RemoveFrontQueues(s.store, s.appended, s.removed);
      assert AckedCount(r, s.removed + 1);
    } else {
      var k: nat :| AckedCount(s, k);
      assert AckedCount(r, k);
    }
  }

  lemma {:induction false} RunKeeps(steps: seq<Step>)
    ensures Inv(Run(steps))
  {
    if steps == [] {
      assert AckedCount(START, 0);
    } else {
      var s := Run(steps[..|steps| - 1]);
      RunKeeps(steps[..|steps| - 1]);
      match steps[|steps| - 1]
      case AppendStep(tx) => AppendKeeps(s, tx);
      case DequeueStep => DequeueKeeps(s);
      case SubmitStep(accepted) => SubmitKeeps(s, accepted);
      case RemoveStep(succeeds) => RemoveKeeps(s, succeeds);
    }
  }

  /** Whatever submissions and removals fail: the acknowledged transactions, repeats collapsed, are a prefix of
      the append order; everything removed is among them; and the tables hold exactly what is not removed. */
  lemma DeliveredInOrder(steps: seq<Step>)
    ensures var s := Run(steps);
            && Queues(s.store, s.appended, s.removed)
            && exists k: nat :: s.removed <= k <= |s.appended| && Collapsed(s.acked) == FirstAppended(s.appended, k)
  {
    RunKeeps(steps);
    var s := Run(steps);
    var k: nat :| AckedCount(s, k);
    assert Collapsed(s.acked) == FirstAppended(s.appended, k);
  }

  /** Whenever the thread is idle and something waits, one undisturbed turn acknowledges the front, and takes it off the queue
      exactly if the removal succeeds; a refused submission changes nothing but the turn. */
  lemma TurnDelivers(s: State, succeeds: bool)
    requires Inv(s) && s.delivery.Idle? && s.removed < |s.appended|
    ensures var held := Apply(s, DequeueStep);
            var front: (U64, Tx) := (s.removed, s.appended[s.removed]);
            && held == s.(delivery := Holding(front.0, front.1))
            && Apply(held, SubmitStep(false)) == s
            && Apply(held, SubmitStep(true)) == s.(delivery := Acknowledged(front.0), acked := s.acked + [front])
            && var done := Apply(Apply(held, SubmitStep(true)), RemoveStep(succeeds));
            && done.delivery.Idle? && done.acked == s.acked + [front] && done.appended == s.appended
            && done.removed == s.removed + (if succeeds then 1 else 0)
            && (!succeeds ==> done.store == s.store)
  {
    var first: U64 := s.removed;
    assert IsLeast(s.store.queue, first) && first in s.store.indexToTx;
    assert forall i :: IsLeast(s.store.queue, i) ==> i == first;
    RemoveFrontQueues(s.store, s.appended, s.removed);
  }

  /** The n-th step is an accepted submission of the transaction at hand. */
  ghost predicate AcceptedAt(steps: seq<Step>, n: nat, entry: (U64, Tx)) {
    n < |steps| && steps[n] == SubmitStep(true) && Run(steps[..n]).delivery == Holding(entry.0, entry.1)
  }

  lemma AcceptedEarlier(steps: seq<Step>, n: nat, entry: (U64, Tx))
    requires steps != [] && n < |steps| - 1
    ensures AcceptedAt(steps, n, entry) <==> AcceptedAt(steps[..|steps| - 1], n, entry)
  {
    assert steps[..|steps| - 1][..n] == steps[..n];
  }

  /** Exactly what was accepted counts as acknowledged. */
  lemma {:induction false} AckedIffAccepted(steps: seq<Step>, entry: (U64, Tx))
    ensures entry in Run(steps).acked <==> exists n: nat :: AcceptedAt(steps, n, entry)
  {
    if steps != [] {
      var init, last := steps[..|steps| - 1], |steps| - 1;
      AckedIffAccepted(init, entry);
      if n: nat :| AcceptedAt(init, n, entry) {
        AcceptedEarlier(steps, n, entry);
      }
      if n: nat :| AcceptedAt(steps, n, entry) {
        if n < last {
          AcceptedEarlier(steps, n, entry);
        }
      }
      if entry in Run(steps).acked && entry !in Run(init).acked {
        assert AcceptedAt(steps, last, entry);
      }
    }
  }

  lemma {:induction false} CollapsedAmong<T>(s: seq<T>, x: T)
    requires x in Collapsed(s)
    ensures x in s
  {
    if |s| > 1 && x in Collapsed(s[..|s| - 1]) {
      CollapsedAmong(s[..|s| - 1], x);
    }
  }

  /** No transaction leaves the queue unless a submission of it was accepted. */
  lemma NothingLost(steps: seq<Step>, i: nat)
    requires i < Run(steps).removed
    ensures i < |Run(steps).appended| < TWO64
    ensures exists n: nat :: AcceptedAt(steps, n, (i, Run(steps).appended[i]))
  {
    DeliveredInOrder(steps);
    var s := Run(steps);
    var k: nat :| s.removed <= k <= |s.appended| && Collapsed(s.acked) == FirstAppended(s.appended, k);
    var index: U64 := i;
    var entry: (U64, Tx) := (index, s.appended[i]);
    assert FirstAppended(s.appended, k)[i] == entry;
    CollapsedAmong(s.acked, entry);
    AckedIffAccepted(steps, entry);
  }
}
