// The two-step call protocol across the enclave boundary: the trusted side
// keeps an answer that does not fit the caller's buffer under a random retry
// id, and the untrusted side calls again with a large enough buffer.

module Ecall {
  import opened Common
  import opened Keys

  type Bytes = seq<Byte>
  type RetryId = U64

  datatype Status =
    | OutOfMemory
    | InvalidParameter
    | EnclaveCrashed
    | InvalidFunction
    | OutOfTcs
    | EcallNotAllowed
    | OcallNotAllowed
    | StackOverrun
    | OtherStatus(code: nat)

  predicate IsFatal(status: Status) {
    status.InvalidFunction? || status.OutOfTcs? || status.EnclaveCrashed? || status.EcallNotAllowed?
    || status.OcallNotAllowed? || status.StackOverrun?
  }

  const INITIAL_BUFFER: nat := 64

  /** What one ecall gives back: an error or bytes, the length it needs, and the retry id. */
  datatype Reply = Reply(result: Result<Bytes, Status>, used: nat, retryId: RetryId)

  // ---- RetryBuffer ----

  class RetryBuffer {
    const handler: Bytes -> Result<Bytes, Status>
    var retryData: map<RetryId, Bytes>
    ghost var handlerRuns: nat

    constructor (handler: Bytes -> Result<Bytes, Status>)
      ensures this.handler == handler && retryData == map[] && handlerRuns == 0
    {
      this.handler := handler;
      retryData := map[];
      handlerRuns := 0;
    }

    /** `drawn` is the first random id not in the map. */
    method Call(inbuf: Bytes, outbufLen: nat, used: nat, retryId: RetryId, drawn: RetryId) returns (reply: Reply)
      requires drawn !in retryData
      modifies this
      ensures retryId > 0 && retryId !in old(retryData) ==>
                reply == Reply(Err(InvalidParameter), used, retryId) && retryData == old(retryData)
      ensures retryId > 0 && retryId in old(retryData) ==>
                var outdata := old(retryData)[retryId];
                if |outdata| > outbufLen then reply == Reply(Err(OutOfMemory), |outdata|, retryId) && retryData == old(retryData)
                else reply == Reply(Ok(outdata), |outdata|, 0) && retryData == old(retryData) - {retryId}
      ensures retryId == 0 && handler(inbuf).Err? ==>
                reply == Reply(Err(handler(inbuf).error), used, 0) && retryData == old(retryData)
      ensures retryId == 0 && handler(inbuf).Ok? ==>
                var outdata := handler(inbuf).value;
                if |outdata| > outbufLen then reply == Reply(Err(OutOfMemory), |outdata|, drawn) && retryData == old(retryData)[drawn := outdata]
                else reply == Reply(Ok(outdata), |outdata|, 0) && retryData == old(retryData)
      ensures handlerRuns == old(handlerRuns) + (if retryId == 0 then 1 else 0)
    {
      if retryId > 0 {
        if retryId !in retryData {
          return Reply(Err(InvalidParameter), used, retryId);
        }
        var outdata := retryData[retryId];
        retryData := retryData - {retryId};
        if |outdata| > outbufLen {
          retryData := retryData[retryId := outdata];
          return Reply(Err(OutOfMemory), |outdata|, retryId);
        }
        return Reply(Ok(outdata), |outdata|, 0);
      }
      var outdata := handler(inbuf);
      handlerRuns := handlerRuns + 1;
      match outdata {
        case Err(e) =>
          return Reply(Err(e), used, retryId);
        case Ok(bytes) =>
          if |bytes| > outbufLen {
            retryData := retryData[drawn := bytes];
            return Reply(Err(OutOfMemory), |bytes|, drawn);
          }
          return Reply(Ok(bytes), |bytes|, 0);
      }
    }
  }

  predicate Overflows(result: Result<Bytes, Status>, outbufLen: nat) {
    result.Ok? && |result.value| > outbufLen
  }

  // ---- make_variable_length_ecall, one caller alone ----

  datatype Answer = Returned(bytes: Bytes) | Failed(status: Status) | Panicked

  /** What the caller of a handler should see. */
  function Expected(result: Result<Bytes, Status>): Answer {
    match result
    case Ok(bytes) => Returned(bytes)
    case Err(OutOfMemory) => Panicked          // never an answer: the caller would retry and give up
    case Err(InvalidFunction) => Panicked
    case Err(OutOfTcs) => Panicked
    case Err(EnclaveCrashed) => Panicked
    case Err(EcallNotAllowed) => Panicked
    case Err(OcallNotAllowed) => Panicked
    case Err(StackOverrun) => Panicked
    case Err(InvalidParameter) => Failed(InvalidParameter)
    case Err(OtherStatus(code)) => Failed(OtherStatus(code))
  }

  /** Runs the handler once and leaves the map alone, unless the answer is long and the drawn id is
      zero, which the trusted side takes for "no retry"; or the handler itself reports out of memory. */
  method MakeVariableLengthEcall(enclave: RetryBuffer, inbuf: Bytes, draws: seq<RetryId>) returns (answer: Answer)
    requires |draws| == 2 && draws[0] !in enclave.retryData && draws[1] !in enclave.retryData && draws[0] != draws[1]
    modifies enclave
    ensures answer == Expected(enclave.handler(inbuf))
    ensures var result := enclave.handler(inbuf);
            var again := result == Err(OutOfMemory) || (Overflows(result, INITIAL_BUFFER) && draws[0] == 0);
            && enclave.handlerRuns == old(enclave.handlerRuns) + (if again then 2 else 1)
            && enclave.retryData ==
               if Overflows(result, INITIAL_BUFFER) && draws[0] == 0 then old(enclave.retryData)[0 := result.value] else old(enclave.retryData)
  {
    ghost var data, runs := enclave.retryData, enclave.handlerRuns;
    var outbufUsed, retryId: RetryId := INITIAL_BUFFER, 0;
    var i := 0;
    while true
      invariant 0 <= i <= 2
      invariant i == 0 ==> outbufUsed == INITIAL_BUFFER && retryId == 0 && enclave.retryData == data && enclave.handlerRuns == runs
      invariant i == 1 ==> enclave.handlerRuns == runs + 1 && draws[1] !in enclave.retryData
      invariant i == 1 ==> AfterFirst(enclave.handler(inbuf), data, enclave.retryData, outbufUsed, retryId, draws[0])
      invariant i == 2 ==> enclave.handler(inbuf) == Err(OutOfMemory) && enclave.handlerRuns == runs + 2 && enclave.retryData == data
      decreases 2 - i
    {
      i := i + 1;
      if i > 2 {
        return Panicked;
      }
      var reply := enclave.Call(inbuf, outbufUsed, outbufUsed, retryId, draws[i - 1]);
      outbufUsed, retryId := reply.used, reply.retryId;
      match reply.result {
        case Ok(bytes) =>
          assert enclave.retryData == (if Overflows(enclave.handler(inbuf), INITIAL_BUFFER) && draws[0] == 0 then data[0 := bytes] else data);
          return Returned(bytes);
        case Err(e) =>
          if e == OutOfMemory {
            continue;
          }
          return if IsFatal(e) then Panicked else Failed(e);
      }
    }
  }

  /** Where the first iteration leaves a call that has to go round again. */
  ghost predicate AfterFirst(result: Result<Bytes, Status>, before: map<RetryId, Bytes>, after: map<RetryId, Bytes>, used: nat, retryId: RetryId, drawn: RetryId) {
    if result.Err? then result.error == OutOfMemory && after == before && retryId == 0
    else |result.value| > INITIAL_BUFFER && used == |result.value| && retryId == drawn && after == before[drawn := result.value]
  }
}
