/**
 The pipelined system-call protocol: client queues and loops, the bytes in flight, and the
 server's loop. Requests are identified by their position in the order of acceptance.

 A step is one stretch of program code between awaits, or one read or write of any number of
 bytes. Write errors and EOF are permanent.
 */
module Pipeline {
  import opened Prelude
  import opened Streams

  const REQUEST := 56
  const RESPONSE := 8

  datatype Outcome = Result(value: Record) | Hangup | SendError

  datatype State = State(
    accepted: seq<Record>,           // every request so far, as it is put on the wire
    // _run_requests
    waiting: seq<nat>,               // request_queue
    batch: seq<nat>,                 // reqs_to_write; empty while waiting in get_many
    unsent: seq<Byte>,               // ptr_to_write
    broken: bool,                    // a write has failed
    written: seq<Byte>,              // every byte written so far
    // the server
    inbound: seq<Byte>,              // written and not read by the server
    partial: seq<Byte>,              // the request being read
    executed: seq<Record>,           // requests performed so far
    results: seq<Record>,            // and their results
    unwritten: seq<Byte>,            // the response being written
    stopped: bool,
    // _run_responses
    outbound: seq<Byte>,             // responded and not read by the client
    buf: seq<Byte>,                  // AsyncReadBuffer.buf
    eof: bool,                       // a read has failed
    sent: seq<nat>,                  // response_queue
    reading: Option<nat>,            // the request whose response is being read
    outcomes: map<int, Outcome>,     // what continuations were resumed with
    forwarded: nat,                  // how many requests were sent without an error
    answered: nat)                   // how many responses were read

  const Start := State([], [], [], [], false, [], [], [], [], [], [], false, [], [], false, [], None, map[], 0, 0)

  datatype Step =
    | Request(r: Record)
    | GetMany(n: nat)                // get_many takes all that wait, or the one that arrives
    | WriteSome(n: nat)
    | WriteFails
    | Forward
    | ServerReads(n: nat)
    | Perform(result: Record)
    | ServerWrites(n: nat)
    | ServerStops
    | GetOne
    | ClientReads(n: nat)
    | ReadFails
    | Answer

  predicate Can(s: State, step: Step) {
    match step
    case Request(r) => |r| == REQUEST
    case GetMany(n) => s.batch == [] && 0 < n <= |s.waiting|
    case WriteSome(n) => !s.broken && s.batch != [] && n <= |s.unsent|
    case WriteFails => s.batch != [] && s.unsent != []
    case Forward => s.batch != [] && s.unsent == []
    case ServerReads(n) => !s.stopped && s.unwritten == [] && 0 < n <= |s.inbound| && |s.partial| + n <= REQUEST
    case Perform(result) => !s.stopped && s.unwritten == [] && |s.partial| == REQUEST && |result| == RESPONSE
    case ServerWrites(n) => !s.stopped && n <= |s.unwritten|
    case ServerStops => true
    case GetOne => s.reading.None? && s.sent != []
    case ClientReads(n) => s.reading.Some? && |s.buf| < RESPONSE && !s.eof && 0 < n <= |s.outbound|
    case ReadFails => s.reading.Some? && |s.buf| < RESPONSE
    case Answer => s.reading.Some? && |s.buf| >= RESPONSE
  }

  /** The bytes of some accepted requests. */
  function Bytes(s: State, ids: seq<nat>): seq<Byte>
    requires forall i :: 0 <= i < |ids| ==> ids[i] < |s.accepted|
  {
    Stream(seq(|ids|, i requires 0 <= i < |ids| => s.accepted[ids[i]]))
  }

  function Settle(outcomes: map<int, Outcome>, ids: seq<nat>, o: Outcome): map<int, Outcome> {
    outcomes + map k | k in ids :: o
  }

  /** Identities in a queue are those of accepted requests. */
  predicate Known(s: State) {
    forall i :: 0 <= i < |s.waiting| ==> s.waiting[i] < |s.accepted|
  }

  function Apply(s: State, step: Step): State
    requires Known(s) && Can(s, step)
  {
    match step
    case Request(r) => s.(accepted := s.accepted + [r], waiting := s.waiting + [|s.accepted|])
    case GetMany(n) => s.(waiting := s.waiting[n..], batch := s.waiting[..n], unsent := Bytes(s, s.waiting[..n]))
    case WriteSome(n) => s.(unsent := s.unsent[n..], written := s.written + s.unsent[..n], inbound :=
        s.inbound + s.unsent[..n])
    case WriteFails => s.(broken := true, batch := [], unsent := [], outcomes := Settle(s.outcomes, s.batch, SendError))
    case Forward => s.(batch := [], sent := s.sent + s.batch, forwarded := s.forwarded + |s.batch|)
    case ServerReads(n) => s.(inbound := s.inbound[n..], partial := s.partial + s.inbound[..n])
    case Perform(result) =>
      s.(partial := [], executed := s.executed + [s.partial], results := s.results + [result], unwritten := result)
    case ServerWrites(n) => s.(unwritten := s.unwritten[n..], outbound := s.outbound + s.unwritten[..n])
    case ServerStops => s.(stopped := true)
    case GetOne => s.(reading := Some(s.sent[0]), sent := s.sent[1..])
    case ClientReads(n) => s.(outbound := s.outbound[n..], buf := s.buf + s.outbound[..n])
    case ReadFails => s.(eof := true, reading := None, outcomes := s.outcomes[s.reading.value := Hangup])
    case Answer => s.(buf := s.buf[RESPONSE..], reading := None, outcomes :=
        s.outcomes[s.reading.value := Result(s.buf[..RESPONSE])], answered := s.answered + 1)
  }

  // ---------------------------------------------------------------- what every step keeps

  /** Consecutive identities. */
  predicate From(ids: seq<nat>, first: int) {
    forall i :: 0 <= i < |ids| ==> ids[i] == first + i
  }

  /** Requests taken out of the request queue so far. */
  function Taken(s: State): int { |s.accepted| - |s.waiting| }

  /** The first request not forwarded and not in the batch. */
  function BatchStart(s: State): int { Taken(s) - |s.batch| }

  /** Queues hold consecutive requests in order of acceptance. */
  ghost predicate QueuesOk(s: State) {
    && |s.waiting| + |s.batch| <= |s.accepted| && From(s.waiting, Taken(s))
    && From(s.batch, BatchStart(s))
    && s.forwarded <= BatchStart(s) && (!s.broken ==> s.forwarded == BatchStart(s))
    && |s.sent| + (if s.reading.Some? then 1 else 0) <= s.forwarded
    && From(s.sent, s.forwarded - |s.sent|)
    && (s.reading.Some? ==> s.reading.value == s.forwarded - |s.sent| - 1)
  }

  /** The requests whose reading is finished. */
  function Finished(s: State): int {
    s.forwarded - |s.sent| - (if s.reading.Some? then 1 else 0)
  }

  /** What was written is where the accepted requests, one after another, begin. */
  ghost predicate SendOk(s: State) {
    && |s.waiting| <= |s.accepted| && (s.batch == [] ==> s.unsent == [])
    && Sized(s.accepted, REQUEST)
    && IsPrefix(s.written, Stream(s.accepted)) && REQUEST * s.forwarded <= |s.written|
    && (!s.broken ==> s.written + s.unsent == Stream(s.accepted[..Taken(s)]))
    && (s.broken && s.batch != [] ==> s.unsent != [])
  }

  ghost predicate ServeOk(s: State) {
    && Sized(s.executed, REQUEST) && Sized(s.results, RESPONSE) && |s.executed| == |s.results|
    && |s.partial| <= REQUEST
    && s.written == Stream(s.executed) + s.partial + s.inbound
  }

  /** Responses are read off the results one after another. */
  ghost predicate ReceiveOk(s: State) {
    && s.answered <= |s.results|
    && Stream(s.results[s.answered..]) == s.buf + s.outbound + s.unwritten
  }

  /** Who has been resumed, and with what. */
  ghost predicate OutcomesOk(s: State) {
    && s.answered <= Finished(s) && s.answered <= |s.results|
    && (!s.eof ==> s.answered == Finished(s)) && (s.eof ==> |s.buf| < RESPONSE)
    && (forall k :: k in s.outcomes <==> 0 <= k < Finished(s) || s.forwarded <= k < BatchStart(s))
    && (forall k :: 0 <= k < s.answered ==> s.outcomes[k] == Result(s.results[k]))
    && (forall k :: s.answered <= k < Finished(s) ==> s.outcomes[k] == Hangup)
    && (forall k :: s.forwarded <= k < BatchStart(s) ==> s.outcomes[k] == SendError)
  }

  ghost predicate Inv(s: State) {
    && Known(s) && QueuesOk(s) && SendOk(s) && ServeOk(s) && ReceiveOk(s) && OutcomesOk(s)
  }
}
